/**
 How long a chain of propagated tasks can get, for a fixed edge table: the exact longest chain,
 and exactly when there is a longest one.
 */
module Chains {
  import opened Common
  import opened Schema
  import opened TaskService
  import opened GraphEngine
  import EdgeOps

  // What of a task decides where it propagates, apart from the reviewer's verdict.
  datatype Shape = Shape(agent: AgentId, loop: Loop)

  function ShapeOf(t: Task): Shape {
    Shape(t.agent, t.loop)
  }

  function Successor(edges: seq<Edge>, s: Shape, approved: bool): Option<Shape> {
    match s.loop
    case Review(round, id) =>
      var edge := FindEdge(edges, id);
      if edge.None? then None
      else if approved then
        var next := Outgoing(edges, s.agent);
        if next.Some? && next.value.kind.Handoff? then Some(Shape(next.value.dst, Plain)) else None
      else if round < Rounds(edge.value) then Some(Shape(edge.value.src, Revision(round, id)))
      else None
    case _ =>
      var next := Outgoing(edges, s.agent);
      if next.None? then None
      else if next.value.kind.Handoff? then Some(Shape(next.value.dst, Plain))
      else Some(Shape(next.value.dst, Review(NextRound(s.loop), next.value.id)))
  }

  // Every task that is propagated without a one-off override has a shape the edge table allows.
  lemma PropagationFollowsEdges(d: Db, t: TaskId)
    requires t < |d.tasks| && d.tasks[t].overrideTo.None?
    requires Propagated(d, t).1.Some?
    ensures var after := Propagated(d, t).0;
            && |after.tasks| == |d.tasks| + 1
            && Successor(d.edges, ShapeOf(d.tasks[t]), SaysApproved(ResultOf(d.tasks[t]))) == Some(ShapeOf(after.tasks[|d.tasks|]))
  {
  }

  predicate Active(d: Db, t: TaskId)
    requires t < |d.tasks|
  {
    !d.tasks[t].stopped && d.tasks[t].project !in d.paused
  }

  // A review that refuses in its last round.
  predicate Exhausted(d: Db, t: TaskId)
    requires t < |d.tasks|
  {
    var row := d.tasks[t];
    row.loop.Review? && !SaysApproved(ResultOf(row)) && FindEdge(d.edges, row.loop.edge).Some?
    && row.loop.round >= Rounds(FindEdge(d.edges, row.loop.edge).value)
  }

  // The next task as the edge table has it, or the one-off override of a task that is no review.
  function Wanted(d: Db, t: TaskId): Option<Shape>
    requires t < |d.tasks|
  {
    var row := d.tasks[t];
    if row.overrideTo.Some? && !row.loop.Review? then Some(Shape(row.overrideTo.value, Plain))
    else Successor(d.edges, ShapeOf(row), SaysApproved(ResultOf(row)))
  }

  ghost predicate Childless(d: Db, t: TaskId) {
    forall i :: 0 <= i < |d.tasks| ==> d.tasks[i].parent != Some(t)
  }

  predicate MaySpawn(d: Db, t: TaskId)
    requires t < |d.tasks|
  {
    Active(d, t) && !OverBudget(d, d.tasks[t].goal) && Wanted(d, t).Some? && Wanted(d, t).value.agent in d.agents
  }

  /**
   A childless task gets a child exactly when it is active, its goal is within its budget and a known
   agent is wanted next; no edge ever fires twice for a task. What is reported is exactly the budget
   that is used up, or the loop whose last round refused.
   */
  lemma PropagationExactly(d: Db, t: TaskId)
    requires t < |d.tasks|
    ensures var (after, child) := Propagated(d, t);
      && (Childless(d, t) ==> (child.Some? <==> MaySpawn(d, t)))
      && (child.Some? ==> MaySpawn(d, t) && |after.tasks| == |d.tasks| + 1 && ShapeOf(after.tasks[|d.tasks|]) == Wanted(d, t).value)
      && (child.Some? ==> forall i :: 0 <= i < |d.tasks| && d.tasks[i].parent == Some(t) && d.tasks[i].edge.Some? ==> d.tasks[i].edge != after.tasks[|d.tasks|].edge)
    ensures var (after, child) := Propagated(d, t);
      var told := if !Active(d, t) then [] else if OverBudget(d, d.tasks[t].goal) then [ChainBudget(t)] else if Exhausted(d, t) then [LoopExhausted(t)] else [];
      after.notices == d.notices + told
  {
    assert d.notices + [] == d.notices;
    if Decide(d, t).Send? && Childless(d, t) {
      assert forall e :: !AlreadyFired(d.tasks, t, e);
    }
  }

  ghost predicate IsChain(edges: seq<Edge>, c: seq<Shape>) {
    && |c| >= 1
    && forall i :: 0 <= i < |c| - 1 ==>
         Successor(edges, c[i], true) == Some(c[i + 1]) || Successor(edges, c[i], false) == Some(c[i + 1])
  }

  // The agent that next gets fresh work when everything on the way is approved.
  function NextProducer(edges: seq<Edge>, a: AgentId): Option<AgentId> {
    var out := Outgoing(edges, a);
    if out.None? then None
    else if out.value.kind.Handoff? then Some(out.value.dst)
    else HandedOnBy(edges, out.value.dst)
  }

  function HandedOnBy(edges: seq<Edge>, b: AgentId): Option<AgentId> {
    var out := Outgoing(edges, b);
    if out.Some? && out.value.kind.Handoff? then Some(out.value.dst) else None
  }

  // The walk from producer to producer takes n steps without coming to an end.
  predicate Survives(edges: seq<Edge>, a: AgentId, n: nat)
    decreases n
  {
    n == 0 || (NextProducer(edges, a).Some? && Survives(edges, NextProducer(edges, a).value, n - 1))
  }

  // The longest chain below fresh work of `a`: one task per handoff, 2N-1 per review loop of N rounds.
  function Longest(edges: seq<Edge>, a: AgentId, fuel: nat): int
    decreases fuel, 1
  {
    var out := Outgoing(edges, a);
    if fuel == 0 || out.None? then 0
    else if out.value.kind.Handoff? then 1 + Longest(edges, out.value.dst, fuel - 1)
    else 2 * Rounds(out.value) - 1 + AfterApproval(edges, out.value.dst, fuel)
  }

  function AfterApproval(edges: seq<Edge>, b: AgentId, fuel: nat): int
    decreases fuel, 0
  {
    var out := HandedOnBy(edges, b);
    if fuel == 0 || out.None? then 0 else 1 + Longest(edges, out.value, fuel - 1)
  }

  ghost predicate UniqueIds(edges: seq<Edge>) {
    forall i, j :: 0 <= i < j < |edges| ==> edges[i].id != edges[j].id
  }

  ghost predicate WellKept(edges: seq<Edge>) {
    && EdgeOps.OneOutgoing(edges)
    && UniqueIds(edges)
    && forall e :: e in edges && e.kind.ReviewLoop? ==> e.kind.maxIterations >= 1
  }

  lemma RowIsFound(edges: seq<Edge>, e: Edge)
    requires WellKept(edges) && e in edges
    ensures FindEdge(edges, e.id) == Some(e) && Outgoing(edges, e.src) == Some(e)
  {
  }

  // --- chains are bounded when the walk ends ---

  lemma {:induction false} ReviewChainBounded(edges: seq<Edge>, c: seq<Shape>, e: Edge, fuel: nat)
    requires WellKept(edges) && e in edges && e.kind.ReviewLoop? && IsChain(edges, c)
    requires c[0].agent == e.dst && c[0].loop.Review? && c[0].loop.edge == e.id && 1 <= c[0].loop.round <= Rounds(e)
    requires fuel > 0 && (HandedOnBy(edges, e.dst).Some? ==> !Survives(edges, HandedOnBy(edges, e.dst).value, fuel - 1))
    ensures |c| - 1 <= 2 * (Rounds(e) - c[0].loop.round) + AfterApproval(edges, e.dst, fuel)
    decreases |c|
  {
    RowIsFound(edges, e);
    LongestNonNegative(edges, e.dst, fuel);
    if |c| >= 2 {
      ShorterChain(edges, c);
      if c[1].loop.Revision? {
        if |c| >= 3 {
          ShorterChain(edges, c[1..]);
          BackInReview(edges, c[1], c[2], e);
          ReviewChainBounded(edges, c[1..][1..], e, fuel);
        }
      } else {
        ChainBounded(edges, c[1..], fuel - 1);
      }
    }
  }

  lemma ShorterChain(edges: seq<Edge>, c: seq<Shape>)
    requires IsChain(edges, c) && |c| >= 2
    ensures IsChain(edges, c[1..])
  {
  }

  // A revision is followed by the next round's review.
  lemma BackInReview(edges: seq<Edge>, revision: Shape, next: Shape, e: Edge)
    requires WellKept(edges) && e in edges && e.kind.ReviewLoop? && revision.agent == e.src && revision.loop.Revision?
    requires Successor(edges, revision, true) == Some(next) || Successor(edges, revision, false) == Some(next)
    ensures next == Shape(e.dst, Review(revision.loop.round + 1, e.id))
  {
    RowIsFound(edges, e);
  }

  lemma LongestNonNegative(edges: seq<Edge>, a: AgentId, fuel: nat)
    requires WellKept(edges)
    ensures Longest(edges, a, fuel) >= 0 && AfterApproval(edges, a, fuel) >= 0
    decreases fuel
  {
    if fuel > 0 {
      var out := Outgoing(edges, a);
      if out.Some? {
        LongestNonNegative(edges, out.value.dst, fuel - 1);
        var next := HandedOnBy(edges, out.value.dst);
        if next.Some? {
          LongestNonNegative(edges, next.value, fuel - 1);
        }
      }
    }
  }

  /** A chain that starts from fresh work of `a` is no longer than Longest, when the walk from `a` ends. */
  lemma {:induction false} ChainBounded(edges: seq<Edge>, c: seq<Shape>, fuel: nat)
    requires WellKept(edges) && IsChain(edges, c) && c[0].loop == Plain
    requires !Survives(edges, c[0].agent, fuel)
    ensures |c| - 1 <= Longest(edges, c[0].agent, fuel)
    decreases |c|
  {
    LongestNonNegative(edges, c[0].agent, fuel);
    if |c| >= 2 {
      assert Successor(edges, c[0], true) == Successor(edges, c[0], false) == Some(c[1]);
      assert IsChain(edges, c[1..]);
      var e := Outgoing(edges, c[0].agent).value;
      if e.kind.Handoff? {
        ChainBounded(edges, c[1..], fuel - 1);
      } else {
        ReviewChainBounded(edges, c[1..], e, fuel);
      }
    }
  }

  // --- the bound is met ---

  lemma Prepend(edges: seq<Edge>, s: Shape, approved: bool, c: seq<Shape>)
    requires IsChain(edges, c) && Successor(edges, s, approved) == Some(c[0])
    ensures IsChain(edges, [s] + c)
  {
  }

  // The reviewer refuses until the last round and then approves.
  lemma {:induction false} LongestReviewChain(edges: seq<Edge>, e: Edge, round: int, fuel: nat) returns (c: seq<Shape>)
    requires WellKept(edges) && e in edges && e.kind.ReviewLoop? && 1 <= round <= Rounds(e)
    requires fuel > 0 && (HandedOnBy(edges, e.dst).Some? ==> !Survives(edges, HandedOnBy(edges, e.dst).value, fuel - 1))
    ensures IsChain(edges, c) && c[0] == Shape(e.dst, Review(round, e.id))
    ensures |c| - 1 == 2 * (Rounds(e) - round) + AfterApproval(edges, e.dst, fuel)
    decreases fuel, 0, Rounds(e) - round
  {
    RowIsFound(edges, e);
    var here := Shape(e.dst, Review(round, e.id));
    if round < Rounds(e) {
      var rest := LongestReviewChain(edges, e, round + 1, fuel);
      var revision := Shape(e.src, Revision(round, e.id));
      Prepend(edges, revision, true, rest);
      Prepend(edges, here, false, [revision] + rest);
      c := [here] + ([revision] + rest);
    } else {
      var next := HandedOnBy(edges, e.dst);
      if next.Some? {
        var rest := LongestChain(edges, next.value, fuel - 1);
        Prepend(edges, here, true, rest);
        c := [here] + rest;
      } else {
        c := [here];
      }
    }
  }

  /** There is a chain of exactly the length Longest says. */
  lemma {:induction false} LongestChain(edges: seq<Edge>, a: AgentId, fuel: nat) returns (c: seq<Shape>)
    requires WellKept(edges) && !Survives(edges, a, fuel)
    ensures IsChain(edges, c) && c[0] == Shape(a, Plain) && |c| - 1 == Longest(edges, a, fuel)
    decreases fuel, 1, 0
  {
    var here := Shape(a, Plain);
    var out := Outgoing(edges, a);
    if out.None? {
      c := [here];
    } else if out.value.kind.Handoff? {
      var rest := LongestChain(edges, out.value.dst, fuel - 1);
      Prepend(edges, here, true, rest);
      c := [here] + rest;
    } else {
      var rest := LongestReviewChain(edges, out.value, 1, fuel);
      Prepend(edges, here, true, rest);
      c := [here] + rest;
    }
  }

  // --- chains are unbounded when the walk goes on ---

  lemma {:induction false} SurvivingWalkChain(edges: seq<Edge>, a: AgentId, n: nat) returns (c: seq<Shape>)
    requires WellKept(edges) && Survives(edges, a, n)
    ensures IsChain(edges, c) && c[0] == Shape(a, Plain) && |c| > n
    decreases n
  {
    var here := Shape(a, Plain);
    if n == 0 {
      c := [here];
    } else {
      var rest := SurvivingWalkChain(edges, NextProducer(edges, a).value, n - 1);
      var e := Outgoing(edges, a).value;
      if e.kind.Handoff? {
        Prepend(edges, here, true, rest);
        c := [here] + rest;
      } else {
        RowIsFound(edges, e);
        var review := Shape(e.dst, Review(1, e.id));
        Prepend(edges, review, true, rest);
        Prepend(edges, here, true, [review] + rest);
        c := [here] + ([review] + rest);
      }
    }
  }

  // --- a walk longer than the edge table never ends ---

  function WalkAt(edges: seq<Edge>, a: AgentId, n: nat): AgentId
    requires Survives(edges, a, n)
    decreases n
  {
    if n == 0 then a else WalkAt(edges, NextProducer(edges, a).value, n - 1)
  }

  lemma {:induction false} SurvivesSplit(edges: seq<Edge>, a: AgentId, m: nat, n: nat)
    requires Survives(edges, a, m)
    ensures Survives(edges, a, m + n) <==> Survives(edges, WalkAt(edges, a, m), n)
    ensures Survives(edges, a, m + n) ==> WalkAt(edges, a, m + n) == WalkAt(edges, WalkAt(edges, a, m), n)
    decreases m
  {
    if m > 0 {
      SurvivesSplit(edges, NextProducer(edges, a).value, m - 1, n);
    }
  }

  lemma {:induction false} SurvivesLess(edges: seq<Edge>, a: AgentId, m: nat, n: nat)
    requires Survives(edges, a, n) && m <= n
    ensures Survives(edges, a, m)
    decreases m
  {
    if m > 0 {
      SurvivesLess(edges, NextProducer(edges, a).value, m - 1, n - 1);
    }
  }

  lemma {:induction false} LoopsForever(edges: seq<Edge>, a: AgentId, period: nat, n: nat)
    requires period > 0 && Survives(edges, a, period) && WalkAt(edges, a, period) == a
    ensures Survives(edges, a, n)
    decreases n
  {
    if n <= period {
      SurvivesLess(edges, a, n, period);
    } else {
      LoopsForever(edges, a, period, n - period);
      SurvivesSplit(edges, a, period, n - period);
    }
  }

  function Sources(edges: seq<Edge>): (s: set<AgentId>)
    ensures |s| <= |edges|
    ensures forall e :: e in edges ==> e.src in s
  {
    if edges == [] then {}
    else
      assert edges == [edges[0]] + edges[1..];
      {edges[0].src} + Sources(edges[1..])
  }

  lemma {:induction false} Pigeonhole(s: seq<AgentId>, home: set<AgentId>)
    requires forall i :: 0 <= i < |s| ==> s[i] in home
    requires |s| > |home|
    ensures exists i, j :: 0 <= i < j < |s| && s[i] == s[j]
    decreases |s|
  {
    var last := s[|s| - 1];
    var front := s[..|s| - 1];
    if i :| 0 <= i < |front| && front[i] == last {
      assert s[i] == s[|s| - 1];
    } else {
      forall i | 0 <= i < |front|
        ensures front[i] in home - {last}
      {
        assert s[i] in home;
      }
      Pigeonhole(front, home - {last});
      var i, j :| 0 <= i < j < |front| && front[i] == front[j];
      assert s[i] == s[j];
    }
  }

  lemma LongWalkNeverEnds(edges: seq<Edge>, a: AgentId, n: nat)
    requires Survives(edges, a, |edges| + 1)
    ensures Survives(edges, a, n)
  {
    var m := |edges| + 1;
    forall i: nat | i <= m
      ensures Survives(edges, a, i)
    {
      SurvivesLess(edges, a, i, m);
    }
    var visited := seq(m, i requires 0 <= i < m => WalkAt(edges, a, i));
    forall i | 0 <= i < m
      ensures visited[i] in Sources(edges)
    {
      SurvivesSplit(edges, a, i, 1);
      assert Survives(edges, a, i + 1);
      assert NextProducer(edges, visited[i]).Some?;
    }
    Pigeonhole(visited, Sources(edges));
    var i, j :| 0 <= i < j < m && visited[i] == visited[j];
    SurvivesSplit(edges, a, i, j - i);
    if n <= i {
    } else {
      LoopsForever(edges, visited[i], j - i, n - i);
      SurvivesSplit(edges, a, i, n - i);
    }
  }

  // A number no chain from fresh work of `a` exceeds.
  ghost predicate BoundsChainsFrom(edges: seq<Edge>, a: AgentId, bound: nat) {
    forall c :: IsChain(edges, c) && c[0] == Shape(a, Plain) ==> |c| <= bound
  }

  /**
   Chains from fresh work of `a` are bounded exactly when the producer walk from `a` ends within
   as many steps as there are edges, which is a check one can make on the edge table beforehand.
   */
  lemma ChainsEndExactlyWhen(edges: seq<Edge>, a: AgentId)
    requires WellKept(edges)
    ensures (exists bound: nat :: BoundsChainsFrom(edges, a, bound)) <==> !Survives(edges, a, |edges| + 1)
  {
    var m := |edges| + 1;
    if Survives(edges, a, m) {
      forall bound: nat
        ensures !BoundsChainsFrom(edges, a, bound)
      {
        LongWalkNeverEnds(edges, a, bound);
        var c := SurvivingWalkChain(edges, a, bound);
      }
    } else {
      LongestNonNegative(edges, a, m);
      var bound: nat := Longest(edges, a, m) + 1;
      forall c | IsChain(edges, c) && c[0] == Shape(a, Plain)
        ensures |c| <= bound
      {
        ChainBounded(edges, c, m);
      }
      assert BoundsChainsFrom(edges, a, bound);
    }
  }

  // When every edge goes down in some ranking of the agents, all walks end.
  lemma {:induction false} RankedGraphEnds(edges: seq<Edge>, rank: AgentId -> nat, a: AgentId, n: nat)
    requires forall e :: e in edges ==> rank(e.dst) < rank(e.src)
    requires n > rank(a)
    ensures !Survives(edges, a, n)
    decreases n
  {
    if NextProducer(edges, a).Some? {
      RankedGraphEnds(edges, rank, NextProducer(edges, a).value, n - 1);
    }
  }

  lemma LongestBounds(edges: seq<Edge>, a: AgentId, fuel: nat)
    requires WellKept(edges) && !Survives(edges, a, fuel)
    ensures forall c :: IsChain(edges, c) && c[0] == Shape(a, Plain) ==> |c| - 1 <= Longest(edges, a, fuel)
  {
    forall c | IsChain(edges, c) && c[0] == Shape(a, Plain)
      ensures |c| - 1 <= Longest(edges, a, fuel)
    {
      ChainBounded(edges, c, fuel);
    }
  }

  lemma LongestIsReached(edges: seq<Edge>, a: AgentId, fuel: nat)
    requires WellKept(edges) && !Survives(edges, a, fuel)
    ensures exists c :: IsChain(edges, c) && c[0] == Shape(a, Plain) && |c| - 1 == Longest(edges, a, fuel)
  {
    var c := LongestChain(edges, a, fuel);
  }

  /** With no cycle of edges of any kind, the longest chain has exactly the advertised length. */
  lemma AcyclicGraphExactLength(edges: seq<Edge>, rank: AgentId -> nat, a: AgentId)
    requires WellKept(edges) && forall e :: e in edges ==> rank(e.dst) < rank(e.src)
    ensures forall c :: IsChain(edges, c) && c[0] == Shape(a, Plain) ==> |c| - 1 <= Longest(edges, a, rank(a) + 1)
    ensures exists c :: IsChain(edges, c) && c[0] == Shape(a, Plain) && |c| - 1 == Longest(edges, a, rank(a) + 1)
  {
    RankedGraphEnds(edges, rank, a, rank(a) + 1);
    LongestBounds(edges, a, rank(a) + 1);
    LongestIsReached(edges, a, rank(a) + 1);
  }

  const FORTH := EdgeOps.EdgeRequest(0, 1, "handoff", None)
  const BACK := EdgeOps.EdgeRequest(1, 0, "review_loop", Some(3))
  const MIXED_CYCLE := [Edge(100, 7, 0, 1, Handoff), Edge(101, 7, 1, 0, ReviewLoop(3))]

  lemma MixedCycleIsAccepted(agents: map<AgentId, Agent>)
    requires agents == map[0 := Agent(7, Medium, Crew), 1 := Agent(7, Medium, Crew)]
    ensures EdgeOps.EditedAll(EdgeOps.Graph(agents, []), [EdgeOps.Connect(FORTH, 100), EdgeOps.Connect(BACK, 101)]).edges == MIXED_CYCLE
  {
    EdgeOps.NoEdgesNoPath();
    var g0 := EdgeOps.Graph(agents, []);
    var ops := [EdgeOps.Connect(FORTH, 100), EdgeOps.Connect(BACK, 101)];
    assert EdgeOps.InProject([], 7) == [];
    var g1 := EdgeOps.Edited(g0, ops[0]);
    assert g1.edges == [MIXED_CYCLE[0]];
    var g2 := EdgeOps.Edited(g1, ops[1]);
    assert g2.edges == MIXED_CYCLE;
    assert ops[1..] == [ops[1]] && ops[1..][1..] == [];
    assert EdgeOps.EditedAll(g2, []) == g2;
    assert EdgeOps.EditedAll(g1, [ops[1]]) == g2;
  }

  /**
   The validator accepts a handoff one way and a review loop back, and then chains have no bound:
   as long as every review approves, the pair keeps handing each other work.
   */
  lemma MixedCycleIsEndless(n: nat)
    ensures WellKept(MIXED_CYCLE) && Survives(MIXED_CYCLE, 0, n)
    ensures exists c :: IsChain(MIXED_CYCLE, c) && c[0] == Shape(0, Plain) && |c| > n
  {
    assert MIXED_CYCLE[1..] == [MIXED_CYCLE[1]];
    assert Outgoing(MIXED_CYCLE, 0) == Some(MIXED_CYCLE[0]) && Outgoing(MIXED_CYCLE, 1) == Some(MIXED_CYCLE[1]);
    MixedWalk(n);
    var c := SurvivingWalkChain(MIXED_CYCLE, 0, n);
  }

  lemma {:induction false} MixedWalk(n: nat)
    requires Outgoing(MIXED_CYCLE, 0) == Some(MIXED_CYCLE[0])
    requires Outgoing(MIXED_CYCLE, 1) == Some(MIXED_CYCLE[1])
    ensures Survives(MIXED_CYCLE, 0, n) && Survives(MIXED_CYCLE, 1, n)
  {
    if n > 0 {
      MixedWalk(n - 1);
    }
  }
}
