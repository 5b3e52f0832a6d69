/** Which bounds on propagation are met: runs with the longest lines, endless lines, an overshot goal and a lost brief. */
module KernelTightness {
  import opened Common
  import opened Schema
  import opened TaskService
  import opened GraphEngine
  import opened Kernel
  import opened KernelSafety
  import opened KernelChains
  import opened KernelRuns
  import opened Chains
  import EdgeOps

  // --- from a drawn graph to a line of tasks ---

  ghost predicate LineUp(s: State, c: seq<Shape>, goal: Option<GoalId>, brief: string) {
    && Realises(s.db.tasks, 0, c) && |c| >= 1
    && s.db.tasks[0].instructions == brief && s.db.tasks[0].overrideTo.None?
    && (goal.Some? ==> |TasksOfGoal(s.db.tasks, goal.value)| == |c|)
  }

  // One order from a user, and then the workers.
  predicate OneOrder(steps: seq<Step>, goal: Option<GoalId>) {
    && steps != [] && steps[0].Create? && steps[0].goal == goal && steps[0].overrideTo.None?
    && WorkersOnly(steps[1..])
  }

  lemma OrderReady(s0: State, order: Step)
    requires Drawn(s0) && Idle(s0) && order.Create? && order.agent in s0.db.agents && order.overrideTo.None?
    ensures var s := Next(s0, order);
      && Ready(s, 0) && s.db.edges == s0.db.edges && s.db.config == s0.db.config
      && ShapeOf(s.db.tasks[0]) == Shape(order.agent, Plain) && s.db.tasks[0].goal == order.goal && s.db.tasks[0].instructions == order.instructions
  {
    StepKeepsInv(s0, order);
  }

  lemma OneOfGoal(tasks: seq<Task>, g: GoalId)
    requires |tasks| == 1 && tasks[0].goal == Some(g)
    ensures |TasksOfGoal(tasks, g)| == 1
  {
    assert TasksOfGoal(tasks, g) == {0};
  }

  /** From a graph at rest, one order is enough to have any chain of the edge table propagated. */
  lemma OrderRunsChain(s0: State, order: Step, c: seq<Shape>) returns (steps: seq<Step>)
    requires Drawn(s0) && Idle(s0) && order.Create? && order.agent in s0.db.agents && order.overrideTo.None?
    requires IsChain(s0.db.edges, c) && c[0] == Shape(order.agent, Plain)
    requires order.goal.Some? && |c| >= 2 ==> |c| - 1 <= s0.db.config.goalBudget
    ensures OneOrder(steps, order.goal) && steps[0] == order
    ensures LineUp(After(s0, steps), c, order.goal, order.instructions)
  {
    var s := Next(s0, order);
    OrderReady(s0, order);
    if order.goal.Some? {
      OneOfGoal(s.db.tasks, order.goal.value);
    }
    var rest := ChainIsRun(s, 0, c);
    steps := [order] + rest;
    AfterJoined(s0, [order], rest);
    OneMore(s0, [], order);
    assert [] + [order] == [order] && steps[1..] == rest;
    assert RowEvolves(s.db.tasks[0], After(s, rest).db.tasks[0]);
  }

  lemma OrdersKeepEdges(steps: seq<Step>, goal: Option<GoalId>)
    requires OneOrder(steps, goal)
    ensures forall step :: step in steps ==> KeepsEdges(step)
  {
    assert steps == [steps[0]] + steps[1..];
  }

  // --- descendants ---

  lemma {:induction false} AllBelowFirst(tasks: seq<Task>, c: seq<Shape>, k: TaskId)
    requires Realises(tasks, 0, c) && 0 < k < |tasks|
    ensures IsBelow(tasks, k, 0)
    decreases k
  {
    if k > 1 {
      AllBelowFirst(tasks, c, k - 1);
    }
  }

  function UpTo(n: nat): (s: set<nat>)
    ensures |s| == n && forall k :: k in s <==> 1 <= k <= n
  {
    if n == 0 then {} else UpTo(n - 1) + {n}
  }

  lemma LineDescends(tasks: seq<Task>, c: seq<Shape>)
    requires Realises(tasks, 0, c) && |c| >= 1
    ensures |Descendants(tasks, 0)| >= |c| - 1
  {
    forall k | k in UpTo(|c| - 1)
      ensures k in Descendants(tasks, 0)
    {
      AllBelowFirst(tasks, c, k);
    }
    SubsetCardinality(UpTo(|c| - 1), Descendants(tasks, 0));
  }

  /** The exact chain length is reached: some run has that many descendants below fresh work of `a`, and by DescendantsBounded none has more. */
  lemma LongestLineIsReached(s0: State, a: AgentId, fuel: nat) returns (steps: seq<Step>)
    requires Drawn(s0) && Idle(s0) && a in s0.db.agents && !Survives(s0.db.edges, a, fuel)
    ensures OneOrder(steps, None) && FreshIn(s0, steps, 0, a)
    ensures |Descendants(After(s0, steps).db.tasks, 0)| == Longest(s0.db.edges, a, fuel)
  {
    var c := LongestChain(s0.db.edges, a, fuel);
    steps := OrderRunsChain(s0, Create(0, a, None, "", None, None), c);
    LineDescends(After(s0, steps).db.tasks, c);
    OrdersKeepEdges(steps, None);
    assert ShapeOf(After(s0, steps).db.tasks[0]) == c[0];
    DescendantsBounded(s0, steps, 0, fuel);
  }

  // A number that the descendants of fresh work of `a` do not exceed in any run.
  ghost predicate BoundsLines(s0: State, a: AgentId, bound: nat) {
    forall steps: seq<Step>, t: TaskId :: FreshIn(s0, steps, t, a) ==> |Descendants(After(s0, steps).db.tasks, t)| <= bound
  }

  ghost predicate FreshIn(s0: State, steps: seq<Step>, t: TaskId, a: AgentId) {
    && (forall step :: step in steps ==> KeepsEdges(step))
    && t < |After(s0, steps).db.tasks|
    && After(s0, steps).db.tasks[t].loop == Plain && After(s0, steps).db.tasks[t].overrideTo.None? && After(s0, steps).db.tasks[t].agent == a
  }

  lemma SurvivingWalkIsRun(s0: State, a: AgentId, n: nat) returns (steps: seq<Step>)
    requires Drawn(s0) && Idle(s0) && a in s0.db.agents && Survives(s0.db.edges, a, n)
    ensures OneOrder(steps, None) && FreshIn(s0, steps, 0, a) && |Descendants(After(s0, steps).db.tasks, 0)| >= n
  {
    var c := SurvivingWalkChain(s0.db.edges, a, n);
    steps := OrderRunsChain(s0, Create(0, a, None, "", None, None), c);
    OrdersKeepEdges(steps, None);
    LineDescends(After(s0, steps).db.tasks, c);
    assert ShapeOf(After(s0, steps).db.tasks[0]) == c[0];
  }

  /**
   With the edges left alone, the tasks that runs propagate below fresh work of an agent are bounded
   in number if and only if its producer walk ends within as many steps as there are edges.
   */
  lemma LinesEndExactlyWhen(s0: State, a: AgentId)
    requires Drawn(s0) && Idle(s0) && a in s0.db.agents
    ensures (exists bound: nat :: BoundsLines(s0, a, bound)) <==> !Survives(s0.db.edges, a, |s0.db.edges| + 1)
  {
    var fuel := |s0.db.edges| + 1;
    if Survives(s0.db.edges, a, fuel) {
      forall bound: nat
        ensures !BoundsLines(s0, a, bound)
      {
        LongWalkNeverEnds(s0.db.edges, a, bound + 1);
        var steps := SurvivingWalkIsRun(s0, a, bound + 1);
      }
    } else {
      BoundedByLongest(s0, a, fuel);
    }
  }

  lemma BoundedByLongest(s0: State, a: AgentId, fuel: nat)
    requires Drawn(s0) && !Survives(s0.db.edges, a, fuel)
    ensures Longest(s0.db.edges, a, fuel) >= 0 && BoundsLines(s0, a, Longest(s0.db.edges, a, fuel))
  {
    LongestNonNegative(s0.db.edges, a, fuel);
    forall steps: seq<Step>, t: TaskId | FreshIn(s0, steps, t, a)
      ensures |Descendants(After(s0, steps).db.tasks, t)| <= Longest(s0.db.edges, a, fuel)
    {
      DescendantsBounded(s0, steps, t, fuel);
    }
  }

  /** With no cycle of edges of any kind, runs reach exactly the advertised number of descendants, and none exceeds it. */
  lemma AcyclicLinesExact(s0: State, rank: AgentId -> nat, a: AgentId) returns (steps: seq<Step>)
    requires Drawn(s0) && Idle(s0) && a in s0.db.agents && forall e :: e in s0.db.edges ==> rank(e.dst) < rank(e.src)
    ensures Longest(s0.db.edges, a, rank(a) + 1) >= 0 && BoundsLines(s0, a, Longest(s0.db.edges, a, rank(a) + 1))
    ensures FreshIn(s0, steps, 0, a) && |Descendants(After(s0, steps).db.tasks, 0)| == Longest(s0.db.edges, a, rank(a) + 1)
  {
    var fuel := rank(a) + 1;
    RankedGraphEnds(s0.db.edges, rank, a, fuel);
    BoundedByLongest(s0, a, fuel);
    steps := LongestLineIsReached(s0, a, fuel);
  }

  // --- the mixed cycle ---

  const PAIR: map<AgentId, Agent> := map[0 := Agent(7, Medium, Crew), 1 := Agent(7, Medium, Crew)]
  const DRAW_PAIR := [EditEdges(EdgeOps.Connect(FORTH, 100)), EditEdges(EdgeOps.Connect(BACK, 101))]

  function Unmetered(budget: int): Config {
    Config(1, budget, false)
  }

  // Drawing the edges changes the edge table and nothing else.
  lemma DrawnStep(s: State, op: EdgeOps.EdgeOp)
    requires op.Connect?
    ensures Next(s, EditEdges(op)) == s.(db := s.db.(edges := EdgeOps.Edited(EdgeOps.Graph(s.db.agents, s.db.edges), op).edges))
  {
  }

  lemma DrawTwo(config: Config, agents: map<AgentId, Agent>, a: EdgeOps.EdgeOp, b: EdgeOps.EdgeOp)
    requires a.Connect? && b.Connect?
    ensures var s0 := Start(config, agents);
      After(s0, [EditEdges(a), EditEdges(b)]) == s0.(db := s0.db.(edges := EdgeOps.EditedAll(EdgeOps.Graph(agents, []), [a, b]).edges))
  {
    var s0 := Start(config, agents);
    TwoSteps(s0, EditEdges(a), EditEdges(b));
    DrawnStep(s0, a);
    DrawnStep(Next(s0, EditEdges(a)), b);
    var g := EdgeOps.Graph(agents, []);
    assert [a, b][1..] == [b] && [b][1..] == [];
    assert EdgeOps.EditedAll(g, [a, b]) == EdgeOps.EditedAll(EdgeOps.Edited(g, a), [b]);
    assert EdgeOps.EditedAll(EdgeOps.Edited(g, a), [b]) == EdgeOps.EditedAll(EdgeOps.Edited(EdgeOps.Edited(g, a), b), []);
  }

  lemma TwoEdgesDrawn(budget: int, agents: map<AgentId, Agent>, a: EdgeOps.EdgeOp, b: EdgeOps.EdgeOp, edges: seq<Edge>)
    requires a.Connect? && b.Connect? && EdgeOps.EditedAll(EdgeOps.Graph(agents, []), [a, b]).edges == edges && WellKept(edges)
    ensures var s0 := After(Start(Unmetered(budget), agents), [EditEdges(a), EditEdges(b)]);
      Drawn(s0) && Idle(s0) && s0.db.edges == edges && s0.db.agents == agents && s0.db.config == Unmetered(budget)
  {
    DrawTwo(Unmetered(budget), agents, a, b);
    StartInv(Unmetered(budget), agents);
    ReachableInv(Start(Unmetered(budget), agents), [EditEdges(a), EditEdges(b)]);
  }

  ghost predicate PairAtRest(s: State, budget: int) {
    Drawn(s) && Idle(s) && s.db.edges == MIXED_CYCLE && s.db.agents == PAIR && s.db.config == Unmetered(budget)
  }

  lemma PairIsDrawn(budget: int)
    ensures PairAtRest(After(Start(Unmetered(budget), PAIR), DRAW_PAIR), budget)
  {
    MixedCycleIsAccepted(PAIR);
    MixedCycleIsEndless(0);
    TwoEdgesDrawn(budget, PAIR, EdgeOps.Connect(FORTH, 100), EdgeOps.Connect(BACK, 101), MIXED_CYCLE);
  }

  lemma PairSurvives(s0: State, budget: int, n: nat)
    requires PairAtRest(s0, budget)
    ensures Survives(s0.db.edges, 0, n) && 0 in s0.db.agents
  {
    MixedCycleIsEndless(n);
  }

  /** The accepted pair of edges keeps two agents busy as long as one likes: for every n one order leads to more than n descendants. */
  lemma MixedCycleRunsOn(n: nat) returns (steps: seq<Step>)
    ensures OneOrder(steps, None)
    ensures |Descendants(After(Start(Unmetered(0), PAIR), DRAW_PAIR + steps).db.tasks, 0)| > n
  {
    var s0 := After(Start(Unmetered(0), PAIR), DRAW_PAIR);
    PairIsDrawn(0);
    PairSurvives(s0, 0, n + 1);
    steps := SurvivingWalkIsRun(s0, 0, n + 1);
    AfterJoined(Start(Unmetered(0), PAIR), DRAW_PAIR, steps);
  }

  lemma ChainPrefix(edges: seq<Edge>, c: seq<Shape>, n: nat)
    requires IsChain(edges, c) && 1 <= n <= |c|
    ensures IsChain(edges, c[..n]) && c[..n][0] == c[0]
  {
  }

  lemma GoalFills(s0: State, a: AgentId, budget: nat, g: GoalId) returns (steps: seq<Step>)
    requires Drawn(s0) && Idle(s0) && a in s0.db.agents && s0.db.config.goalBudget == budget && Survives(s0.db.edges, a, budget)
    ensures OneOrder(steps, Some(g)) && |TasksOfGoal(After(s0, steps).db.tasks, g)| == budget + 1
  {
    var c := SurvivingWalkChain(s0.db.edges, a, budget);
    ChainPrefix(s0.db.edges, c, budget + 1);
    steps := OrderRunsChain(s0, Create(0, a, Some(g), "", None, None), c[..budget + 1]);
  }

  /**
   For every budget some run takes a goal past it by one task, with a single order from outside. So
   the documented limit of fewer tasks than the budget does not hold, and budget + 1 is exact.
   */
  lemma GoalOvershootsByOne(budget: nat, g: GoalId) returns (steps: seq<Step>)
    ensures OneOrder(steps, Some(g))
    ensures |TasksOfGoal(After(Start(Unmetered(budget), PAIR), DRAW_PAIR + steps).db.tasks, g)| == budget + 1
  {
    var s0 := After(Start(Unmetered(budget), PAIR), DRAW_PAIR);
    PairIsDrawn(budget);
    PairSurvives(s0, budget, budget);
    steps := GoalFills(s0, 0, budget, g);
    AfterJoined(Start(Unmetered(budget), PAIR), DRAW_PAIR, steps);
  }

  // --- a lost brief ---

  const TRIO: map<AgentId, Agent> := map[0 := Agent(7, Medium, Crew), 1 := Agent(7, Medium, Crew), 2 := Agent(7, Medium, Crew)]
  const TO_REVIEW := EdgeOps.EdgeRequest(0, 1, "review_loop", Some(3))
  const TO_NEXT := EdgeOps.EdgeRequest(1, 2, "handoff", None)
  const REVIEW_THEN_ON := [Edge(100, 7, 0, 1, ReviewLoop(3)), Edge(101, 7, 1, 2, Handoff)]
  const DRAW_TRIO := [EditEdges(EdgeOps.Connect(TO_REVIEW, 100)), EditEdges(EdgeOps.Connect(TO_NEXT, 101))]
  const TWO_ROUNDS := [Shape(0, Plain), Shape(1, Review(1, 100)), Shape(0, Revision(1, 100)), Shape(1, Review(2, 100)), Shape(2, Plain)]

  lemma TrioEdges()
    ensures EdgeOps.EditedAll(EdgeOps.Graph(TRIO, []), [EdgeOps.Connect(TO_REVIEW, 100), EdgeOps.Connect(TO_NEXT, 101)]).edges == REVIEW_THEN_ON
  {
    var ops := [EdgeOps.Connect(TO_REVIEW, 100), EdgeOps.Connect(TO_NEXT, 101)];
    var g0 := EdgeOps.Graph(TRIO, []);
    var g1 := EdgeOps.Edited(g0, ops[0]);
    assert g1 == EdgeOps.Graph(TRIO, [REVIEW_THEN_ON[0]]);
    NothingLeadsBack();
    var g2 := EdgeOps.Edited(g1, ops[1]);
    assert g2.edges == REVIEW_THEN_ON;
    assert ops[1..] == [ops[1]] && ops[1..][1..] == [];
    assert EdgeOps.EditedAll(g2, []) == g2;
    assert EdgeOps.EditedAll(g1, [ops[1]]) == g2;
  }

  lemma NothingLeadsBack()
    ensures !EdgeOps.Leads(EdgeOps.InProject([REVIEW_THEN_ON[0]], 7), 2, 1)
  {
    var edges := EdgeOps.InProject([REVIEW_THEN_ON[0]], 7);
    forall p | EdgeOps.IsHandoffPath(edges, p) && |p| >= 2
      ensures p[0] != 2
    {
      assert EdgeOps.HandoffStep(edges, p[0], p[1]);
    }
  }

  ghost predicate TrioAtRest(s: State) {
    Drawn(s) && Idle(s) && s.db.edges == REVIEW_THEN_ON && s.db.agents == TRIO
  }

  lemma TrioIsDrawn()
    ensures TrioAtRest(After(Start(Unmetered(0), TRIO), DRAW_TRIO))
  {
    TrioEdges();
    TwoEdgesDrawn(0, TRIO, EdgeOps.Connect(TO_REVIEW, 100), EdgeOps.Connect(TO_NEXT, 101), REVIEW_THEN_ON);
  }

  lemma TwoRoundsIsChain()
    ensures IsChain(REVIEW_THEN_ON, TWO_ROUNDS)
  {
    assert REVIEW_THEN_ON[1..] == [REVIEW_THEN_ON[1]];
    assert Outgoing(REVIEW_THEN_ON, 0) == Some(REVIEW_THEN_ON[0]) && Outgoing(REVIEW_THEN_ON, 1) == Some(REVIEW_THEN_ON[1]);
    assert FindEdge(REVIEW_THEN_ON, 100) == Some(REVIEW_THEN_ON[0]);
    assert Successor(REVIEW_THEN_ON, TWO_ROUNDS[0], true) == Some(TWO_ROUNDS[1]);
    assert Successor(REVIEW_THEN_ON, TWO_ROUNDS[1], false) == Some(TWO_ROUNDS[2]);
    assert Successor(REVIEW_THEN_ON, TWO_ROUNDS[2], true) == Some(TWO_ROUNDS[3]);
    assert Successor(REVIEW_THEN_ON, TWO_ROUNDS[3], true) == Some(TWO_ROUNDS[4]);
  }

  lemma OriginOfSecondReview(tasks: seq<Task>)
    requires Realises(tasks, 0, TWO_ROUNDS)
    ensures Origin(tasks, 3) == 0
  {
    assert ShapeOf(tasks[0]) == TWO_ROUNDS[0] && ShapeOf(tasks[1]) == TWO_ROUNDS[1];
    assert ShapeOf(tasks[2]) == TWO_ROUNDS[2] && ShapeOf(tasks[3]) == TWO_ROUNDS[3];
    assert Origin(tasks, 1) == 0 && Origin(tasks, 2) == 0;
  }

  ghost predicate LostBrief(tasks: seq<Task>, brief: string) {
    && |tasks| == 5 && tasks[4].parent == Some(3) && tasks[3].loop == Review(2, 100) && SaysApproved(ResultOf(tasks[3]))
    && Origin(tasks, 3) == 0 && tasks[0].instructions == brief && tasks[4].instructions != brief
  }

  lemma LosesBrief(s0: State, steps: seq<Step>, brief: string)
    requires brief != REVISE && Drawn(s0) && forall step :: step in steps ==> KeepsEdges(step)
    requires LineUp(After(s0, steps), TWO_ROUNDS, None, brief)
    ensures LostBrief(After(s0, steps).db.tasks, brief)
  {
    OriginOfSecondReview(After(s0, steps).db.tasks);
    ApprovedInRoundTwo(s0, steps);
    BriefSurvivesOnlyFirstRound(s0, steps, 3, 4);
  }

  lemma TrioLosesBrief(s0: State, brief: string) returns (steps: seq<Step>)
    requires TrioAtRest(s0) && brief != REVISE
    ensures OneOrder(steps, None) && steps[0].instructions == brief && LostBrief(After(s0, steps).db.tasks, brief)
  {
    TwoRoundsIsChain();
    steps := OrderRunsChain(s0, Create(7, 0, None, brief, None, None), TWO_ROUNDS);
    OrdersKeepEdges(steps, None);
    LosesBrief(s0, steps, brief);
  }

  /** Every brief but one gets lost in some run: the order is approved in round two, and the next agent is not told the brief. */
  lemma BriefIsLost(brief: string) returns (steps: seq<Step>)
    requires brief != REVISE
    ensures OneOrder(steps, None) && steps[0].instructions == brief
    ensures LostBrief(After(Start(Unmetered(0), TRIO), DRAW_TRIO + steps).db.tasks, brief)
  {
    TrioIsDrawn();
    steps := TrioLosesBrief(After(Start(Unmetered(0), TRIO), DRAW_TRIO), brief);
    AfterJoined(Start(Unmetered(0), TRIO), DRAW_TRIO, steps);
  }

  lemma ApprovedInRoundTwo(s0: State, steps: seq<Step>)
    requires Drawn(s0) && forall step :: step in steps ==> KeepsEdges(step)
    requires Realises(After(s0, steps).db.tasks, 0, TWO_ROUNDS)
    ensures var tasks := After(s0, steps).db.tasks;
      tasks[4].parent == Some(3) && tasks[3].loop == Review(2, 100) && SaysApproved(ResultOf(tasks[3]))
  {
    ReachableFollows(s0, steps);
    ReachableInv(s0, steps);
    var d := After(s0, steps).db;
    assert ShapeOf(d.tasks[3]) == TWO_ROUNDS[3] && ShapeOf(d.tasks[4]) == TWO_ROUNDS[4];
    assert d.tasks[3].parent == Some(2) && d.tasks[4].parent == Some(3);
    assert d.tasks[3].overrideTo.None?;
    assert FollowsTable(d.edges, d.tasks[3], d.tasks[4]);
  }
}
