/** What propagation builds below a task over whole runs: one line of descendants, with the right work in the right round. */
module KernelChains {
  import opened Common
  import opened Schema
  import opened GraphEngine
  import opened WorkerCore
  import opened Kernel
  import opened KernelSafety
  import opened KernelTheorems
  import opened Chains
  import opened Strings
  import EdgeOps

  // --- what is handed down ---

  /**
   What an approval hands down is what the approving reviewer was given, namely the finished result
   of the task under review; a task has one child at most, and only once it is done.
   */
  lemma ApprovedWorkIsDelivered(config: Config, agents: map<AgentId, Agent>, steps: seq<Step>, c: TaskId)
    requires c < |After(Start(config, agents), steps).db.tasks|
    requires After(Start(config, agents), steps).db.tasks[c].parent.Some?
    ensures var tasks := After(Start(config, agents), steps).db.tasks;
      var r := tasks[c].parent.value;
      && r < c && tasks[r].status.Done?
      && (forall b :: 0 <= b < |tasks| && tasks[b].parent == Some(r) ==> b == c)
      && (!tasks[r].loop.Review? ==> tasks[c].input == Some(ResultOf(tasks[r])))
      && (tasks[r].loop.Review? && SaysApproved(ResultOf(tasks[r])) ==>
            && tasks[r].parent.Some? && tasks[r].parent.value < r && tasks[tasks[r].parent.value].status.Done?
            && tasks[c].input == tasks[r].input == Some(ResultOf(tasks[tasks[r].parent.value])))
  {
    StartInv(config, agents);
    ReachableInv(Start(config, agents), steps);
    var s := After(Start(config, agents), steps);
    var r := s.db.tasks[c].parent.value;
    assert HandedRight(s.db.tasks, c);
    if s.db.tasks[r].loop.Review? {
      assert HandedRight(s.db.tasks, r);
    }
  }

  // Both texts stand in the whole, the second one behind the first.
  ghost predicate InTurn(whole: string, first: string, second: string) {
    exists i, j :: At(whole, first, i) && At(whole, second, j) && i + |first| <= j
  }

  lemma FeedbackIsInTurn(output: string, feedback: string)
    ensures InTurn(RevisionInput(output, feedback), output, feedback)
  {
    var head := "# Your previous output\n";
    var middle := "\n\n# Reviewer feedback\n";
    var whole := RevisionInput(output, feedback);
    assert whole == head + output + middle + feedback;
    var i, j := |head|, |head + output + middle|;
    assert whole[i..i + |output|] == output;
    assert whole[j..j + |feedback|] == feedback;
    assert At(whole, output, i) && At(whole, feedback, j);
  }

  /**
   What a refusal sends back has the finished work under review in it and, behind it, what the
   reviewer said, whole and word for word.
   */
  lemma RefusedWorkComesBackWithFeedback(config: Config, agents: map<AgentId, Agent>, steps: seq<Step>, c: TaskId)
    requires c < |After(Start(config, agents), steps).db.tasks|
    requires After(Start(config, agents), steps).db.tasks[c].parent.Some?
    ensures var tasks := After(Start(config, agents), steps).db.tasks;
      var r := tasks[c].parent.value;
      r < c && (tasks[r].loop.Review? && !SaysApproved(ResultOf(tasks[r])) ==>
        && tasks[r].parent.Some? && tasks[r].parent.value < r && tasks[tasks[r].parent.value].status.Done?
        && tasks[c].loop == Revision(tasks[r].loop.round, tasks[r].loop.edge)
        && tasks[c].input.Some? && InTurn(tasks[c].input.value, ResultOf(tasks[tasks[r].parent.value]), ResultOf(tasks[r])))
  {
    StartInv(config, agents);
    ReachableInv(Start(config, agents), steps);
    var s := After(Start(config, agents), steps);
    var r := s.db.tasks[c].parent.value;
    assert HandedRight(s.db.tasks, c);
    if s.db.tasks[r].loop.Review? && !SaysApproved(ResultOf(s.db.tasks[r])) {
      FeedbackIsInTurn(ResultOf(s.db.tasks[s.db.tasks[r].parent.value]), ResultOf(s.db.tasks[r]));
    }
  }

  // --- the shape of what is propagated, while the edge table stays as it is ---

  predicate KeepsEdges(step: Step) {
    step.EditEdges? ==> step.op.AddAgent?
  }

  ghost predicate FollowsTable(edges: seq<Edge>, p: Task, c: Task) {
    if p.overrideTo.Some? then c.agent == p.overrideTo.value && c.loop == Plain
    else Successor(edges, ShapeOf(p), SaysApproved(ResultOf(p))) == Some(ShapeOf(c))
  }

  ghost predicate FollowsOk(d: Db) {
    forall c :: 0 <= c < |d.tasks| && d.tasks[c].parent.Some? && d.tasks[c].parent.value < |d.tasks|
      ==> FollowsTable(d.edges, d.tasks[d.tasks[c].parent.value], d.tasks[c])
  }

  lemma FollowsKept(s: State, s': State)
    requires TreeOk(s) && FollowsOk(s.db) && s'.db.edges == s.db.edges && RowsEvolve(s.db, s'.db)
    requires forall c :: |s.db.tasks| <= c < |s'.db.tasks| && s'.db.tasks[c].parent.Some? && s'.db.tasks[c].parent.value < |s'.db.tasks|
               ==> FollowsTable(s'.db.edges, s'.db.tasks[s'.db.tasks[c].parent.value], s'.db.tasks[c])
    ensures FollowsOk(s'.db)
  {
    forall c | 0 <= c < |s.db.tasks| && s'.db.tasks[c].parent.Some? && s'.db.tasks[c].parent.value < |s'.db.tasks|
      ensures FollowsTable(s'.db.edges, s'.db.tasks[s'.db.tasks[c].parent.value], s'.db.tasks[c])
    {
      assert RowEvolves(s.db.tasks[c], s'.db.tasks[c]);
      var p := s.db.tasks[c].parent.value;
      assert RowEvolves(s.db.tasks[p], s'.db.tasks[p]);
      assert FollowsTable(s.db.edges, s.db.tasks[p], s.db.tasks[c]);
    }
  }

  lemma SpawnFollows(d: Db, t: TaskId)
    requires t < |d.tasks| && Propagated(d, t).1.Some? && (d.tasks[t].overrideTo.Some? ==> !d.tasks[t].loop.Review?)
    ensures FollowsTable(d.edges, d.tasks[t], Propagated(d, t).0.tasks[|d.tasks|])
  {
    if d.tasks[t].overrideTo.None? {
      PropagationFollowsEdges(d, t);
    }
  }

  lemma FinalizeFollows(s: State, r: RunId)
    requires RunsOk(s) && TreeOk(s) && FollowsOk(s.db)
    ensures FollowsOk(FinalizedRun(s, r).db) && FinalizedRun(s, r).db.edges == s.db.edges
  {
    FinalizeEffect(s, r);
    if RunAt(s, r, Finalizing) {
      var t := s.runs[r].task;
      if Propagated(s.db, t).1.Some? {
        SpawnedRow(s.db, t);
        SpawnFollows(s.db, t);
      }
    }
    FollowsKept(s, FinalizedRun(s, r));
  }

  lemma RecordFollows(s: State, r: RunId, o: Outcome)
    requires RunsOk(s) && TreeOk(s) && FollowsOk(s.db)
    ensures FollowsOk(RecordedRun(s, r, o).db) && RecordedRun(s, r, o).db.edges == s.db.edges
  {
    RecordEffect(s, r, o);
    RecordAddsNoRow(s, r, o);
    EffectEvolves(s, RecordedRun(s, r, o), false);
    FollowsKept(s, RecordedRun(s, r, o));
  }

  lemma FinishFollows(s: State, r: RunId, o: Outcome)
    requires Inv(s) && FollowsOk(s.db)
    ensures FollowsOk(FinishedRun(s, r, o).db) && FinishedRun(s, r, o).db.edges == s.db.edges
  {
    RecordFollows(s, r, o);
    RecordInv(s, r, o);
    FinalizeFollows(RecordedRun(s, r, o), r);
  }

  lemma EffectEvolves(s: State, s': State, continues: bool)
    requires Effect(s, s', continues)
    ensures RowsEvolve(s.db, s'.db)
  {
    forall t | 0 <= t < |s.db.tasks|
      ensures RowEvolves(s.db.tasks[t], s'.db.tasks[t])
    {
      assert RowEffect(s, s', t, continues);
    }
  }

  lemma StepFollows(s: State, step: Step)
    requires Inv(s) && FollowsOk(s.db) && KeepsEdges(step)
    ensures FollowsOk(Next(s, step).db) && Next(s, step).db.edges == s.db.edges
  {
    if step.Finalize? {
      FinalizeFollows(s, step.run);
    } else if step.Finish? {
      FinishFollows(s, step.run, step.outcome);
    } else {
      StepEffect(s, step);
      EffectEvolves(s, Next(s, step), step.ContinueTask?);
      QuietStepEdges(s, step);
      FollowsKept(s, Next(s, step));
    }
  }

  lemma QuietStepEdges(s: State, step: Step)
    requires RunsOk(s) && KeepsEdges(step) && !step.Finalize? && !step.Finish?
    ensures Next(s, step).db.edges == s.db.edges
    ensures forall c :: |s.db.tasks| <= c < |Next(s, step).db.tasks| ==> Next(s, step).db.tasks[c].parent.None?
  {
    if step.Reap? {
      ReapedRows(s.db, step.stale);
    } else if step.Meter? {
      if RunAt(s, step.run, Starting) {
        MeteredRow(s.db, s.runs[step.run].task);
      }
    } else if step.EditEdges? {
      AddingAgentKeepsEdges(s.db, step.op);
    }
  }

  lemma AddingAgentKeepsEdges(d: Db, op: EdgeOps.EdgeOp)
    requires op.AddAgent?
    ensures EditedGraph(d, op).edges == d.edges && EditedGraph(d, op).tasks == d.tasks
  {
  }

  lemma {:induction false} ReachableFollows(s: State, steps: seq<Step>)
    requires Inv(s) && FollowsOk(s.db) && forall step :: step in steps ==> KeepsEdges(step)
    ensures FollowsOk(After(s, steps).db) && After(s, steps).db.edges == s.db.edges
    decreases |steps|
  {
    if steps != [] {
      var front := steps[..|steps| - 1];
      assert steps == front + [steps[|steps| - 1]];
      ReachableFollows(s, front);
      ReachableInv(s, front);
      StepFollows(After(s, front), steps[|steps| - 1]);
    }
  }

  // A kernel at rest with its edges drawn and no task yet.
  ghost predicate Drawn(s: State) {
    Inv(s) && s.db.tasks == [] && WellKept(s.db.edges)
  }

  // --- rounds ---

  // The reviews on edge `id` from task c upwards to the last plain task.
  function RoundsSoFar(tasks: seq<Task>, c: TaskId, id: EdgeId): nat
    requires c < |tasks|
    decreases c
  {
    var row := tasks[c];
    if row.loop.Plain? then 0
    else (if row.loop.Review? && row.loop.edge == id then 1 else 0)
         + (if row.parent.Some? && row.parent.value < c then RoundsSoFar(tasks, row.parent.value, id) else 0)
  }

  // The plain task whose work is being reviewed and revised.
  function Origin(tasks: seq<Task>, c: TaskId): (o: TaskId)
    requires c < |tasks|
    ensures o <= c
    decreases c
  {
    if !tasks[c].loop.Plain? && tasks[c].parent.Some? && tasks[c].parent.value < c then Origin(tasks, tasks[c].parent.value) else c
  }

  ghost predicate RoundRight(d: Db, c: TaskId)
    requires c < |d.tasks|
  {
    match d.tasks[c].loop
    case Plain => true
    case Review(round, id) =>
      && FindEdge(d.edges, id).Some?
      && (var e := FindEdge(d.edges, id).value;
          e in d.edges && e.kind.ReviewLoop? && d.tasks[c].agent == e.dst && 1 <= round <= e.kind.maxIterations)
      && round == RoundsSoFar(d.tasks, c, id)
    case Revision(round, id) =>
      && FindEdge(d.edges, id).Some?
      && (var e := FindEdge(d.edges, id).value;
          e in d.edges && e.kind.ReviewLoop? && d.tasks[c].agent == e.src && 1 <= round < e.kind.maxIterations)
      && round == RoundsSoFar(d.tasks, c, id)
  }

  lemma {:induction false} RoundsFollow(s: State, c: TaskId)
    requires TreeOk(s) && FollowsOk(s.db) && WellKept(s.db.edges) && c < |s.db.tasks|
    ensures RoundRight(s.db, c)
    decreases c
  {
    var row := s.db.tasks[c];
    if row.parent.Some? {
      var p := row.parent.value;
      RoundsFollow(s, p);
      assert FollowsTable(s.db.edges, s.db.tasks[p], row);
      if s.db.tasks[p].loop.Revision? {
        RowIsFound(s.db.edges, FindEdge(s.db.edges, s.db.tasks[p].loop.edge).value);
      } else if row.loop.Review? {
        RowIsFound(s.db.edges, Outgoing(s.db.edges, s.db.tasks[p].agent).value);
      }
    }
  }

  /**
   With the edges left alone, a review or revision of a loop with N rounds is done by the right
   agent, reviews are numbered 1..N and revisions 1..N-1 by how many reviews of that loop came
   since the last plain task, and a review that refuses in round N has no child.
   */
  lemma ReviewRounds(s0: State, steps: seq<Step>, c: TaskId)
    requires Drawn(s0) && forall step :: step in steps ==> KeepsEdges(step)
    requires c < |After(s0, steps).db.tasks|
    ensures var d := After(s0, steps).db;
      && d.edges == s0.db.edges
      && RoundRight(d, c)
      && (d.tasks[c].loop.Review? && !SaysApproved(ResultOf(d.tasks[c]))
            && d.tasks[c].loop.round == FindEdge(d.edges, d.tasks[c].loop.edge).value.kind.maxIterations ==>
            forall b :: 0 <= b < |d.tasks| ==> d.tasks[b].parent != Some(c))
  {
    ReachableFollows(s0, steps);
    ReachableInv(s0, steps);
    var s := After(s0, steps);
    RoundsFollow(s, c);
    LastRoundEnds(s, c);
  }

  lemma LastRoundEnds(s: State, c: TaskId)
    requires FollowsOk(s.db) && TreeOk(s) && c < |s.db.tasks| && RoundRight(s.db, c)
    ensures s.db.tasks[c].loop.Review? && !SaysApproved(ResultOf(s.db.tasks[c]))
            && s.db.tasks[c].loop.round == FindEdge(s.db.edges, s.db.tasks[c].loop.edge).value.kind.maxIterations ==>
            forall b :: 0 <= b < |s.db.tasks| ==> s.db.tasks[b].parent != Some(c)
  {
    forall b | 0 <= b < |s.db.tasks| && s.db.tasks[b].parent == Some(c)
      ensures FollowsTable(s.db.edges, s.db.tasks[c], s.db.tasks[b])
    {
    }
  }

  // Below a refusal the brief is the fixed request to revise.
  lemma {:induction false} BriefInLoop(s: State, r: TaskId)
    requires TreeOk(s) && FollowsOk(s.db) && DeliveryOk(s) && WellKept(s.db.edges)
    requires r < |s.db.tasks| && s.db.tasks[r].loop.Review?
    ensures s.db.tasks[r].parent.Some? && s.db.tasks[r].parent.value < r
    ensures var p := s.db.tasks[r].parent.value;
      if s.db.tasks[r].loop.round == 1 then Origin(s.db.tasks, r) == p else s.db.tasks[p].instructions == REVISE
  {
    var p := s.db.tasks[r].parent.value;
    RoundsFollow(s, p);
    RoundsFollow(s, r);
    assert FollowsTable(s.db.edges, s.db.tasks[p], s.db.tasks[r]);
    assert HandedRight(s.db.tasks, r);
    if s.db.tasks[p].loop.Revision? {
      assert HandedRight(s.db.tasks, p);
      var q := s.db.tasks[p].parent.value;
      assert FollowsTable(s.db.edges, s.db.tasks[q], s.db.tasks[p]);
    }
  }

  /**
   The original brief travels on with approved work only if the first review approves it: after a
   revision, the next agent in line is told to revise.
   */
  lemma BriefSurvivesOnlyFirstRound(s0: State, steps: seq<Step>, r: TaskId, c: TaskId)
    requires Drawn(s0) && forall step :: step in steps ==> KeepsEdges(step)
    requires r < |After(s0, steps).db.tasks| && c < |After(s0, steps).db.tasks|
    requires After(s0, steps).db.tasks[r].loop.Review? && SaysApproved(ResultOf(After(s0, steps).db.tasks[r]))
    requires After(s0, steps).db.tasks[c].parent == Some(r)
    ensures var tasks := After(s0, steps).db.tasks;
      var origin := tasks[Origin(tasks, r)];
      tasks[c].instructions == origin.instructions <==> tasks[r].loop.round == 1 || origin.instructions == REVISE
  {
    ReachableFollows(s0, steps);
    ReachableInv(s0, steps);
    var s := After(s0, steps);
    BriefInLoop(s, r);
    assert HandedRight(s.db.tasks, c);
  }

  /** With the edges left alone, a revision goes back to the agent whose work was refused, with the same loop and round. */
  lemma RevisionsReturnToTheirProducer(s0: State, steps: seq<Step>, c: TaskId)
    requires Drawn(s0) && forall step :: step in steps ==> KeepsEdges(step)
    requires c < |After(s0, steps).db.tasks| && After(s0, steps).db.tasks[c].loop.Revision?
    ensures var tasks := After(s0, steps).db.tasks;
      && tasks[c].parent.Some? && tasks[c].parent.value < c
      && var r := tasks[c].parent.value;
         && tasks[r].loop.Review? && tasks[r].parent.Some? && tasks[r].parent.value < r
         && tasks[c].agent == tasks[tasks[r].parent.value].agent
  {
    ReachableFollows(s0, steps);
    ReachableInv(s0, steps);
    var s := After(s0, steps);
    var r := s.db.tasks[c].parent.value;
    RoundsFollow(s, c);
    assert FollowsTable(s.db.edges, s.db.tasks[r], s.db.tasks[c]);
    var p := s.db.tasks[r].parent.value;
    assert FollowsTable(s.db.edges, s.db.tasks[p], s.db.tasks[r]);
    RowIsFound(s.db.edges, Outgoing(s.db.edges, s.db.tasks[p].agent).value);
  }

  // --- descendants ---

  predicate IsBelow(tasks: seq<Task>, x: TaskId, t: TaskId)
    decreases x
  {
    x < |tasks| && tasks[x].parent.Some? && tasks[x].parent.value < x
    && (tasks[x].parent.value == t || IsBelow(tasks, tasks[x].parent.value, t))
  }

  function Descendants(tasks: seq<Task>, t: TaskId): set<TaskId> {
    set x: TaskId | 0 <= x < |tasks| && IsBelow(tasks, x, t)
  }

  predicate HasChild(tasks: seq<Task>, t: TaskId, c: TaskId) {
    t < c < |tasks| && tasks[c].parent == Some(t)
  }

  // Task t and, one below the other, its descendants.
  ghost function Line(tasks: seq<Task>, t: TaskId): seq<TaskId>
    decreases |tasks| - t
  {
    if exists c: TaskId :: HasChild(tasks, t, c) then
      var c: TaskId :| HasChild(tasks, t, c);
      [t] + Line(tasks, c)
    else [t]
  }

  lemma {:induction false} LineIsClosed(s: State, t: TaskId, x: TaskId)
    requires TreeOk(s) && x < |s.db.tasks| && s.db.tasks[x].parent.Some?
    requires s.db.tasks[x].parent.value in Line(s.db.tasks, t)
    ensures x in Line(s.db.tasks, t)
    decreases |s.db.tasks| - t
  {
    var tasks := s.db.tasks;
    if tasks[x].parent == Some(t) {
      assert HasChild(tasks, t, x);
      var c: TaskId :| HasChild(tasks, t, c) && Line(tasks, t) == [t] + Line(tasks, c);
      assert c == x;
      assert Line(tasks, x)[0] == x;
    } else {
      assert exists c: TaskId :: HasChild(tasks, t, c);
      var c: TaskId :| HasChild(tasks, t, c) && Line(tasks, t) == [t] + Line(tasks, c);
      LineIsClosed(s, c, x);
    }
  }

  lemma {:induction false} BelowIsOnLine(s: State, t: TaskId, x: TaskId)
    requires TreeOk(s) && IsBelow(s.db.tasks, x, t)
    ensures x in Line(s.db.tasks, t) && x != t
    decreases x
  {
    assert Line(s.db.tasks, t)[0] == t;
    if s.db.tasks[x].parent.value != t {
      BelowIsOnLine(s, t, s.db.tasks[x].parent.value);
    }
    LineIsClosed(s, t, x);
    BelowIsLater(s.db.tasks, x, t);
  }

  lemma {:induction false} BelowIsLater(tasks: seq<Task>, x: TaskId, t: TaskId)
    requires IsBelow(tasks, x, t)
    ensures x > t
    decreases x
  {
    if tasks[x].parent.value != t {
      BelowIsLater(tasks, tasks[x].parent.value, t);
    }
  }

  // The shapes along the line below a task without override are a chain of the edge table.
  lemma {:induction false} LineIsChain(s: State, t: TaskId) returns (shapes: seq<Shape>)
    requires TreeOk(s) && FollowsOk(s.db) && t < |s.db.tasks| && s.db.tasks[t].overrideTo.None?
    ensures |shapes| == |Line(s.db.tasks, t)| && IsChain(s.db.edges, shapes) && shapes[0] == ShapeOf(s.db.tasks[t])
    decreases |s.db.tasks| - t
  {
    var tasks := s.db.tasks;
    if exists c: TaskId :: HasChild(tasks, t, c) {
      var c: TaskId :| HasChild(tasks, t, c) && Line(tasks, t) == [t] + Line(tasks, c);
      var rest := LineIsChain(s, c);
      assert FollowsTable(s.db.edges, tasks[t], tasks[c]);
      shapes := [ShapeOf(tasks[t])] + rest;
    } else {
      shapes := [ShapeOf(tasks[t])];
    }
  }

  lemma {:induction false} FewerThanListed(xs: set<TaskId>, line: seq<TaskId>)
    requires forall x :: x in xs ==> x in line
    ensures |xs| <= |line|
    decreases |line|
  {
    if line == [] {
      assert xs == {};
    } else {
      FewerThanListed(xs - {line[0]}, line[1..]);
    }
  }

  lemma DescendantsOnLine(s: State, t: TaskId)
    requires TreeOk(s)
    ensures |Descendants(s.db.tasks, t)| <= |Line(s.db.tasks, t)| - 1
  {
    var line := Line(s.db.tasks, t);
    assert line[0] == t;
    forall x | x in Descendants(s.db.tasks, t)
      ensures x in line[1..]
    {
      BelowIsOnLine(s, t, x);
    }
    FewerThanListed(Descendants(s.db.tasks, t), line[1..]);
  }

  /**
   Everything that propagation ever creates below a fresh task: no more than one task per handoff
   and 2N-1 per review loop on the way, plus one for a one-off override, whenever the producer walk
   over the edges comes to an end.
   */
  lemma DescendantsBounded(s0: State, steps: seq<Step>, t: TaskId, fuel: nat)
    requires Drawn(s0) && forall step :: step in steps ==> KeepsEdges(step)
    requires t < |After(s0, steps).db.tasks| && After(s0, steps).db.tasks[t].loop == Plain
    ensures var tasks := After(s0, steps).db.tasks;
      && (tasks[t].overrideTo.None? && !Survives(s0.db.edges, tasks[t].agent, fuel) ==>
            |Descendants(tasks, t)| <= Longest(s0.db.edges, tasks[t].agent, fuel))
      && (tasks[t].overrideTo.Some? && !Survives(s0.db.edges, tasks[t].overrideTo.value, fuel) ==>
            |Descendants(tasks, t)| <= 1 + Longest(s0.db.edges, tasks[t].overrideTo.value, fuel))
  {
    ReachableFollows(s0, steps);
    ReachableInv(s0, steps);
    var s := After(s0, steps);
    DescendantsOnLine(s, t);
    var tasks := s.db.tasks;
    if tasks[t].overrideTo.None? {
      var shapes := LineIsChain(s, t);
      if !Survives(s.db.edges, tasks[t].agent, fuel) {
        ChainBounded(s.db.edges, shapes, fuel);
      }
    } else if exists c: TaskId :: HasChild(tasks, t, c) {
      var c: TaskId :| HasChild(tasks, t, c) && Line(tasks, t) == [t] + Line(tasks, c);
      assert FollowsTable(s.db.edges, tasks[t], tasks[c]);
      var shapes := LineIsChain(s, c);
      if !Survives(s.db.edges, tasks[t].overrideTo.value, fuel) {
        ChainBounded(s.db.edges, shapes, fuel);
      }
    } else {
      LongestNonNegative(s.db.edges, tasks[t].overrideTo.value, fuel);
    }
  }
}
