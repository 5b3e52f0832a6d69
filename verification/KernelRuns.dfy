/**
 Runs that exist: every chain the edge table allows is propagated by some run of the kernel. So the
 bounds on chains and on the tasks of a goal are met, and chains without a bound do not end.
 */
module KernelRuns {
  import opened Common
  import opened Schema
  import opened TaskService
  import opened GraphEngine
  import opened WorkerCore
  import opened Kernel
  import opened KernelSafety
  import opened Chains
  import EdgeOps

  // --- an allowed successor is spawned ---

  lemma SuccessorIsKnown(agents: map<AgentId, Agent>, edges: seq<Edge>, s: Shape, approved: bool)
    requires EdgeOps.ValidEdges(agents, edges) && Successor(edges, s, approved).Some?
    ensures Successor(edges, s, approved).value.agent in agents
  {
    if s.loop.Review? && !approved {
      assert EdgeOps.EdgeRowOk(agents, FindEdge(edges, s.loop.edge).value);
    } else {
      assert EdgeOps.EdgeRowOk(agents, Outgoing(edges, s.agent).value);
    }
  }

  /**
   Unless the task was stopped, its project is paused, its goal is over budget or it has a child
   already, propagation does create the task that the edge table and the verdict ask for.
   */
  lemma SuccessorIsSpawned(d: Db, t: TaskId)
    requires t < |d.tasks| && d.tasks[t].overrideTo.None? && EdgeOps.ValidEdges(d.agents, d.edges)
    requires !d.tasks[t].stopped && d.tasks[t].project !in d.paused && !OverBudget(d, d.tasks[t].goal)
    requires forall i :: 0 <= i < |d.tasks| ==> d.tasks[i].parent != Some(t)
    requires Successor(d.edges, ShapeOf(d.tasks[t]), SaysApproved(ResultOf(d.tasks[t]))).Some?
    ensures var (after, child) := Propagated(d, t);
      && child == Some(|d.tasks|) && after == d.(tasks := after.tasks)
      && |after.tasks| == |d.tasks| + 1 && after.tasks[..|d.tasks|] == d.tasks
      && var row := after.tasks[|d.tasks|];
         && Some(ShapeOf(row)) == Successor(d.edges, ShapeOf(d.tasks[t]), SaysApproved(ResultOf(d.tasks[t])))
         && row.parent == Some(t) && row.goal == d.tasks[t].goal && row.overrideTo.None?
         && row.status.Queued? && !row.stopped
  {
    SuccessorIsKnown(d.agents, d.edges, ShapeOf(d.tasks[t]), SaysApproved(ResultOf(d.tasks[t])));
    assert Decide(d, t).Send?;
    assert Deliverable(d, t, Decide(d, t).order);
  }

  // --- one task worked through ---

  // No work under way, nothing paused, metering off and room for one task.
  ghost predicate Idle(s: State) {
    && s.runs == map[] && s.db.paused == {} && !s.db.config.billing && s.db.config.concurrencyCap >= 1
    && forall i :: 0 <= i < |s.db.tasks| ==> !s.db.tasks[i].status.Working?
  }

  // The last task waits, with its message.
  ghost predicate Ready(s: State, t: TaskId) {
    && Inv(s) && Idle(s)
    && |s.db.tasks| == t + 1 && t in s.queue
    && s.db.tasks[t].status.Queued? && !s.db.tasks[t].stopped && s.db.tasks[t].overrideTo.None?
  }

  lemma IdleDispatches(d: Db, t: TaskId)
    requires t < |d.tasks| && d.tasks[t].status.Queued? && d.paused == {} && d.config.concurrencyCap >= 1
    requires forall i :: 0 <= i < |d.tasks| ==> !d.tasks[i].status.Working?
    requires !OverBudget(d, d.tasks[t].goal)
    ensures Dispatchable(d, t, false)
  {
    assert WorkingOfAgent(d.tasks, d.tasks[t].agent) == {};
    assert WorkingOfUser(d.tasks, d.tasks[t].user) == {};
  }

  function DoneRow(t: Task, output: string): Task {
    t.(status := Done, result := Some(output))
  }

  // The state after task t was delivered, ran to the end with this output and was propagated.
  function Worked(s: State, t: TaskId, output: string): State
    requires t < |s.db.tasks| && |s.entries| == |s.db.tasks|
  {
    var done := WithTask(s.db, t, DoneRow(s.db.tasks[t], output));
    var (db, child) := Propagated(done, t);
    var entered := s.entries[t := s.entries[t] + 1];
    State(db, s.queue - multiset{t} + (if child.Some? then multiset{child.value} else multiset{}), s.runs,
          if child.Some? then entered + [0] else entered)
  }

  function WorkSteps(t: TaskId, output: string): seq<Step> {
    [Deliver(0, t), Begin(0, false), Meter(0), Finish(0, Finished(output)), Finalize(0)]
  }

  lemma UpToRecord(s: State, t: TaskId, output: string)
    requires RunsOk(s) && AgentsOk(s) && s.runs == map[] && t in s.queue && t < |s.db.tasks|
    requires !s.db.config.billing && Dispatchable(s.db, t, false)
    ensures var started := Begun(Next(s, Deliver(0, t)), 0, false);
      && RunAt(started, 0, Starting)
      && MeteredRun(started, 0) == State(Dispatched(s.db, t, false), s.queue - multiset{t}, map[0 := Run(t, Executing)], s.entries[t := s.entries[t] + 1])
  {
    var taken := Next(s, Deliver(0, t));
    assert taken == s.(queue := s.queue - multiset{t}, runs := map[0 := Run(t, Waiting)]);
    var started := Begun(taken, 0, false);
    assert started.runs == map[0 := Run(t, Starting)];
  }

  lemma RecordedDone(s: State, t: TaskId, output: string)
    requires RunAt(s, 0, Executing) && s.runs == map[0 := Run(t, Executing)] && s.db.tasks[t].status.Working?
    ensures RecordedRun(s, 0, Finished(output))
         == s.(db := WithTask(s.db, t, DoneRow(s.db.tasks[t], output)), runs := map[0 := Run(t, Finalizing)])
  {
  }

  lemma FinalizedWorked(s: State, t: TaskId)
    requires RunAt(s, 0, Finalizing) && s.runs == map[0 := Run(t, Finalizing)]
    ensures var (db, child) := Propagated(s.db, t);
      FinalizedRun(s, 0) == State(db, s.queue + (if child.Some? then multiset{child.value} else multiset{}), map[],
                                  if child.Some? then s.entries + [0] else s.entries)
    ensures FinalizedRun(FinalizedRun(s, 0), 0) == FinalizedRun(s, 0)
  {
    assert s.runs - {0} == map[];
  }

  lemma MeteredToWorked(s: State, t: TaskId, output: string, metered: State)
    requires RunsOk(s) && s.runs == map[] && t < |s.db.tasks| && Dispatchable(s.db, t, false)
    requires metered == State(Dispatched(s.db, t, false), s.queue - multiset{t}, map[0 := Run(t, Executing)], s.entries[t := s.entries[t] + 1])
    requires RunAt(metered, 0, Executing)
    ensures FinalizedRun(FinishedRun(metered, 0, Finished(output)), 0) == Worked(s, t, output)
  {
    RecordedDone(metered, t, output);
    var recorded := RecordedRun(metered, 0, Finished(output));
    assert recorded.db == WithTask(s.db, t, DoneRow(s.db.tasks[t], output));
    FinalizedWorked(recorded, t);
    FinishedEitherWay(metered, recorded, output);
  }

  lemma WorkedThrough(s: State, t: TaskId, output: string)
    requires RunsOk(s) && AgentsOk(s) && s.runs == map[] && t in s.queue && t < |s.db.tasks|
    requires !s.db.config.billing && Dispatchable(s.db, t, false)
    ensures After(s, WorkSteps(t, output)) == Worked(s, t, output)
  {
    WorkStepsInTurn(s, t, output);
    UpToRecord(s, t, output);
    MeteredToWorked(s, t, output, MeteredRun(Begun(Next(s, Deliver(0, t)), 0, false), 0));
  }

  lemma WorkStepsInTurn(s: State, t: TaskId, output: string)
    ensures After(s, WorkSteps(t, output))
         == FinalizedRun(FinishedRun(MeteredRun(Begun(Next(s, Deliver(0, t)), 0, false), 0), 0, Finished(output)), 0)
  {
    var metered := [Deliver(0, t), Begin(0, false), Meter(0)];
    ThreeSteps(s, metered[0], metered[1], metered[2]);
    AfterJoined(s, metered, [Finish(0, Finished(output)), Finalize(0)]);
    TwoSteps(After(s, metered), Finish(0, Finished(output)), Finalize(0));
    assert WorkSteps(t, output) == metered + [Finish(0, Finished(output)), Finalize(0)];
  }

  // Coding tasks propagate in a step of their own, text tasks within the finish.
  lemma FinishedEitherWay(metered: State, recorded: State, output: string)
    requires RunAt(metered, 0, Executing) && recorded == RecordedRun(metered, 0, Finished(output))
    requires FinalizedRun(FinalizedRun(recorded, 0), 0) == FinalizedRun(recorded, 0)
    ensures FinalizedRun(FinishedRun(metered, 0, Finished(output)), 0) == FinalizedRun(recorded, 0)
  {
  }

  // --- one link of a chain ---

  ghost predicate Grown(s: State, s': State, t: TaskId, sh: Shape) {
    && s'.db.edges == s.db.edges && s'.db.config == s.db.config && |s'.db.tasks| == t + 2 == |s.db.tasks| + 1
    && (forall i :: 0 <= i <= t ==> RowEvolves(s.db.tasks[i], s'.db.tasks[i]))
    && ShapeOf(s'.db.tasks[t + 1]) == sh && s'.db.tasks[t + 1].parent == Some(t) && s'.db.tasks[t + 1].goal == s.db.tasks[t].goal
  }

  lemma DoneRowChanges(d: Db, t: TaskId, output: string)
    requires t < |d.tasks|
    ensures var done := WithTask(d, t, DoneRow(d.tasks[t], output));
      && (forall g: GoalId :: TasksOfGoal(done.tasks, g) == TasksOfGoal(d.tasks, g))
      && (OverBudget(done, d.tasks[t].goal) <==> OverBudget(d, d.tasks[t].goal))
  {
    var done := WithTask(d, t, DoneRow(d.tasks[t], output));
    forall g: GoalId
      ensures TasksOfGoal(done.tasks, g) == TasksOfGoal(d.tasks, g)
    {
    }
  }

  lemma WorkedSpawns(s: State, t: TaskId, output: string, sh: Shape)
    requires RunsOk(s) && AgentsOk(s) && TreeOk(s) && Idle(s)
    requires |s.db.tasks| == t + 1 && s.db.tasks[t].status.Queued? && !s.db.tasks[t].stopped && s.db.tasks[t].overrideTo.None?
    requires !OverBudget(s.db, s.db.tasks[t].goal)
    requires Successor(s.db.edges, ShapeOf(s.db.tasks[t]), SaysApproved(output)) == Some(sh)
    ensures var s' := Worked(s, t, output);
      && Idle(s') && Grown(s, s', t, sh) && t + 1 in s'.queue
      && s'.db.tasks[t + 1].status.Queued? && !s'.db.tasks[t + 1].stopped && s'.db.tasks[t + 1].overrideTo.None?
  {
    var done := WithTask(s.db, t, DoneRow(s.db.tasks[t], output));
    DoneRowChanges(s.db, t, output);
    forall i | 0 <= i < |done.tasks|
      ensures done.tasks[i].parent != Some(t)
    {
      assert done.tasks[i].parent == s.db.tasks[i].parent;
    }
    SuccessorIsSpawned(done, t);
    var after := Propagated(done, t).0;
    forall i | 0 <= i <= t
      ensures after.tasks[i] == done.tasks[i]
    {
      assert after.tasks[..|done.tasks|][i] == done.tasks[i];
    }
  }

  lemma OneLink(s: State, t: TaskId, output: string, sh: Shape)
    requires Ready(s, t) && !OverBudget(s.db, s.db.tasks[t].goal)
    requires Successor(s.db.edges, ShapeOf(s.db.tasks[t]), SaysApproved(output)) == Some(sh)
    ensures var s' := After(s, WorkSteps(t, output)); Ready(s', t + 1) && Grown(s, s', t, sh)
  {
    IdleDispatches(s.db, t);
    WorkedThrough(s, t, output);
    WorkedSpawns(s, t, output, sh);
    ReachableInv(s, WorkSteps(t, output));
  }

  // --- whole chains ---

  // Only deliveries and the steps of workers.
  predicate WorkersOnly(steps: seq<Step>) {
    forall step :: step in steps ==> step.Deliver? || step.Begin? || step.Meter? || step.Finish? || step.Finalize?
  }

  // From row t on, the tasks have the shapes of the chain, each the child of the one before.
  ghost predicate Realises(tasks: seq<Task>, t: TaskId, c: seq<Shape>) {
    && |tasks| == t + |c|
    && (forall k :: t <= k < |tasks| ==> ShapeOf(tasks[k]) == c[k - t])
    && (forall k :: t < k < |tasks| ==> tasks[k].parent == Some(k - 1))
  }

  // The goal stays within its budget until the last task but one is propagated.
  ghost predicate HasRoom(d: Db, goal: Option<GoalId>, n: nat) {
    goal.Some? && n >= 2 ==> |TasksOfGoal(d.tasks, goal.value)| + n - 2 <= d.config.goalBudget
  }

  lemma GrownGoal(s: State, s': State, t: TaskId, sh: Shape, g: GoalId)
    requires Grown(s, s', t, sh) && s.db.tasks[t].goal == Some(g)
    ensures |TasksOfGoal(s'.db.tasks, g)| == |TasksOfGoal(s.db.tasks, g)| + 1
  {
    assert TasksOfGoal(s'.db.tasks, g) == TasksOfGoal(s.db.tasks, g) + {t + 1} by {
      forall i: TaskId | i <= t
        ensures s'.db.tasks[i].goal == s.db.tasks[i].goal
      {
        assert RowEvolves(s.db.tasks[i], s'.db.tasks[i]);
      }
    }
  }

  lemma ApprovedOrNot()
    ensures SaysApproved("APPROVED") && !SaysApproved("no")
  {
    assert ApprovedAt("APPROVED", 0);
  }

  // What a run along a chain leaves behind: the chain, the old rows and the count of the goal.
  ghost predicate RanAlong(s: State, s': State, t: TaskId, c: seq<Shape>)
    requires t < |s.db.tasks|
  {
    && Realises(s'.db.tasks, t, c) && |s'.db.tasks| > t
    && (forall i :: 0 <= i <= t ==> RowEvolves(s.db.tasks[i], s'.db.tasks[i]))
    && (forall g :: s.db.tasks[t].goal == Some(g) ==> |TasksOfGoal(s'.db.tasks, g)| == |TasksOfGoal(s.db.tasks, g)| + |c| - 1)
  }

  lemma NoLink(s: State, t: TaskId, c: seq<Shape>)
    requires |s.db.tasks| == t + 1 && |c| == 1 && c[0] == ShapeOf(s.db.tasks[t])
    ensures RanAlong(s, s, t, c)
  {
  }

  lemma FirstLink(s: State, t: TaskId, c: seq<Shape>) returns (first: seq<Step>)
    requires Ready(s, t) && IsChain(s.db.edges, c) && c[0] == ShapeOf(s.db.tasks[t]) && |c| >= 2
    requires HasRoom(s.db, s.db.tasks[t].goal, |c|)
    ensures WorkersOnly(first)
    ensures Ready(After(s, first), t + 1) && Grown(s, After(s, first), t, c[1])
  {
    ApprovedOrNot();
    var output := if Successor(s.db.edges, c[0], true) == Some(c[1]) then "APPROVED" else "no";
    first := WorkSteps(t, output);
    OneLink(s, t, output, c[1]);
  }

  /** Every chain the edge table allows below a waiting task is propagated, task by task, by a run of the workers. */
  lemma {:induction false} ChainIsRun(s: State, t: TaskId, c: seq<Shape>) returns (steps: seq<Step>)
    requires Ready(s, t) && IsChain(s.db.edges, c) && c[0] == ShapeOf(s.db.tasks[t])
    requires HasRoom(s.db, s.db.tasks[t].goal, |c|)
    ensures WorkersOnly(steps)
    ensures RanAlong(s, After(s, steps), t, c)
    decreases |c|
  {
    if |c| == 1 {
      steps := [];
      NoLink(s, t, c);
    } else {
      var first := FirstLink(s, t, c);
      var s1 := After(s, first);
      LinkRoom(s, s1, t, c);
      var rest := ChainIsRun(s1, t + 1, c[1..]);
      steps := first + rest;
      AfterJoined(s, first, rest);
      Prefixed(s, s1, After(s1, rest), t, c);
    }
  }

  lemma LinkRoom(s: State, s1: State, t: TaskId, c: seq<Shape>)
    requires |c| >= 2 && Grown(s, s1, t, c[1]) && HasRoom(s.db, s.db.tasks[t].goal, |c|) && IsChain(s.db.edges, c)
    ensures HasRoom(s1.db, s1.db.tasks[t + 1].goal, |c[1..]|)
    ensures IsChain(s1.db.edges, c[1..]) && c[1..][0] == ShapeOf(s1.db.tasks[t + 1])
  {
    if s.db.tasks[t].goal.Some? {
      GrownGoal(s, s1, t, c[1], s.db.tasks[t].goal.value);
    }
  }

  lemma Prefixed(s: State, s1: State, s': State, t: TaskId, c: seq<Shape>)
    requires |c| >= 2 && Grown(s, s1, t, c[1]) && c[0] == ShapeOf(s.db.tasks[t]) && RanAlong(s1, s', t + 1, c[1..])
    ensures RanAlong(s, s', t, c)
  {
    forall i | 0 <= i <= t
      ensures RowEvolves(s.db.tasks[i], s'.db.tasks[i])
    {
      EvolvesTwice(s.db.tasks[i], s1.db.tasks[i], s'.db.tasks[i]);
    }
    assert RowEvolves(s1.db.tasks[t + 1], s'.db.tasks[t + 1]);
    forall k | t <= k < |s'.db.tasks|
      ensures ShapeOf(s'.db.tasks[k]) == c[k - t]
    {
      if k > t {
        assert c[1..][k - (t + 1)] == c[k - t];
      }
    }
    if s.db.tasks[t].goal.Some? {
      GrownGoal(s, s1, t, c[1], s.db.tasks[t].goal.value);
    }
  }

  lemma EvolvesTwice(a: Task, b: Task, c: Task)
    requires RowEvolves(a, b) && RowEvolves(b, c)
    ensures RowEvolves(a, c)
  {
  }
}
