/** What the invariants say about every run of the kernel. */
module KernelTheorems {
  import opened Common
  import opened Schema
  import opened TaskService
  import opened GraphEngine
  import opened WorkerCore
  import opened Kernel
  import opened KernelSafety
  import CreditService

  // --- at-least-once delivery ---

  /**
   Whatever is duplicated, lost, redelivered, stopped, continued or reaped: past dispatch a task is
   held by one run at most, it enters working at most once per attempt, is charged at most once per
   entry, and is refunded at most once, and then only as a failed task.
   */
  lemma WorkerSafety(config: Config, agents: map<AgentId, Agent>, steps: seq<Step>)
    ensures var s := After(Start(config, agents), steps);
      && (forall q, r :: q in s.runs && r in s.runs && q != r && !s.runs[q].pc.Waiting? && !s.runs[r].pc.Waiting? ==>
            s.runs[q].task != s.runs[r].task)
      && |s.entries| == |s.db.tasks|
      && (forall t :: 0 <= t < |s.db.tasks| ==>
            && Charges(s.db, t) <= s.entries[t] <= s.db.tasks[t].attempt + 1
            && Refunds(s.db, t) <= 1
            && (Refunds(s.db, t) == 1 ==> s.db.tasks[t].status.Failed?))
  {
    StartInv(config, agents);
    ReachableInv(Start(config, agents), steps);
  }

  // --- what one step may do to rows, attempts and entries ---

  ghost predicate StartsWorking(a: Task, b: Task) {
    b.status.Working? && !a.status.Working?
  }

  ghost predicate RowEffect(s: State, s': State, t: TaskId, continues: bool)
    requires t < |s.db.tasks| <= |s'.db.tasks| && |s.entries| == |s.db.tasks| && |s'.entries| == |s'.db.tasks|
  {
    && RowEvolves(s.db.tasks[t], s'.db.tasks[t])
    && s'.entries[t] == s.entries[t] + (if StartsWorking(s.db.tasks[t], s'.db.tasks[t]) then 1 else 0)
    && (continues || s'.db.tasks[t].attempt == s.db.tasks[t].attempt)
  }

  // A row is new with a step only as a queued row that never ran.
  ghost predicate Effect(s: State, s': State, continues: bool) {
    && s'.db.config == s.db.config
    && |s.entries| == |s.db.tasks| <= |s'.db.tasks| == |s'.entries|
    && (forall t :: 0 <= t < |s.db.tasks| ==> RowEffect(s, s', t, continues))
    && (forall t :: |s.db.tasks| <= t < |s'.db.tasks| ==>
          s'.entries[t] == 0 && s'.db.tasks[t].attempt == 0 && s'.db.tasks[t].status.Queued?)
  }

  lemma SameRowsEffect(s: State, s': State)
    requires RunsOk(s) && s'.db.config == s.db.config && s'.db.tasks == s.db.tasks && s'.entries == s.entries
    ensures Effect(s, s', false)
  {
  }

  lemma BeginEffect(s: State, r: RunId, costReached: bool)
    requires RunsOk(s)
    ensures Effect(s, Begun(s, r, costReached), false)
  {
  }

  lemma MeterEffect(s: State, r: RunId)
    requires RunsOk(s)
    ensures Effect(s, MeteredRun(s, r), false)
  {
    var s' := MeteredRun(s, r);
    if RunAt(s, r, Starting) {
      var (db, m) := Metered(s.db, s.runs[r].task);
      assert db.config == s.db.config && |db.tasks| == |s.db.tasks|;
    }
  }

  lemma RecordEffect(s: State, r: RunId, o: Outcome)
    requires RunsOk(s)
    ensures Effect(s, RecordedRun(s, r, o), false)
  {
    var s' := RecordedRun(s, r, o);
    if RunAt(s, r, Executing) && Recorded(s.db, s.runs[r].task, o).Some? {
      RecordedRow(s.db, s.runs[r].task, o);
      RecordedAttempt(s.db, s.runs[r].task, o);
    }
  }

  lemma RecordedAttempt(d: Db, t: TaskId, o: Outcome)
    requires t < |d.tasks| && d.tasks[t].agent in d.agents && Recorded(d, t, o).Some?
    ensures t < |Recorded(d, t, o).value.tasks| && Recorded(d, t, o).value.tasks[t].attempt == d.tasks[t].attempt
  {
  }

  // Propagation leaves every old row as it is and adds one queued row at most.
  lemma FinalizeEffect(s: State, r: RunId)
    requires RunsOk(s)
    ensures var s' := FinalizedRun(s, r);
      && Effect(s, s', false)
      && (forall t :: 0 <= t < |s.db.tasks| ==> s'.db.tasks[t] == s.db.tasks[t] && s'.entries[t] == s.entries[t])
  {
    var s' := FinalizedRun(s, r);
    if RunAt(s, r, Finalizing) && Propagated(s.db, s.runs[r].task).1.Some? {
      SpawnedRow(s.db, s.runs[r].task);
      forall t | 0 <= t < |s.db.tasks|
        ensures s'.db.tasks[t] == s.db.tasks[t]
      {
        assert s'.db.tasks[..|s.db.tasks|][t] == s.db.tasks[t];
      }
    }
  }

  lemma FinishEffect(s: State, r: RunId, o: Outcome)
    requires RunsOk(s)
    ensures Effect(s, FinishedRun(s, r, o), false)
  {
    var m := RecordedRun(s, r, o);
    RecordEffect(s, r, o);
    if RunAt(s, r, Executing) && Recorded(s.db, s.runs[r].task, o).Some? {
      RecordRuns(s, r, o);
    }
    assert RunsOk(m);
    FinalizeEffect(m, r);
    var s' := FinalizedRun(m, r);
    forall t | 0 <= t < |s.db.tasks|
      ensures RowEffect(s, s', t, false)
    {
      assert RowEffect(s, m, t, false);
    }
  }

  lemma ReapEffect(s: State, stale: seq<TaskId>)
    requires RunsOk(s)
    ensures Effect(s, Next(s, Reap(stale)), false)
  {
    ReapedRows(s.db, stale);
  }

  lemma StopEffect(s: State, t: TaskId)
    requires RunsOk(s)
    ensures Effect(s, Next(s, StopTask(t)), false)
  {
  }

  lemma ContinueEffect(s: State, t: TaskId, text: string)
    requires RunsOk(s)
    ensures Effect(s, Next(s, ContinueTask(t, text)), true)
  {
  }

  lemma CreateEffect(s: State, step: Step)
    requires RunsOk(s) && step.Create?
    ensures Effect(s, Next(s, step), false)
  {
  }

  lemma StepEffect(s: State, step: Step)
    requires RunsOk(s)
    ensures Effect(s, Next(s, step), step.ContinueTask?)
  {
    if step.Begin? {
      BeginEffect(s, step.run, step.costReached);
    } else if step.Meter? {
      MeterEffect(s, step.run);
    } else if step.Finish? {
      FinishEffect(s, step.run, step.outcome);
    } else if step.Finalize? {
      FinalizeEffect(s, step.run);
    } else if step.Reap? {
      ReapEffect(s, step.stale);
    } else if step.StopTask? {
      StopEffect(s, step.task);
    } else if step.ContinueTask? {
      ContinueEffect(s, step.task, step.text);
    } else if step.Create? {
      CreateEffect(s, step);
    } else {
      SameRowsEffect(s, Next(s, step));
    }
  }

  // The entry counters count exactly the changes of a status to working.
  lemma EntriesCountEntering(s: State, step: Step, t: TaskId)
    requires Inv(s)
    ensures var s' := Next(s, step);
      && |s'.entries| == |s'.db.tasks| >= |s.db.tasks|
      && (t < |s.db.tasks| ==> s'.entries[t] == s.entries[t] + (if StartsWorking(s.db.tasks[t], s'.db.tasks[t]) then 1 else 0))
      && (|s.db.tasks| <= t < |s'.db.tasks| ==> s'.entries[t] == 0 && !s'.db.tasks[t].status.Working?)
  {
    StepEffect(s, step);
    if t < |s.db.tasks| {
      assert RowEffect(s, Next(s, step), t, step.ContinueTask?);
    }
  }

  /** A finished row is never written again, so a done task's result is final. */
  lemma {:induction false} FinishedRowsAreFinal(s: State, steps: seq<Step>, t: TaskId)
    requires Inv(s) && t < |s.db.tasks|
    ensures t < |After(s, steps).db.tasks| && RowEvolves(s.db.tasks[t], After(s, steps).db.tasks[t])
    ensures IsTerminal(s.db.tasks[t].status) ==> After(s, steps).db.tasks[t] == s.db.tasks[t]
    decreases |steps|
  {
    if steps != [] {
      var front := steps[..|steps| - 1];
      FinishedRowsAreFinal(s, front, t);
      ReachableInv(s, front);
      StepEffect(After(s, front), steps[|steps| - 1]);
      assert RowEffect(After(s, front), After(s, steps), t, steps[|steps| - 1].ContinueTask?);
    }
  }

  // --- concurrency caps ---

  /** At most one working task per agent and `concurrencyCap` per user, across all projects. */
  lemma CapsHold(config: Config, agents: map<AgentId, Agent>, steps: seq<Step>, a: AgentId, u: UserId)
    ensures var tasks := After(Start(config, agents), steps).db.tasks;
      && |WorkingOfAgent(tasks, a)| <= 1
      && (config.concurrencyCap >= 0 ==> |WorkingOfUser(tasks, u)| <= config.concurrencyCap)
  {
    StartInv(config, agents);
    ReachableInv(Start(config, agents), steps);
    ConfigFixed(Start(config, agents), steps);
  }

  lemma {:induction false} ConfigFixed(s: State, steps: seq<Step>)
    requires Inv(s)
    ensures After(s, steps).db.config == s.db.config
    decreases |steps|
  {
    if steps != [] {
      var front := steps[..|steps| - 1];
      ConfigFixed(s, front);
      ReachableInv(s, front);
      StepEffect(After(s, front), steps[|steps| - 1]);
    }
  }

  // --- pausing ---

  ghost predicate Rests(s: State, s': State, p: ProjectId) {
    && |s.db.tasks| <= |s'.db.tasks| && p in s'.db.paused
    && (forall t :: 0 <= t < |s.db.tasks| && s.db.tasks[t].project == p ==>
          s'.db.tasks[t].project == p && !StartsWorking(s.db.tasks[t], s'.db.tasks[t]))
    && (forall t :: |s.db.tasks| <= t < |s'.db.tasks| ==> s'.db.tasks[t].project != p)
  }

  lemma BeginRests(s: State, r: RunId, costReached: bool, p: ProjectId)
    requires RunsOk(s) && p in s.db.paused
    ensures Rests(s, Begun(s, r, costReached), p)
  {
    if Begun(s, r, costReached).entries != s.entries {
      assert !Closed(s.db, s.runs[r].task, costReached, ProjectPaused);
    }
  }

  lemma FinalizeRests(s: State, r: RunId, p: ProjectId)
    requires RunsOk(s) && p in s.db.paused
    ensures Rests(s, FinalizedRun(s, r), p)
  {
    FinalizeEffect(s, r);
    if RunAt(s, r, Finalizing) && Propagated(s.db, s.runs[r].task).1.Some? {
      SpawnedRow(s.db, s.runs[r].task);
      assert s.db.tasks[s.runs[r].task].project !in s.db.paused;
    }
  }

  lemma RecordRests(s: State, r: RunId, o: Outcome, p: ProjectId)
    requires RunsOk(s) && p in s.db.paused
    ensures Rests(s, RecordedRun(s, r, o), p) && |RecordedRun(s, r, o).db.tasks| == |s.db.tasks|
  {
    RecordAddsNoRow(s, r, o);
    if RunAt(s, r, Executing) && Recorded(s.db, s.runs[r].task, o).Some? {
      RecordedRow(s.db, s.runs[r].task, o);
      RecordedPaused(s.db, s.runs[r].task, o);
      forall t | 0 <= t < |s.db.tasks|
        ensures RowEvolves(s.db.tasks[t], RecordedRun(s, r, o).db.tasks[t])
      {
      }
    }
  }

  lemma RecordedPaused(d: Db, t: TaskId, o: Outcome)
    requires t < |d.tasks| && d.tasks[t].agent in d.agents && Recorded(d, t, o).Some?
    ensures Recorded(d, t, o).value.paused == d.paused
  {
  }

  lemma FinishRests(s: State, r: RunId, o: Outcome, p: ProjectId)
    requires Inv(s) && p in s.db.paused
    ensures Rests(s, FinishedRun(s, r, o), p)
  {
    var m := RecordedRun(s, r, o);
    RecordRests(s, r, o, p);
    RecordInv(s, r, o);
    FinalizeRests(m, r, p);
    FinalizeEffect(m, r);
  }

  lemma {:induction false} ReapedPaused(d: Db, stale: seq<TaskId>)
    ensures Reaped(d, stale).paused == d.paused
    decreases |stale|
  {
    if stale != [] {
      ReapedPaused(d, stale[..|stale| - 1]);
    }
  }

  /** While a project is paused nothing starts in it and nothing is handed on in it; only new orders are still taken. */
  lemma PausedProjectRests(s: State, step: Step, p: ProjectId)
    requires Inv(s) && p in s.db.paused && !step.Create? && !step.SetPaused?
    ensures Rests(s, Next(s, step), p)
  {
    if step.Begin? {
      BeginRests(s, step.run, step.costReached, p);
    } else if step.Finish? {
      FinishRests(s, step.run, step.outcome, p);
    } else if step.Finalize? {
      FinalizeRests(s, step.run, p);
    } else if step.Reap? {
      ReapedRows(s.db, step.stale);
      ReapedPaused(s.db, step.stale);
    } else if step.Meter? {
      MeterRests(s, step.run, p);
    } else {
      QuietRests(s, step, p);
    }
  }

  lemma MeterRests(s: State, r: RunId, p: ProjectId)
    requires RunsOk(s) && p in s.db.paused
    ensures Rests(s, MeteredRun(s, r), p)
  {
    if RunAt(s, r, Starting) {
      MeteredRow(s.db, s.runs[r].task);
    }
  }

  lemma QuietRests(s: State, step: Step, p: ProjectId)
    requires p in s.db.paused && !step.Create? && !step.SetPaused?
    requires !step.Begin? && !step.Finish? && !step.Finalize? && !step.Reap? && !step.Meter?
    ensures Rests(s, Next(s, step), p)
  {
    if step.StopTask? {
    } else if step.ContinueTask? {
    } else {
      assert Next(s, step).db.tasks == s.db.tasks && Next(s, step).db.paused == s.db.paused;
    }
  }

  // --- goal budget ---

  /** However its tasks came about, at most `goalBudget` tasks of a goal ever enter working. */
  lemma GoalBudgetBoundsWork(config: Config, agents: map<AgentId, Agent>, steps: seq<Step>, g: GoalId)
    requires config.goalBudget >= 0
    ensures |EnteredOfGoal(After(Start(config, agents), steps), g)| <= config.goalBudget
  {
    StartInv(config, agents);
    ReachableInv(Start(config, agents), steps);
    ConfigFixed(Start(config, agents), steps);
  }

  lemma StepGoalSize(s: State, step: Step, g: GoalId)
    requires Inv(s) && !(step.Create? && step.goal == Some(g))
    ensures GoalSizeOk(s, Next(s, step), g)
  {
    var s' := Next(s, step);
    if step.Finalize? && RunAt(s, step.run, Finalizing) {
      PropagationRespectsBudget(s.db, s.runs[step.run].task, g);
    } else if step.Finish? {
      FinishGoalSize(s, step.run, step.outcome, g);
    } else {
      StepEffect(s, step);
      OtherStepGoal(s, step, g);
    }
  }

  ghost predicate GoalSizeOk(s: State, s': State, g: GoalId) {
    var n := |TasksOfGoal(s'.db.tasks, g)|;
    n <= |TasksOfGoal(s.db.tasks, g)| || n <= s.db.config.goalBudget + 1
  }

  lemma OtherStepGoal(s: State, step: Step, g: GoalId)
    requires Inv(s) && !(step.Create? && step.goal == Some(g)) && !step.Finish? && !(step.Finalize? && RunAt(s, step.run, Finalizing))
    requires Effect(s, Next(s, step), step.ContinueTask?)
    ensures GoalSizeOk(s, Next(s, step), g)
  {
    var s' := Next(s, step);
    forall t: TaskId | t in TasksOfGoal(s'.db.tasks, g)
      ensures t in TasksOfGoal(s.db.tasks, g)
    {
      if t < |s.db.tasks| {
        assert RowEffect(s, s', t, step.ContinueTask?);
      } else {
        OnlyCreateAdds(s, step);
      }
    }
    SubsetCardinality(TasksOfGoal(s'.db.tasks, g), TasksOfGoal(s.db.tasks, g));
  }

  lemma OnlyCreateAdds(s: State, step: Step)
    requires RunsOk(s) && !step.Finish? && !(step.Finalize? && RunAt(s, step.run, Finalizing))
    ensures step.Create? || |Next(s, step).db.tasks| == |s.db.tasks|
    ensures step.Create? && |Next(s, step).db.tasks| != |s.db.tasks| ==>
              |Next(s, step).db.tasks| == |s.db.tasks| + 1 && Next(s, step).db.tasks[|s.db.tasks|].goal == step.goal
  {
    if step.Reap? {
      ReapedRows(s.db, step.stale);
    } else if step.Meter? {
      if RunAt(s, step.run, Starting) {
        MeteredRow(s.db, s.runs[step.run].task);
      }
    }
  }

  lemma FinishGoalSize(s: State, r: RunId, o: Outcome, g: GoalId)
    requires Inv(s)
    ensures GoalSizeOk(s, FinishedRun(s, r, o), g)
  {
    var m := RecordedRun(s, r, o);
    RecordEffect(s, r, o);
    forall t | 0 <= t < |s.db.tasks|
      ensures m.db.tasks[t].goal == s.db.tasks[t].goal
    {
      assert RowEffect(s, m, t, false);
    }
    RecordAddsNoRow(s, r, o);
    assert TasksOfGoal(m.db.tasks, g) == TasksOfGoal(s.db.tasks, g);
    if RunAt(m, r, Finalizing) {
      PropagationRespectsBudget(m.db, m.runs[r].task, g);
    }
  }

  lemma RecordAddsNoRow(s: State, r: RunId, o: Outcome)
    requires RunsOk(s)
    ensures |RecordedRun(s, r, o).db.tasks| == |s.db.tasks|
  {
    if RunAt(s, r, Executing) && Recorded(s.db, s.runs[r].task, o).Some? {
      RecordedRow(s.db, s.runs[r].task, o);
    }
  }

  /** Propagation alone, whatever the edges and however they are edited, never takes a goal past budget + 1 tasks. */
  lemma {:induction false} PropagationStaysInBudget(s: State, steps: seq<Step>, g: GoalId)
    requires Inv(s)
    requires forall step :: step in steps ==> !(step.Create? && step.goal == Some(g))
    ensures GoalSizeOk(s, After(s, steps), g)
    decreases |steps|
  {
    if steps != [] {
      var front := steps[..|steps| - 1];
      assert steps == front + [steps[|steps| - 1]];
      PropagationStaysInBudget(s, front, g);
      ReachableInv(s, front);
      ConfigFixed(s, front);
      StepGoalSize(After(s, front), steps[|steps| - 1], g);
    }
  }

  // How often tasks of the goal entered working, all together.
  function GoalEntries(tasks: seq<Task>, entries: seq<nat>, g: GoalId): nat
    requires |tasks| == |entries|
  {
    if tasks == [] then 0
    else
      var n := |tasks| - 1;
      GoalEntries(tasks[..n], entries[..n], g) + (if tasks[n].goal == Some(g) then entries[n] else 0)
  }

  lemma {:induction false} SingleEntriesAdd(tasks: seq<Task>, entries: seq<nat>, g: GoalId)
    requires |tasks| == |entries| && forall t :: 0 <= t < |entries| ==> entries[t] <= 1
    ensures GoalEntries(tasks, entries, g) == |EnteredIn(tasks, entries, g)|
    decreases |tasks|
  {
    if tasks == [] {
      assert EnteredIn(tasks, entries, g) == {};
    } else {
      var n := |tasks| - 1;
      SingleEntriesAdd(tasks[..n], entries[..n], g);
      LastEntered(tasks, entries, g);
    }
  }

  lemma LastEntered(tasks: seq<Task>, entries: seq<nat>, g: GoalId)
    requires |tasks| == |entries| > 0
    ensures var n := |tasks| - 1;
      EnteredIn(tasks, entries, g)
        == EnteredIn(tasks[..n], entries[..n], g) + (if entries[n] > 0 && tasks[n].goal == Some(g) then {n} else {})
    ensures |tasks| - 1 !in EnteredIn(tasks[..|tasks| - 1], entries[..|tasks| - 1], g)
  {
  }

  /** Without continues every task enters working once at most, and the tasks of a goal `goalBudget` times in all. */
  lemma RunsOnceWithoutContinue(config: Config, agents: map<AgentId, Agent>, steps: seq<Step>, g: GoalId)
    requires forall step :: step in steps ==> !step.ContinueTask?
    ensures var s := After(Start(config, agents), steps);
      && |s.entries| == |s.db.tasks|
      && (forall t :: 0 <= t < |s.db.tasks| ==> s.db.tasks[t].attempt == 0 && s.entries[t] <= 1)
      && (config.goalBudget >= 0 ==> GoalEntries(s.db.tasks, s.entries, g) <= config.goalBudget)
  {
    OneAttemptEach(config, agents, steps);
    var s := After(Start(config, agents), steps);
    SingleEntriesAdd(s.db.tasks, s.entries, g);
    if config.goalBudget >= 0 {
      GoalBudgetBoundsWork(config, agents, steps, g);
    }
  }

  lemma {:induction false} OneAttemptEach(config: Config, agents: map<AgentId, Agent>, steps: seq<Step>)
    requires forall step :: step in steps ==> !step.ContinueTask?
    ensures var s := After(Start(config, agents), steps);
      |s.entries| == |s.db.tasks| && forall t :: 0 <= t < |s.db.tasks| ==> s.db.tasks[t].attempt == 0 && s.entries[t] <= 1
    decreases |steps|
  {
    StartInv(config, agents);
    ReachableInv(Start(config, agents), steps);
    if steps != [] {
      var front := steps[..|steps| - 1];
      var last := steps[|steps| - 1];
      assert steps == front + [last];
      OneAttemptEach(config, agents, front);
      var s := After(Start(config, agents), front);
      ReachableInv(Start(config, agents), front);
      StepEffect(s, last);
      forall t | 0 <= t < |s.db.tasks|
        ensures Next(s, last).db.tasks[t].attempt == 0
      {
        assert RowEffect(s, Next(s, last), t, false);
      }
    }
  }

  // --- the books over whole runs ---

  predicate PaysIn(step: Step) {
    step.StripeWebhook? ==> CreditService.NonNegative(CreditService.Webhook(step.event))
  }

  lemma ReapedNoDebt(d: Db, t: TaskId)
    requires CreditService.NoDebtUnderCap(d.books)
    ensures CreditService.NoDebtUnderCap(ReapedOne(d, t).books)
  {
  }

  lemma {:induction false} ReapedAllNoDebt(d: Db, stale: seq<TaskId>)
    requires CreditService.NoDebtUnderCap(d.books)
    ensures CreditService.NoDebtUnderCap(Reaped(d, stale).books)
    decreases |stale|
  {
    if stale != [] {
      ReapedAllNoDebt(d, stale[..|stale| - 1]);
      ReapedNoDebt(Reaped(d, stale[..|stale| - 1]), stale[|stale| - 1]);
    }
  }

  lemma RunNoDebt(s: State, r: RunId, o: Outcome)
    requires CreditService.NoDebtUnderCap(s.db.books)
    ensures CreditService.NoDebtUnderCap(MeteredRun(s, r).db.books)
    ensures CreditService.NoDebtUnderCap(RecordedRun(s, r, o).db.books)
    ensures FinalizedRun(s, r).db.books == s.db.books
  {
    if RunAt(s, r, Starting) {
      var t := s.runs[r].task;
      CreditService.AppliedNoDebt(s.db.books, CreditService.Charge(s.db.tasks[t].user, t, TierOf(s.db, t)));
    }
    if RunAt(s, r, Executing) {
      var t := s.runs[r].task;
      CreditService.AppliedNoDebt(s.db.books, CreditService.Refund(s.db.tasks[t].user, t, CreditService.CreditCost(TierOf(s.db, t))));
    }
  }

  lemma StepNoDebt(s: State, step: Step)
    requires CreditService.NoDebtUnderCap(s.db.books) && PaysIn(step)
    ensures CreditService.NoDebtUnderCap(Next(s, step).db.books)
  {
    match step {
      case StripeWebhook(ev) => CreditService.AppliedNoDebt(s.db.books, CreditService.Webhook(ev));
      case GrantCredits(u) => CreditService.AppliedNoDebt(s.db.books, CreditService.Signup(u, CreditService.SIGNUP_CREDITS));
      case Reap(stale) => ReapedAllNoDebt(s.db, stale);
      case Meter(r) => RunNoDebt(s, r, Interrupted);
      case Finalize(r) => RunNoDebt(s, r, Interrupted);
      case Finish(r, o) =>
        RunNoDebt(s, r, o);
        RunNoDebt(RecordedRun(s, r, o), r, o);
      case Begin(r, costReached) => assert Begun(s, r, costReached).db.books == s.db.books;
      case StopTask(t) =>
      case ContinueTask(t, text) =>
      case Create(_, _, _, _, _, _) =>
      case EditEdges(op) => assert EditedGraph(s.db, op).books == s.db.books;
      case _ => assert Next(s, step).db.books == s.db.books;
    }
  }

  /** Metered work, refunds, grants and webhooks interleaved: the ledger explains every balance, and none is in debt under its cap. */
  lemma {:induction false} LedgerExplainsBalances(config: Config, agents: map<AgentId, Agent>, steps: seq<Step>)
    ensures CreditService.SoundBooks(After(Start(config, agents), steps).db.books)
    ensures (forall step :: step in steps ==> PaysIn(step)) ==> CreditService.NoDebtUnderCap(After(Start(config, agents), steps).db.books)
    decreases |steps|
  {
    StartInv(config, agents);
    ReachableInv(Start(config, agents), steps);
    if steps != [] {
      var front := steps[..|steps| - 1];
      assert steps == front + [steps[|steps| - 1]];
      LedgerExplainsBalances(config, agents, front);
      if forall step :: step in steps ==> PaysIn(step) {
        StepNoDebt(After(Start(config, agents), front), steps[|steps| - 1]);
      }
    }
  }
}
