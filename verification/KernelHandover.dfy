/** Exactly which runs propagate every finished task. */
module KernelHandover {
  import opened Common
  import opened Schema
  import opened WorkerCore
  import opened Kernel
  import opened KernelSafety
  import opened KernelTheorems
  import opened KernelRecovery

  // The run whose propagation a step applies, and the task it is applied to.
  function PropagatedBy(s: State, step: Step): Option<TaskId> {
    if step.Finalize? && RunAt(s, step.run, Finalizing) then Some(s.runs[step.run].task)
    else if step.Finish? && RunAt(s, step.run, Executing) && s.db.tasks[s.runs[step.run].task].engine.Crew?
         && RunAt(RecordedRun(s, step.run, step.outcome), step.run, Finalizing) then Some(s.runs[step.run].task)
    else None
  }

  // The tasks whose propagation was applied in a run of the kernel.
  ghost function PropagatedIn(s: State, steps: seq<Step>): set<TaskId> {
    if steps == [] then {}
    else
      var front := steps[..|steps| - 1];
      var t := PropagatedBy(After(s, front), steps[|steps| - 1]);
      PropagatedIn(s, front) + (if t.Some? then {t.value} else {})
  }

  // Every done task was propagated, or a run still holds it for that.
  ghost predicate HandedOver(s: State, applied: set<TaskId>) {
    forall t: TaskId :: t < |s.db.tasks| && s.db.tasks[t].status.Done? ==> t in applied || FinalizingOn(s, t)
  }

  // A worker is lost, or raises, between `done` and its propagation.
  predicate HitsFinalizing(s: State, step: Step) {
    (step.WorkerLost? || step.WorkerRaised?) && step.run in s.runs && s.runs[step.run].pc.Finalizing?
  }

  ghost predicate NeverHitsFinalizing(s: State, steps: seq<Step>) {
    steps == [] || (var front := steps[..|steps| - 1];
      NeverHitsFinalizing(s, front) && !HitsFinalizing(After(s, front), steps[|steps| - 1]))
  }

  // What was propagated is done and held no more.
  ghost predicate AppliedOk(s: State, applied: set<TaskId>) {
    forall t :: t in applied ==> t < |s.db.tasks| && s.db.tasks[t].status.Done? && !FinalizingOn(s, t)
  }

  // --- how a step moves runs and done tasks ---

  // Which tasks are newly done, and which of them are held.
  ghost predicate Moves(s: State, s': State, done: Option<TaskId>, released: Option<TaskId>) {
    && |s.db.tasks| <= |s'.db.tasks|
    && (forall t: TaskId :: t < |s'.db.tasks| && s'.db.tasks[t].status.Done? <==>
          (t < |s.db.tasks| && s.db.tasks[t].status.Done?) || done == Some(t))
    && (forall t: TaskId :: FinalizingOn(s', t) <==> (FinalizingOn(s, t) || done == Some(t)) && released != Some(t))
  }

  lemma RecordMoves(s: State, r: RunId, o: Outcome)
    requires RunsOk(s)
    ensures var m := RecordedRun(s, r, o);
      && RunsOk(m) && |m.db.tasks| == |s.db.tasks|
      && Moves(s, m, if RunAt(s, r, Executing) && RunAt(m, r, Finalizing) then Some(s.runs[r].task) else None, None)
      && (RunAt(s, r, Executing) && RunAt(m, r, Finalizing) ==> m.runs[r].task == s.runs[r].task && !s.db.tasks[s.runs[r].task].status.Done?)
  {
    var m := RecordedRun(s, r, o);
    if RunAt(s, r, Executing) && Recorded(s.db, s.runs[r].task, o).Some? {
      var t := s.runs[r].task;
      RecordedRow(s.db, t, o);
      RecordRuns(s, r, o);
      RecordHolds(s, r, o);
    } else if RunAt(s, r, Executing) {
      ReleasedHolds(s, r);
    }
  }

  lemma ReleasedHolds(s: State, r: RunId)
    requires r in s.runs && !s.runs[r].pc.Finalizing?
    ensures forall t: TaskId :: FinalizingOn(Released(s, r), t) <==> FinalizingOn(s, t)
  {
    forall t: TaskId | FinalizingOn(s, t)
      ensures FinalizingOn(Released(s, r), t)
    {
      var q :| q in s.runs && s.runs[q] == Run(t, Finalizing);
      assert Released(s, r).runs[q] == Run(t, Finalizing);
    }
  }

  lemma RecordHolds(s: State, r: RunId, o: Outcome)
    requires RunAt(s, r, Executing) && Recorded(s.db, s.runs[r].task, o).Some?
    ensures var m := RecordedRun(s, r, o);
      forall t: TaskId :: FinalizingOn(m, t) <==> FinalizingOn(s, t) || (o.Finished? && t == s.runs[r].task)
  {
    var m := RecordedRun(s, r, o);
    forall t: TaskId | FinalizingOn(s, t)
      ensures FinalizingOn(m, t)
    {
      var q :| q in s.runs && s.runs[q] == Run(t, Finalizing);
      assert m.runs[q] == Run(t, Finalizing);
    }
    if o.Finished? {
      assert m.runs[r] == Run(s.runs[r].task, Finalizing);
    }
  }

  lemma FinalizeMoves(s: State, r: RunId)
    requires RunsOk(s)
    ensures Moves(s, FinalizedRun(s, r), None, if RunAt(s, r, Finalizing) then Some(s.runs[r].task) else None)
    ensures RunAt(s, r, Finalizing) ==> s.db.tasks[s.runs[r].task].status.Done?
  {
    var s' := FinalizedRun(s, r);
    FinalizeEffect(s, r);
    if RunAt(s, r, Finalizing) {
      var u := s.runs[r].task;
      forall t: TaskId
        ensures FinalizingOn(s', t) <==> FinalizingOn(s, t) && t != u
      {
        if FinalizingOn(s, t) && t != u {
          var q :| q in s.runs && s.runs[q] == Run(t, Finalizing);
          assert s'.runs[q] == Run(t, Finalizing);
        }
      }
    }
  }

  // All other steps leave the done tasks and, unless a worker is hit, the holds alone.
  lemma QuietMoves(s: State, step: Step)
    requires Inv(s) && !step.Finish? && !step.Finalize?
    ensures Moves(s, Next(s, step), None, if HitsFinalizing(s, step) then Some(s.runs[step.run].task) else None)
  {
    StepEffect(s, step);
    QuietDone(s, step);
    QuietHolds(s, step);
  }

  lemma QuietDone(s: State, step: Step)
    requires RunsOk(s) && !step.Finish? && !step.Finalize? && Effect(s, Next(s, step), step.ContinueTask?)
    ensures forall t: TaskId :: t < |Next(s, step).db.tasks| && Next(s, step).db.tasks[t].status.Done? <==> t < |s.db.tasks| && s.db.tasks[t].status.Done?
  {
    forall t: TaskId | t < |s.db.tasks|
      ensures Next(s, step).db.tasks[t].status.Done? <==> s.db.tasks[t].status.Done?
    {
      assert RowEffect(s, Next(s, step), t, step.ContinueTask?);
      NotNewlyDone(s, step, t);
    }
  }

  lemma NotNewlyDone(s: State, step: Step, t: TaskId)
    requires RunsOk(s) && !step.Finish? && !step.Finalize? && t < |s.db.tasks| <= |Next(s, step).db.tasks|
    ensures Next(s, step).db.tasks[t].status.Done? ==> s.db.tasks[t].status.Done?
  {
    if step.Reap? {
      ReapedRows(s.db, step.stale);
    } else if step.Meter? {
      if RunAt(s, step.run, Starting) {
        MeteredRow(s.db, s.runs[step.run].task);
      }
    } else if step.Begin? || step.StopTask? || step.ContinueTask? || step.Create? {
      TaskStepNotDone(s, step, t);
    } else {
      assert Next(s, step).db.tasks == s.db.tasks;
    }
  }

  lemma TaskStepNotDone(s: State, step: Step, t: TaskId)
    requires step.Begin? || step.StopTask? || step.ContinueTask? || step.Create?
    requires t < |s.db.tasks| <= |Next(s, step).db.tasks|
    ensures Next(s, step).db.tasks[t].status.Done? ==> s.db.tasks[t].status.Done?
  {
  }

  lemma QuietHolds(s: State, step: Step)
    requires RunsOk(s) && !step.Finish? && !step.Finalize?
    ensures forall t: TaskId :: FinalizingOn(Next(s, step), t) <==>
      FinalizingOn(s, t) && !(HitsFinalizing(s, step) && t == s.runs[step.run].task)
  {
    NoNewFinalizing(s, step);
    forall t: TaskId
      ensures FinalizingOn(Next(s, step), t) <==> FinalizingOn(s, t) && !(HitsFinalizing(s, step) && t == s.runs[step.run].task)
    {
      if FinalizingOn(s, t) && !(HitsFinalizing(s, step) && t == s.runs[step.run].task) {
        var q :| q in s.runs && s.runs[q] == Run(t, Finalizing);
        HoldKept(s, step, q);
      }
      if FinalizingOn(Next(s, step), t) {
        var q :| q in Next(s, step).runs && Next(s, step).runs[q] == Run(t, Finalizing);
        HitIsGone(s, step, q);
      }
    }
  }

  lemma HoldKept(s: State, step: Step, q: RunId)
    requires !step.Finish? && !step.Finalize? && q in s.runs && s.runs[q].pc.Finalizing?
    requires !(HitsFinalizing(s, step) && step.run == q)
    ensures q in Next(s, step).runs && Next(s, step).runs[q] == s.runs[q]
  {
    if step.Begin? {
      BeginKeepsHold(s, step.run, step.costReached, q);
    } else if step.Meter? {
      MeterKeepsHold(s, step.run, q);
    } else if !step.WorkerLost? && !step.WorkerRaised? && !step.Deliver? {
      RunsUntouched(s, step);
    }
  }

  lemma BeginKeepsHold(s: State, r: RunId, costReached: bool, q: RunId)
    requires q in s.runs && s.runs[q].pc.Finalizing?
    ensures q in Begun(s, r, costReached).runs && Begun(s, r, costReached).runs[q] == s.runs[q]
  {
  }

  lemma MeterKeepsHold(s: State, r: RunId, q: RunId)
    requires q in s.runs && s.runs[q].pc.Finalizing?
    ensures q in MeteredRun(s, r).runs && MeteredRun(s, r).runs[q] == s.runs[q]
  {
  }

  lemma RunsUntouched(s: State, step: Step)
    requires !step.Begin? && !step.Meter? && !step.Finish? && !step.Finalize? && !step.WorkerLost? && !step.WorkerRaised? && !step.Deliver?
    ensures Next(s, step).runs == s.runs
  {
  }

  lemma HitIsGone(s: State, step: Step, q: RunId)
    requires RunsOk(s) && !step.Finish? && !step.Finalize? && q in Next(s, step).runs && q in s.runs && s.runs[q] == Next(s, step).runs[q]
    requires s.runs[q].pc.Finalizing?
    ensures HitsFinalizing(s, step) ==> s.runs[step.run].task != s.runs[q].task
  {
    if HitsFinalizing(s, step) {
      assert step.run !in Next(s, step).runs;
    }
  }

  // --- every step, every run ---

  lemma MovesKeep(s: State, s': State, done: Option<TaskId>, released: Option<TaskId>, applied: set<TaskId>, applied': set<TaskId>)
    requires Moves(s, s', done, released) && AppliedOk(s, applied) && (done.Some? ==> !(done.value < |s.db.tasks| && s.db.tasks[done.value].status.Done?))
    requires applied' == applied || (released.Some? && applied' == applied + {released.value})
    requires released.Some? ==> released.value < |s'.db.tasks| && s'.db.tasks[released.value].status.Done?
    ensures AppliedOk(s', applied')
  {
  }

  lemma FinishHandover(s: State, r: RunId, o: Outcome, applied: set<TaskId>)
    requires Inv(s) && AppliedOk(s, applied)
    ensures var t := PropagatedBy(s, Finish(r, o));
      var applied' := applied + (if t.Some? then {t.value} else {});
      AppliedOk(FinishedRun(s, r, o), applied') && (HandedOver(FinishedRun(s, r, o), applied') <==> HandedOver(s, applied))
  {
    var m := RecordedRun(s, r, o);
    var t := PropagatedBy(s, Finish(r, o));
    RecordMoves(s, r, o);
    var done := if RunAt(s, r, Executing) && RunAt(m, r, Finalizing) then Some(s.runs[r].task) else None;
    MovesKeep(s, m, done, None, applied, applied);
    RecordedHandover(s, m, done, applied);
    if t.Some? {
      FinalizeMoves(m, r);
      FinalizedHandover(m, r, applied);
    } else if RunAt(s, r, Executing) && s.db.tasks[s.runs[r].task].engine.Crew? {
      assert FinalizedRun(m, r) == m;
    }
  }

  lemma RecordedHandover(s: State, m: State, done: Option<TaskId>, applied: set<TaskId>)
    requires Moves(s, m, done, None) && AppliedOk(s, applied) && (done.Some? ==> !(done.value < |s.db.tasks| && s.db.tasks[done.value].status.Done?))
    ensures HandedOver(m, applied) <==> HandedOver(s, applied)
  {
    forall t: TaskId | t < |s.db.tasks| && s.db.tasks[t].status.Done?
      ensures t < |m.db.tasks| && m.db.tasks[t].status.Done?
    {
    }
    if HandedOver(m, applied) {
      forall t: TaskId | t < |s.db.tasks| && s.db.tasks[t].status.Done?
        ensures t in applied || FinalizingOn(s, t)
      {
        assert t in applied || FinalizingOn(m, t);
      }
    }
  }

  lemma FinalizedHandover(m: State, r: RunId, applied: set<TaskId>)
    requires RunsOk(m) && AppliedOk(m, applied) && RunAt(m, r, Finalizing)
    ensures var applied' := applied + {m.runs[r].task};
      AppliedOk(FinalizedRun(m, r), applied') && (HandedOver(FinalizedRun(m, r), applied') <==> HandedOver(m, applied))
  {
    var u := m.runs[r].task;
    FinalizeMoves(m, r);
    MovesKeep(m, FinalizedRun(m, r), None, Some(u), applied, applied + {u});
    assert FinalizingOn(m, u) by {
      assert m.runs[r] == Run(u, Finalizing);
    }
  }

  lemma QuietHandover(s: State, step: Step, applied: set<TaskId>)
    requires Inv(s) && AppliedOk(s, applied) && !step.Finish? && !step.Finalize?
    ensures AppliedOk(Next(s, step), applied)
    ensures HandedOver(Next(s, step), applied) <==> HandedOver(s, applied) && !HitsFinalizing(s, step)
  {
    QuietMoves(s, step);
    if HitsFinalizing(s, step) {
      var u := s.runs[step.run].task;
      assert FinalizingOn(s, u) by {
        assert s.runs[step.run] == Run(u, Finalizing);
      }
      assert s.db.tasks[u].status.Done?;
      MovesKeep(s, Next(s, step), None, Some(u), applied, applied);
    } else {
      MovesKeep(s, Next(s, step), None, None, applied, applied);
      RecordedHandover(s, Next(s, step), None, applied);
    }
  }

  lemma StepHandover(s: State, step: Step, applied: set<TaskId>)
    requires Inv(s) && AppliedOk(s, applied)
    ensures var t := PropagatedBy(s, step);
      var applied' := applied + (if t.Some? then {t.value} else {});
      AppliedOk(Next(s, step), applied') && (HandedOver(Next(s, step), applied') <==> HandedOver(s, applied) && !HitsFinalizing(s, step))
  {
    if step.Finish? {
      FinishHandover(s, step.run, step.outcome, applied);
    } else if step.Finalize? {
      if RunAt(s, step.run, Finalizing) {
        FinalizedHandover(s, step.run, applied);
      } else {
        assert applied + {} == applied;
      }
    } else {
      QuietHandover(s, step, applied);
      assert applied + {} == applied;
    }
  }

  /**
   In every run: each done task was propagated, or a run still holds it for its propagation, if and
   only if no worker was lost and none raised between `done` and the propagation. So that is the
   one way to lose a chain.
   */
  lemma {:induction false} HandedOverExactlyWhen(config: Config, agents: map<AgentId, Agent>, steps: seq<Step>)
    ensures var s0 := Start(config, agents);
      && AppliedOk(After(s0, steps), PropagatedIn(s0, steps))
      && (HandedOver(After(s0, steps), PropagatedIn(s0, steps)) <==> NeverHitsFinalizing(s0, steps))
    decreases |steps|
  {
    var s0 := Start(config, agents);
    if steps != [] {
      var front := steps[..|steps| - 1];
      HandedOverExactlyWhen(config, agents, front);
      StartInv(config, agents);
      ReachableInv(s0, front);
      StepHandover(After(s0, front), steps[|steps| - 1], PropagatedIn(s0, front));
    }
  }

  // --- text tasks finish and propagate in one transaction ---

  ghost predicate TextOk(s: State, applied: set<TaskId>) {
    forall t: TaskId :: t < |s.db.tasks| && s.db.tasks[t].engine.Crew? ==>
      !FinalizingOn(s, t) && (s.db.tasks[t].status.Done? ==> t in applied)
  }

  lemma StepText(s: State, step: Step, applied: set<TaskId>)
    requires Inv(s) && TextOk(s, applied)
    ensures var t := PropagatedBy(s, step); TextOk(Next(s, step), applied + (if t.Some? then {t.value} else {}))
  {
    var s' := Next(s, step);
    StepEffect(s, step);
    forall t: TaskId | t < |s'.db.tasks| && s'.db.tasks[t].engine.Crew?
      ensures !FinalizingOn(s', t)
      ensures s'.db.tasks[t].status.Done? ==> t in applied || PropagatedBy(s, step) == Some(t)
    {
      if t < |s.db.tasks| {
        assert RowEffect(s, s', t, step.ContinueTask?);
      } else {
        assert !FinalizingOn(s, t);
      }
      if step.Finish? {
        FinishText(s, step.run, step.outcome, t);
      } else if step.Finalize? {
        FinalizeMoves(s, step.run);
      } else {
        QuietMoves(s, step);
      }
    }
  }

  // A text task that a finish makes done is propagated by it.
  lemma FinishText(s: State, r: RunId, o: Outcome, t: TaskId)
    requires Inv(s) && !FinalizingOn(s, t) && (t < |s.db.tasks| ==> s.db.tasks[t].engine.Crew?)
    ensures !FinalizingOn(FinishedRun(s, r, o), t)
    ensures t < |FinishedRun(s, r, o).db.tasks| && FinishedRun(s, r, o).db.tasks[t].status.Done?
      ==> (t < |s.db.tasks| && s.db.tasks[t].status.Done?) || PropagatedBy(s, Finish(r, o)) == Some(t)
  {
    var m := RecordedRun(s, r, o);
    RecordMoves(s, r, o);
    FinalizeMoves(m, r);
  }

  /** A text task that is done was propagated, in every run, whatever workers are lost. */
  lemma {:induction false} TextTasksAreHandedOver(config: Config, agents: map<AgentId, Agent>, steps: seq<Step>)
    ensures TextOk(After(Start(config, agents), steps), PropagatedIn(Start(config, agents), steps))
    decreases |steps|
  {
    var s0 := Start(config, agents);
    if steps != [] {
      var front := steps[..|steps| - 1];
      TextTasksAreHandedOver(config, agents, front);
      StartInv(config, agents);
      ReachableInv(s0, front);
      StepText(After(s0, front), steps[|steps| - 1], PropagatedIn(s0, front));
    }
  }
}
