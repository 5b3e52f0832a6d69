/** What the kernel recovers from by itself, and the one loss it does not recover from. */
module KernelRecovery {
  import opened Common
  import opened Schema
  import opened TaskService
  import opened GraphEngine
  import opened WorkerCore
  import opened Kernel
  import opened KernelSafety
  import opened KernelTheorems

  // --- lost messages ---

  /** A queued task whose messages were all lost starts after the next sweep exactly when the gates let it. */
  lemma LostMessageIsRecovered(s: State, t: TaskId, r: RunId, costReached: bool)
    requires Inv(s) && t < |s.db.tasks| && s.db.tasks[t].status.Queued? && r !in s.runs
    ensures After(s, [RecoverSweep([t]), Deliver(r, t), Begin(r, costReached)])
         == if Blockers(s.db, t, costReached) != [] then s
            else s.(db := WithTask(s.db, t, s.db.tasks[t].(status := Working)), runs := s.runs[r := Run(t, Starting)],
                    entries := s.entries[t := s.entries[t] + 1])
  {
    ThreeSteps(s, RecoverSweep([t]), Deliver(r, t), Begin(r, costReached));
    SweptAndTaken(s, t, r);
    TakenAndBegun(s, t, r, costReached);
  }

  lemma TakenAndBegun(s: State, t: TaskId, r: RunId, costReached: bool)
    requires RunsOk(s) && t < |s.db.tasks| && s.db.tasks[t].status.Queued? && r !in s.runs
    ensures Begun(s.(runs := s.runs[r := Run(t, Waiting)]), r, costReached)
         == if Blockers(s.db, t, costReached) != [] then s
            else s.(db := WithTask(s.db, t, s.db.tasks[t].(status := Working)), runs := s.runs[r := Run(t, Starting)],
                    entries := s.entries[t := s.entries[t] + 1])
  {
    assert s.runs[r := Run(t, Waiting)] - {r} == s.runs;
    assert s.runs[r := Run(t, Waiting)][r := Run(t, Starting)] == s.runs[r := Run(t, Starting)];
  }

  lemma SweptAndTaken(s: State, t: TaskId, r: RunId)
    requires t < |s.db.tasks| && s.db.tasks[t].status.Queued? && r !in s.runs
    ensures Next(Next(s, RecoverSweep([t])), Deliver(r, t)) == s.(runs := s.runs[r := Run(t, Waiting)])
  {
    assert StillQueued(s.db.tasks, [t]) == [t] by {
      assert [t][1..] == [];
    }
    assert multiset([t]) == multiset{t};
    assert s.queue + multiset{t} - multiset{t} == s.queue;
  }

  // --- duplicates ---

  /** A message for a task that is not queued is harmless: taking it up and starting it leaves everything but the message as it was. */
  lemma DuplicateIsHarmless(s: State, t: TaskId, r: RunId, costReached: bool)
    requires t in s.queue && r !in s.runs
    requires t < |s.db.tasks| ==> !s.db.tasks[t].status.Queued?
    ensures Next(Next(s, Deliver(r, t)), Begin(r, costReached)) == s.(queue := s.queue - multiset{t})
  {
    assert s.runs[r := Run(t, Waiting)] - {r} == s.runs;
  }

  // --- a chain lost for good ---

  // Done, but the run that was to propagate it is gone.
  ghost predicate Orphaned(s: State, t: TaskId) {
    && t < |s.db.tasks| && s.db.tasks[t].status.Done? && !FinalizingOn(s, t)
    && forall c :: 0 <= c < |s.db.tasks| ==> s.db.tasks[c].parent != Some(t)
  }

  lemma FinalizeOrphan(s: State, r: RunId, t: TaskId)
    requires RunsOk(s) && Orphaned(s, t)
    ensures Orphaned(FinalizedRun(s, r), t)
  {
    var s' := FinalizedRun(s, r);
    FinalizeEffect(s, r);
    assert RowEffect(s, s', t, false);
    assert forall q :: q in s'.runs ==> q in s.runs && s.runs[q] == s'.runs[q];
    if RunAt(s, r, Finalizing) {
      var u := s.runs[r].task;
      assert u != t by {
        assert s.runs[r] == Run(u, Finalizing);
      }
      if Propagated(s.db, u).1.Some? {
        SpawnedRow(s.db, u);
      }
    }
  }

  lemma FinishOrphan(s: State, r: RunId, o: Outcome, t: TaskId)
    requires RunsOk(s) && Orphaned(s, t)
    ensures RunsOk(RecordedRun(s, r, o)) && Orphaned(RecordedRun(s, r, o), t)
  {
    var m := RecordedRun(s, r, o);
    RecordEffect(s, r, o);
    RecordAddsNoRow(s, r, o);
    forall c | 0 <= c < |s.db.tasks|
      ensures m.db.tasks[c].parent == s.db.tasks[c].parent
    {
      assert RowEffect(s, m, c, false);
    }
    assert RowEffect(s, m, t, false);
    if RunAt(s, r, Executing) && Recorded(s.db, s.runs[r].task, o).Some? {
      RecordRuns(s, r, o);
    }
  }

  lemma StepOrphan(s: State, step: Step, t: TaskId)
    requires Inv(s) && Orphaned(s, t)
    ensures Orphaned(Next(s, step), t)
  {
    if step.Finalize? {
      FinalizeOrphan(s, step.run, t);
    } else if step.Finish? {
      FinishOrphan(s, step.run, step.outcome, t);
      FinalizeOrphan(RecordedRun(s, step.run, step.outcome), step.run, t);
    } else {
      StepEffect(s, step);
      QuietOrphan(s, step, t);
    }
  }

  lemma QuietOrphan(s: State, step: Step, t: TaskId)
    requires RunsOk(s) && Orphaned(s, t) && !step.Finalize? && !step.Finish? && Effect(s, Next(s, step), step.ContinueTask?)
    ensures Orphaned(Next(s, step), t)
  {
    var s' := Next(s, step);
    NoNewFinalizing(s, step);
    OnlyCreateAdds(s, step);
    forall c | 0 <= c < |s'.db.tasks|
      ensures s'.db.tasks[c].parent != Some(t)
    {
      if c < |s.db.tasks| {
        assert RowEffect(s, s', c, step.ContinueTask?);
      } else {
        assert step.Create?;
      }
    }
    assert RowEffect(s, s', t, step.ContinueTask?);
  }

  lemma NoNewFinalizing(s: State, step: Step)
    requires !step.Finalize? && !step.Finish?
    ensures forall r :: r in Next(s, step).runs && Next(s, step).runs[r].pc.Finalizing? ==> r in s.runs && s.runs[r] == Next(s, step).runs[r]
  {
    match step {
      case Meter(r) =>
      case Begin(r, costReached) =>
      case Reap(stale) =>
      case Create(_, _, _, _, _, _) =>
      case _ =>
    }
  }

  /**
   Redelivery does not bring back a propagation: once the run between `done` and its propagation is
   lost, the task has no child in any continuation, whatever is redelivered, swept or continued.
   */
  lemma {:induction false} LostPropagationStaysLost(s: State, steps: seq<Step>, t: TaskId)
    requires Inv(s) && Orphaned(s, t)
    ensures Orphaned(After(s, steps), t)
    decreases |steps|
  {
    if steps != [] {
      LostPropagationStaysLost(s, steps[..|steps| - 1], t);
      ReachableInv(s, steps[..|steps| - 1]);
      StepOrphan(After(s, steps[..|steps| - 1]), steps[|steps| - 1], t);
    }
  }

  /** And losing the worker in between is all it takes, for any coding task that finishes. */
  lemma LosingTheWorkerOrphans(s: State, r: RunId, t: TaskId, output: string)
    requires Inv(s) && RunAt(s, r, Executing) && s.runs[r].task == t
    requires s.db.tasks[t].engine.AgentSdk? && s.db.tasks[t].status.Working?
    ensures Orphaned(Next(Next(s, Finish(r, Finished(output))), WorkerLost(r)), t)
  {
    var m := RecordedRun(s, r, Finished(output));
    RecordInv(s, r, Finished(output));
    RecordedRow(s.db, t, Finished(output));
    LostAfterDone(s, r, t, output);
  }

  lemma LostAfterDone(s: State, r: RunId, t: TaskId, output: string)
    requires RunsOk(s) && TreeOk(s) && RunAt(s, r, Executing) && s.runs[r].task == t
    requires s.db.tasks[t].engine.AgentSdk? && s.db.tasks[t].status.Working?
    ensures Orphaned(Next(Next(s, Finish(r, Finished(output))), WorkerLost(r)), t)
  {
    var m := RecordedRun(s, r, Finished(output));
    assert Next(s, Finish(r, Finished(output))) == m;
    var s' := Released(m, r);
    assert Next(m, WorkerLost(r)).db == m.db && Next(m, WorkerLost(r)).runs == s'.runs;
    forall q | q in s'.runs
      ensures s'.runs[q] != Run(t, Finalizing)
    {
      assert q != r && s.runs[q] == s'.runs[q];
    }
    forall c | 0 <= c < |m.db.tasks|
      ensures m.db.tasks[c].parent != Some(t)
    {
      assert m.db.tasks[c].parent == s.db.tasks[c].parent;
    }
  }

  // --- an undisturbed run ---

  // Dispatch, metering, outcome and propagation of one delivery, each in its own step.
  ghost function Undisturbed(s: State, r: RunId, costReached: bool, o: Outcome): State {
    FinalizedRun(FinishedRun(MeteredRun(Begun(s, r, costReached), r), r, o), r)
  }

  lemma RefusedRun(s: State, r: RunId, t: TaskId, costReached: bool, o: Outcome)
    requires RunsOk(s) && r in s.runs && s.runs[r] == Run(t, Waiting)
    requires !(t < |s.db.tasks| && Dispatchable(s.db, t, costReached))
    ensures Undisturbed(s, r, costReached, o).db == s.db
  {
    var s1 := Begun(s, r, costReached);
    assert s1 == Released(s, r);
    assert MeteredRun(s1, r) == s1;
    assert FinishedRun(s1, r, o) == s1;
  }

  lemma StartedRun(s: State, r: RunId, t: TaskId, costReached: bool)
    requires RunsOk(s) && AgentsOk(s) && r in s.runs && s.runs[r] == Run(t, Waiting)
    requires t < |s.db.tasks| && Dispatchable(s.db, t, costReached)
    ensures var s1 := Begun(s, r, costReached); var (db, m) := Metered(Dispatched(s.db, t, costReached), t); var s2 := MeteredRun(s1, r);
      && s2.db == db && (m.Go? <==> r in s2.runs) && (m.Go? ==> RunAt(s2, r, Executing) && s2.runs[r].task == t)
      && (m.Go? ==> db.tasks == Dispatched(s.db, t, costReached).tasks)
  {
    assert RunAt(Begun(s, r, costReached), r, Starting);
  }

  lemma GoneRun(s: State, r: RunId, o: Outcome)
    requires r !in s.runs
    ensures FinalizedRun(FinishedRun(s, r, o), r).db == s.db
  {
  }

  lemma ExecutedRun(s: State, r: RunId, t: TaskId, o: Outcome)
    requires RunAt(s, r, Executing) && s.runs[r].task == t && s.db.tasks[t].status.Working?
    ensures Recorded(s.db, t, o).Some?
    ensures var recorded := Recorded(s.db, t, o).value;
      FinalizedRun(FinishedRun(s, r, o), r).db
        == if o.Finished? && t < |recorded.tasks| then Propagated(recorded, t).0 else recorded
  {
    RecordedRow(s.db, t, o);
    var m := RecordedRun(s, r, o);
    if o.Finished? {
      assert RunAt(m, r, Finalizing);
      assert FinalizedRun(FinalizedRun(m, r), r) == FinalizedRun(m, r);
    } else {
      assert r !in m.runs;
    }
  }

  lemma UndisturbedInSteps(s: State, r: RunId, costReached: bool, o: Outcome)
    ensures Undisturbed(s, r, costReached, o) == Next(Next(Next(Next(s, Begin(r, costReached)), Meter(r)), Finish(r, o)), Finalize(r))
  {
  }

  /** Left alone, the worker's transactions add up to the pipeline as one would read it. */
  lemma UndisturbedRunIsThePipeline(s: State, r: RunId, t: TaskId, costReached: bool, o: Outcome)
    requires Inv(s) && r in s.runs && s.runs[r] == Run(t, Waiting)
    ensures Undisturbed(s, r, costReached, o).db == Processed(s.db, t, costReached, o).0
    ensures Undisturbed(s, r, costReached, o) == Next(Next(Next(Next(s, Begin(r, costReached)), Meter(r)), Finish(r, o)), Finalize(r))
  {
    UndisturbedInSteps(s, r, costReached, o);
    if t < |s.db.tasks| && Dispatchable(s.db, t, costReached) {
      var s2 := MeteredRun(Begun(s, r, costReached), r);
      StartedRun(s, r, t, costReached);
      if r in s2.runs {
        ExecutedRun(s2, r, t, o);
        RecordedRow(s2.db, t, o);
      } else {
        GoneRun(s2, r, o);
      }
    } else {
      RefusedRun(s, r, t, costReached, o);
    }
  }
}
