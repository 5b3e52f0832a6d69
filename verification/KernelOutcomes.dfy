/** What the outcome of a run comes to, for the money and for the task's row. */
module KernelOutcomes {
  import opened Schema
  import opened TaskService
  import opened WorkerCore
  import opened Kernel
  import opened KernelSafety
  import opened KernelTheorems
  import opened KernelRefunds
  import opened KernelEntryRefunds
  import CreditService

  // --- refunds, exactly ---

  // The engine failed on a working task, or the reaper took it; and there is an account to refund to.
  ghost predicate Owed(s: State, step: Step, t: TaskId) {
    PaidBack(s.db, t) && ((step.Finish? && ExecutingIn(s, step.run, t) && step.outcome.SystemFailure?) || (step.Reap? && t in step.stale))
  }

  lemma FinishRefunds(s: State, r: RunId, o: Outcome, t: TaskId)
    requires RunsOk(s) && s.db.config.billing
    ensures Refunds(FinishedRun(s, r, o).db, t)
         == Refunds(s.db, t) + (if PaidBack(s.db, t) && RunAt(s, r, Executing) && s.runs[r].task == t && o.SystemFailure? then 1 else 0)
  {
    FinalizeSame(RecordedRun(s, r, o), r);
    RecordRefunds(s, r, o, t);
  }

  lemma RecordRefunds(s: State, r: RunId, o: Outcome, t: TaskId)
    requires RunsOk(s) && s.db.config.billing
    ensures Refunds(RecordedRun(s, r, o).db, t)
         == Refunds(s.db, t) + (if PaidBack(s.db, t) && RunAt(s, r, Executing) && s.runs[r].task == t && o.SystemFailure? then 1 else 0)
  {
    if RunAt(s, r, Executing) {
      RecordLines(s, r, o);
      if t == s.runs[r].task {
        OwnRefund(s.db, t, o);
      }
    }
  }

  // What recording an outcome refunds of the run's own task.
  lemma OwnRefund(d: Db, t: TaskId, o: Outcome)
    requires t < |d.tasks| && d.tasks[t].agent in d.agents && d.config.billing && HoldAllows(Executing, d.tasks[t].status)
    ensures Refunds(Recorded(d, t, o).GetOr(d), t) == Refunds(d, t) + (if PaidBack(d, t) && o.SystemFailure? then 1 else 0)
  {
    RecordedBooks(d, t, o);
    if o.SystemFailure? && d.tasks[t].status.Working? {
      RefundLine(d, t);
    }
  }

  lemma RecordedBooks(d: Db, t: TaskId, o: Outcome)
    requires t < |d.tasks| && d.tasks[t].agent in d.agents && HoldAllows(Executing, d.tasks[t].status)
    ensures Recorded(d, t, o).GetOr(d).books == if o.SystemFailure? && d.tasks[t].status.Working? then Refunded(d, t).books else d.books
  {
  }

  /** A step refunds a task once if it is owed a refund, and otherwise not at all. */
  lemma StepRefundsExactly(s: State, step: Step, t: TaskId)
    requires Inv(s) && s.db.config.billing
    ensures Refunds(Next(s, step).db, t) == Refunds(s.db, t) + (if Owed(s, step, t) then 1 else 0)
  {
    if step.Finish? {
      FinishRefunds(s, step.run, step.outcome, t);
    } else if step.Reap? {
      ReapedLines(s.db, step.stale);
    } else if step.Meter? {
      if RunAt(s, step.run, Starting) {
        MeterLines(s, step.run);
      }
    } else if step.Finalize? {
      FinalizeSame(s, step.run);
    } else {
      OtherLines(s, step);
    }
  }

  ghost function TimesOwed(s0: State, steps: seq<Step>, t: TaskId): nat {
    if steps == [] then 0
    else
      var front := steps[..|steps| - 1];
      TimesOwed(s0, front, t) + (if Owed(After(s0, front), steps[|steps| - 1], t) then 1 else 0)
  }

  /** In every run a task has exactly as many refund lines as it was owed refunds: for each failure of the engine and each reaping at work, and for nothing else. */
  lemma {:induction false} RefundsAreExactlyOwed(config: Config, agents: map<AgentId, Agent>, steps: seq<Step>, t: TaskId)
    requires config.billing
    ensures Refunds(After(Start(config, agents), steps).db, t) == TimesOwed(Start(config, agents), steps, t)
    decreases |steps|
  {
    if steps != [] {
      var front := steps[..|steps| - 1];
      RefundsAreExactlyOwed(config, agents, front, t);
      StartInv(config, agents);
      ReachableInv(Start(config, agents), front);
      ConfigFixed(Start(config, agents), front);
      StepRefundsExactly(After(Start(config, agents), front), steps[|steps| - 1], t);
    }
  }

  // --- what a run costs ---

  function BalanceOf(d: Db, u: UserId): int {
    if u in d.books.accounts then d.books.accounts[u].balance else 0
  }

  lemma ChargedBalance(d: Db, t: TaskId)
    requires t < |d.tasks| && d.tasks[t].agent in d.agents && d.config.billing && Metered(d, t).1.Go?
    ensures var d' := Metered(d, t).0;
      && d'.tasks == d.tasks && d'.agents == d.agents && d'.config == d.config
      && d.tasks[t].user in d'.books.accounts
      && forall u :: BalanceOf(d', u) == BalanceOf(d, u) - (if u == d.tasks[t].user then CreditService.CreditCost(TierOf(d, t)) else 0)
  {
  }

  lemma RefundedBalance(d: Db, t: TaskId)
    requires t < |d.tasks| && d.tasks[t].agent in d.agents && d.config.billing && d.tasks[t].user in d.books.accounts
    ensures forall u :: BalanceOf(Refunded(d, t), u) == BalanceOf(d, u) + (if u == d.tasks[t].user then CreditService.CreditCost(TierOf(d, t)) else 0)
  {
  }

  lemma FinishedBalance(s: State, r: RunId, t: TaskId, o: Outcome)
    requires RunAt(s, r, Executing) && s.runs[r].task == t && s.db.config.billing && PaidBack(s.db, t)
    ensures var back := if o.SystemFailure? then CreditService.CreditCost(TierOf(s.db, t)) else 0;
      forall u :: BalanceOf(FinishedRun(s, r, o).db, u) == BalanceOf(s.db, u) + (if u == s.db.tasks[t].user then back else 0)
  {
    assert FinalizedRun(RecordedRun(s, r, o), r).db.books == RecordedRun(s, r, o).db.books;
    if o.SystemFailure? {
      RefundedBalance(s.db, t);
    }
  }

  lemma ChargedRun(s: State, r: RunId, t: TaskId, costReached: bool)
    requires RunsOk(s) && AgentsOk(s) && s.db.config.billing && r in s.runs && s.runs[r] == Run(t, Waiting)
    requires t < |s.db.tasks| && Dispatchable(s.db, t, costReached)
    requires r in MeteredRun(Begun(s, r, costReached), r).runs
    ensures var s2 := MeteredRun(Begun(s, r, costReached), r);
      && RunAt(s2, r, Executing) && s2.runs[r].task == t && s2.db.config == s.db.config && PaidBack(s2.db, t)
      && s2.db.tasks[t].user == s.db.tasks[t].user && TierOf(s2.db, t) == TierOf(s.db, t)
      && forall u :: BalanceOf(s2.db, u) == BalanceOf(s.db, u) - (if u == s.db.tasks[t].user then CreditService.CreditCost(TierOf(s.db, t)) else 0)
  {
    var s1 := Begun(s, r, costReached);
    assert RunAt(s1, r, Starting);
    ChargedBalance(s1.db, t);
  }

  lemma ChargedAndFinished(s: State, r: RunId, t: TaskId, costReached: bool, o: Outcome)
    requires RunsOk(s) && AgentsOk(s) && s.db.config.billing && r in s.runs && s.runs[r] == Run(t, Waiting)
    requires t < |s.db.tasks| && Dispatchable(s.db, t, costReached)
    requires r in MeteredRun(Begun(s, r, costReached), r).runs
    ensures var d := FinishedRun(MeteredRun(Begun(s, r, costReached), r), r, o).db;
      var taken := if o.SystemFailure? then 0 else CreditService.CreditCost(TierOf(s.db, t));
      forall u :: BalanceOf(d, u) == BalanceOf(s.db, u) - (if u == s.db.tasks[t].user then taken else 0)
  {
    ChargedRun(s, r, t, costReached);
    FinishedBalance(MeteredRun(Begun(s, r, costReached), r), r, t, o);
  }

  // Every balance but that of `payer` is as it was, and that one is lower by `price`.
  ghost predicate PaidBy(d: Db, d': Db, payer: UserId, price: int) {
    forall u :: BalanceOf(d', u) == BalanceOf(d, u) - (if u == payer then price else 0)
  }

  /**
   Left alone, a run that is charged takes the price of the agent's tier from the task's user and
   from nobody else, unless the failure is ours: then every balance is where it was.
   */
  lemma OnlyOurFailuresAreFree(s: State, r: RunId, t: TaskId, costReached: bool, o: Outcome)
    requires Inv(s) && s.db.config.billing && r in s.runs && s.runs[r] == Run(t, Waiting)
    requires t < |s.db.tasks| && Dispatchable(s.db, t, costReached)
    requires r in MeteredRun(Begun(s, r, costReached), r).runs
    ensures var s' := After(s, [Begin(r, costReached), Meter(r), Finish(r, o)]);
      PaidBy(s.db, s'.db, s.db.tasks[t].user, if o.SystemFailure? then 0 else CreditService.CreditCost(TierOf(s.db, t)))
  {
    ThreeSteps(s, Begin(r, costReached), Meter(r), Finish(r, o));
    ChargedAndFinished(s, r, t, costReached, o);
  }
}
