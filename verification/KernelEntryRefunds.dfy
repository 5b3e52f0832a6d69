/**
 Refunds entry by entry: a task may enter working several times, and a refund should give back a
 charge made since the task entered working last.
 */
module KernelEntryRefunds {
  import opened Common
  import opened Schema
  import opened TaskService
  import opened WorkerCore
  import opened Kernel
  import opened KernelSafety
  import opened KernelTheorems
  import opened KernelRefunds

  ghost predicate ChargedBy(s: State, step: Step, t: TaskId) {
    Charges(Next(s, step).db, t) > Charges(s.db, t)
  }

  ghost predicate RefundedBy(s: State, step: Step, t: TaskId) {
    Refunds(Next(s, step).db, t) > Refunds(s.db, t)
  }

  ghost predicate EntersBy(s: State, step: Step, t: TaskId) {
    t < |s.db.tasks| && t < |Next(s, step).db.tasks| && StartsWorking(s.db.tasks[t], Next(s, step).db.tasks[t])
  }

  // Charged since it entered working last.
  ghost predicate Paid(s0: State, steps: seq<Step>, t: TaskId)
    decreases |steps|
  {
    steps != [] && (var front, last := steps[..|steps| - 1], steps[|steps| - 1];
      ChargedBy(After(s0, front), last, t) || (Paid(s0, front, t) && !EntersBy(After(s0, front), last, t)))
  }

  lemma PaidOneMore(s0: State, steps: seq<Step>, step: Step, t: TaskId)
    ensures Paid(s0, steps + [step], t)
       <==> ChargedBy(After(s0, steps), step, t) || (Paid(s0, steps, t) && !EntersBy(After(s0, steps), step, t))
  {
    assert (steps + [step])[..|steps|] == steps;
  }

  // Every refund so far was for a task charged in the same stay at work.
  ghost predicate EveryRefundPaid(s0: State, steps: seq<Step>)
    decreases |steps|
  {
    steps == [] || (var front, last := steps[..|steps| - 1], steps[|steps| - 1];
      EveryRefundPaid(s0, front) && forall t: TaskId :: RefundedBy(After(s0, front), last, t) ==> Paid(s0, front, t))
  }

  // The reaper met no working task with an account that was not charged in this stay at work.
  ghost predicate EveryReapPaid(s0: State, steps: seq<Step>)
    decreases |steps|
  {
    steps == [] || (var front, last := steps[..|steps| - 1], steps[|steps| - 1];
      EveryReapPaid(s0, front) && (last.Reap? ==> forall t :: t in last.stale && PaidBack(After(s0, front).db, t) ==> Paid(s0, front, t)))
  }

  // --- which runs execute ---

  lemma MeterCharges(s: State, r: RunId)
    requires RunAt(s, r, Starting) && s.db.config.billing && r in MeteredRun(s, r).runs
    ensures Charges(MeteredRun(s, r).db, s.runs[r].task) == Charges(s.db, s.runs[r].task) + 1
  {
    ChargeLines(s.db.books, s.db.tasks[s.runs[r].task].user, s.runs[r].task, TierOf(s.db, s.runs[r].task));
  }

  ghost predicate ExecutingIn(s: State, r: RunId, t: TaskId) {
    r in s.runs && s.runs[r] == Run(t, Executing)
  }

  // A run only comes to execute by a charge.
  lemma StepExecutes(s: State, step: Step, r: RunId, t: TaskId)
    requires s.db.config.billing && ExecutingIn(Next(s, step), r, t)
    ensures ExecutingIn(s, r, t) || ChargedBy(s, step, t)
  {
    if step.Meter? {
      if RunAt(s, step.run, Starting) {
        MeterMoves(s, step.run);
        if r == step.run {
          MeterCharges(s, r);
        }
      }
    } else if step.Finish? {
      RecordMoves(s, step.run, step.outcome);
      FinalizeSame(RecordedRun(s, step.run, step.outcome), step.run);
    } else if step.Finalize? {
      FinalizeSame(s, step.run);
    } else if !step.Reap? {
      OtherLines(s, step);
    }
  }

  // A task that is executed does not enter working a second time.
  lemma ExecutedStays(s: State, step: Step, r: RunId, t: TaskId)
    requires RunsOk(s) && ExecutingIn(s, r, t)
    ensures !EntersBy(s, step, t)
  {
    StepEffect(s, step);
    assert RowEffect(s, Next(s, step), t, step.ContinueTask?);
  }

  /** While billing is on, what executes was charged since it entered working last. */
  lemma {:induction false} ExecutingIsPaid(config: Config, agents: map<AgentId, Agent>, steps: seq<Step>, r: RunId, t: TaskId)
    requires config.billing && ExecutingIn(After(Start(config, agents), steps), r, t)
    ensures Paid(Start(config, agents), steps, t)
    decreases |steps|
  {
    if steps != [] {
      var front, last := steps[..|steps| - 1], steps[|steps| - 1];
      var s := After(Start(config, agents), front);
      StartInv(config, agents);
      ReachableInv(Start(config, agents), front);
      ConfigFixed(Start(config, agents), front);
      StepExecutes(s, last, r, t);
      if !ChargedBy(s, last, t) {
        ExecutingIsPaid(config, agents, front, r, t);
        ExecutedStays(s, last, r, t);
      }
    }
  }

  // --- which steps refund ---

  // Refunded by the engine's failure, or by the reaper.
  lemma StepRefunds(s: State, step: Step, t: TaskId)
    requires Inv(s) && s.db.config.billing
    ensures step.Reap? ==> (RefundedBy(s, step, t) <==> t in step.stale && PaidBack(s.db, t))
    ensures !step.Reap? && RefundedBy(s, step, t) ==> step.Finish? && ExecutingIn(s, step.run, t)
  {
    if step.Meter? {
      if RunAt(s, step.run, Starting) {
        MeterLines(s, step.run);
      }
    } else if step.Finish? {
      FinalizeSame(RecordedRun(s, step.run, step.outcome), step.run);
      if RunAt(s, step.run, Executing) {
        RecordLines(s, step.run, step.outcome);
      }
    } else if step.Finalize? {
      FinalizeSame(s, step.run);
    } else if step.Reap? {
      ReapedLines(s.db, step.stale);
    } else {
      OtherLines(s, step);
    }
  }

  lemma LastRefunds(config: Config, agents: map<AgentId, Agent>, front: seq<Step>, last: Step, t: TaskId)
    requires config.billing && !last.Reap? && RefundedBy(After(Start(config, agents), front), last, t)
    ensures Paid(Start(config, agents), front, t)
  {
    StartInv(config, agents);
    ReachableInv(Start(config, agents), front);
    ConfigFixed(Start(config, agents), front);
    StepRefunds(After(Start(config, agents), front), last, t);
    ExecutingIsPaid(config, agents, front, last.run, t);
  }

  lemma LastReap(config: Config, agents: map<AgentId, Agent>, front: seq<Step>, last: Step, t: TaskId)
    requires config.billing && last.Reap?
    ensures RefundedBy(After(Start(config, agents), front), last, t) <==> t in last.stale && PaidBack(After(Start(config, agents), front).db, t)
  {
    StartInv(config, agents);
    ReachableInv(Start(config, agents), front);
    ConfigFixed(Start(config, agents), front);
    StepRefunds(After(Start(config, agents), front), last, t);
  }

  /**
   Every refund gives back a charge made since the task entered working last, exactly in those runs
   where the reaper never meets a working task with an account and no charge since that entry.
   */
  lemma {:induction false} RefundsArePaidExactlyWhen(config: Config, agents: map<AgentId, Agent>, steps: seq<Step>)
    requires config.billing
    ensures EveryRefundPaid(Start(config, agents), steps) <==> EveryReapPaid(Start(config, agents), steps)
    decreases |steps|
  {
    if steps != [] {
      var front, last := steps[..|steps| - 1], steps[|steps| - 1];
      RefundsArePaidExactlyWhen(config, agents, front);
      forall t: TaskId
        ensures !last.Reap? && RefundedBy(After(Start(config, agents), front), last, t) ==> Paid(Start(config, agents), front, t)
        ensures last.Reap? ==> (RefundedBy(After(Start(config, agents), front), last, t) <==> t in last.stale && PaidBack(After(Start(config, agents), front).db, t))
      {
        if last.Reap? {
          LastReap(config, agents, front, last, t);
        } else if RefundedBy(After(Start(config, agents), front), last, t) {
          LastRefunds(config, agents, front, last, t);
        }
      }
    }
  }

  // --- runs that break it ---

  // Began again, the task is unpaid, whatever it was charged before.
  lemma BegunIsUnpaid(s0: State, steps: seq<Step>, r: RunId, t: TaskId)
    requires r in After(s0, steps).runs && After(s0, steps).runs[r] == Run(t, Waiting) && RunsOk(After(s0, steps))
    requires t < |After(s0, steps).db.tasks| && Dispatchable(After(s0, steps).db, t, false)
    ensures !Paid(s0, steps + [Begin(r, false)] + [WorkerLost(r)], t)
  {
    var s := After(s0, steps);
    var begun := steps + [Begin(r, false)];
    OneMore(s0, steps, Begin(r, false));
    PaidOneMore(s0, steps, Begin(r, false), t);
    PaidOneMore(s0, begun, WorkerLost(r), t);
    OtherLines(s, Begin(r, false));
    OtherLines(After(s0, begun), WorkerLost(r));
    assert EntersBy(s, Begin(r, false), t);
  }

  /** Whatever happened to a task of a known account before: lost between dispatch and charge and then reaped, it is refunded unpaid. */
  lemma LostEntryIsRefunded(config: Config, agents: map<AgentId, Agent>, steps: seq<Step>, r: RunId, t: TaskId)
    requires config.billing
    requires var s := After(Start(config, agents), steps);
      r in s.runs && s.runs[r] == Run(t, Waiting) && t < |s.db.tasks| && Dispatchable(s.db, t, false) && s.db.tasks[t].user in s.db.books.accounts
    ensures !EveryRefundPaid(Start(config, agents), steps + [Begin(r, false)] + [WorkerLost(r)] + [Reap([t])])
  {
    var s0 := Start(config, agents);
    var lost := steps + [Begin(r, false)] + [WorkerLost(r)];
    StartInv(config, agents);
    ReachableInv(s0, steps);
    BegunIsUnpaid(s0, steps, r, t);
    OneMore(s0, steps, Begin(r, false));
    OneMore(s0, steps + [Begin(r, false)], WorkerLost(r));
    LostStillWorks(After(s0, steps), r, t);
    LastReap(config, agents, lost, Reap([t]), t);
    assert (lost + [Reap([t])])[..|lost|] == lost;
  }

  lemma LostStillWorks(s: State, r: RunId, t: TaskId)
    requires r in s.runs && s.runs[r] == Run(t, Waiting) && RunsOk(s)
    requires t < |s.db.tasks| && Dispatchable(s.db, t, false) && s.db.tasks[t].user in s.db.books.accounts
    ensures var d := Next(Next(s, Begin(r, false)), WorkerLost(r)).db; PaidBack(d, t) && d.books == s.db.books
  {
  }

  const AGAIN := [Begin(1, false), Meter(1), Finish(1, Asked("Which?", "")), ContinueTask(0, "This."), Deliver(2, 0)]

  function AskedRow(row: Task): Task {
    row.(status := NeedsInput, awaiting := Some("Which?"), result := Some(""))
  }

  // One working task alone, held by run 1 at this point of its course.
  ghost predicate OneWorks(s: State, pc: Pc, row: Task) {
    && s.db.config == LIVE && s.db.agents == TEAM && s.runs == map[1 := Run(0, pc)] && |s.entries| == 1
    && s.db.tasks == [row] && row.status.Working? && row.agent == 0
  }

  lemma BeginsAlone(s: State)
    requires OneWaits(s, 1)
    ensures var s' := Next(s, AGAIN[0]);
      OneWorks(s', Starting, s.db.tasks[0].(status := Working)) && s'.db == s.db.(tasks := s'.db.tasks)
  {
  }

  lemma ChargesAlone(s: State, row: Task)
    requires OneWorks(s, Starting, row) && row.user in s.db.books.accounts && s.db.books.accounts[row.user].balance >= 30
    ensures var s' := Next(s, AGAIN[1]);
      && OneWorks(s', Executing, row) && s'.db == s.db.(books := s'.db.books) && s'.db.books.accounts.Keys == s.db.books.accounts.Keys
      && Charges(s'.db, 0) == Charges(s.db, 0) + 1 && Refunds(s'.db, 0) == Refunds(s.db, 0)
  {
    assert Metered(s.db, 0).1.Go?;
    MeterCharges(s, 1);
    MeterLines(s, 1);
  }

  lemma AsksAlone(s: State, row: Task)
    requires OneWorks(s, Executing, row)
    ensures var s' := Next(s, AGAIN[2]);
      s'.runs == map[] && |s'.entries| == 1 && s'.db == s.db.(tasks := [AskedRow(row)])
  {
    assert s.runs - {1} == map[];
    assert RecordedRun(s, 1, AGAIN[2].outcome).db.tasks == [AskedRow(row)];
  }

  lemma WaitsAgain(s: State)
    requires s.db.config == LIVE && s.runs == map[] && |s.entries| == |s.db.tasks| == 1 && s.db.tasks[0].status.NeedsInput?
    requires s.db.paused == {} && s.db.tasks[0].goal.None?
    ensures var s' := Next(Next(s, AGAIN[3]), AGAIN[4]);
      && s'.db.books == s.db.books && s'.runs == map[2 := Run(0, Waiting)] && |s'.db.tasks| == 1
      && s'.db.tasks[0].user == s.db.tasks[0].user && Dispatchable(s'.db, 0, false)
  {
    var d := Next(s, AGAIN[3]).db;
    assert |d.tasks| == 1 && d.tasks[0].status.Queued?;
    assert WorkingOfAgent(d.tasks, d.tasks[0].agent) == {} && WorkingOfUser(d.tasks, d.tasks[0].user) == {};
    assert Dispatchable(d, 0, false);
  }

  lemma WorksAndWaitsAgain(s: State)
    requires OneWaits(s, 1)
    ensures var s' := After(s, AGAIN);
      && s'.runs == map[2 := Run(0, Waiting)] && |s'.db.tasks| == 1 && Dispatchable(s'.db, 0, false)
      && s'.db.tasks[0].user in s'.db.books.accounts && Charges(s'.db, 0) > 0
  {
    var row := s.db.tasks[0].(status := Working);
    ThreeSteps(s, AGAIN[0], AGAIN[1], AGAIN[2]);
    BeginsAlone(s);
    var s1 := Next(s, AGAIN[0]);
    ChargesAlone(s1, row);
    var s2 := Next(s1, AGAIN[1]);
    AsksAlone(s2, row);
    WaitsAgain(Next(s2, AGAIN[2]));
    AfterJoined(s, AGAIN[..3], AGAIN[3..]);
    TwoSteps(Next(s2, AGAIN[2]), AGAIN[3], AGAIN[4]);
    assert AGAIN[..3] == [AGAIN[0], AGAIN[1], AGAIN[2]] && AGAIN[3..] == [AGAIN[3], AGAIN[4]] && AGAIN == AGAIN[..3] + AGAIN[3..];
  }

  lemma {:induction false} NoReapIsCharged(s: State, steps: seq<Step>)
    requires forall step :: step in steps ==> !step.Reap?
    ensures AlwaysReapsCharged(s, steps)
    decreases |steps|
  {
    if steps != [] {
      assert steps == steps[..|steps| - 1] + [steps[|steps| - 1]];
      NoReapIsCharged(s, steps[..|steps| - 1]);
    }
  }

  lemma WaitsChargedOnce()
    ensures var s := After(Start(LIVE, TEAM), FIRST_TASK + AGAIN);
      && 2 in s.runs && s.runs[2] == Run(0, Waiting) && |s.db.tasks| == 1 && Dispatchable(s.db, 0, false)
      && s.db.tasks[0].user in s.db.books.accounts && Charges(s.db, 0) > 0
  {
    FirstTaskWaits();
    AfterJoined(Start(LIVE, TEAM), FIRST_TASK, AGAIN);
    WorksAndWaitsAgain(After(Start(LIVE, TEAM), FIRST_TASK));
  }

  lemma ChargedStaysCharged(s0: State, steps: seq<Step>, r: RunId, t: TaskId)
    requires Charges(After(s0, steps).db, t) > 0
    ensures Charges(After(s0, steps + [Begin(r, false)] + [WorkerLost(r)]).db, t) > 0
  {
    OneMore(s0, steps, Begin(r, false));
    OneMore(s0, steps + [Begin(r, false)], WorkerLost(r));
    OtherLines(After(s0, steps), Begin(r, false));
    OtherLines(After(s0, steps + [Begin(r, false)]), WorkerLost(r));
  }

  // The run continued by an attempt that is lost between dispatch and charge, and reaped.
  function LostAgain(steps: seq<Step>, r: RunId, t: TaskId): seq<Step> {
    steps + [Begin(r, false)] + [WorkerLost(r)] + [Reap([t])]
  }

  lemma ReapedWhenCharged(s: State, steps: seq<Step>, t: TaskId)
    requires AlwaysReapsCharged(s, steps) && Charges(After(s, steps).db, t) > 0
    ensures AlwaysReapsCharged(s, steps + [Reap([t])])
  {
    assert (steps + [Reap([t])])[..|steps|] == steps;
  }

  lemma LostAfterCharge(config: Config, agents: map<AgentId, Agent>, steps: seq<Step>, r: RunId, t: TaskId)
    requires config.billing && forall step :: step in steps ==> !step.Reap?
    requires var s := After(Start(config, agents), steps);
      && r in s.runs && s.runs[r] == Run(t, Waiting) && t < |s.db.tasks| && Dispatchable(s.db, t, false)
      && s.db.tasks[t].user in s.db.books.accounts && Charges(s.db, t) > 0
    ensures AlwaysCovered(Start(config, agents), LostAgain(steps, r, t)) && !EveryRefundPaid(Start(config, agents), LostAgain(steps, r, t))
  {
    var s0 := Start(config, agents);
    var lost := steps + [Begin(r, false)] + [WorkerLost(r)];
    LostEntryIsRefunded(config, agents, steps, r, t);
    NoReapIsCharged(s0, lost);
    ChargedStaysCharged(s0, steps, r, t);
    ReapedWhenCharged(s0, lost, t);
    RefundsAreCoveredExactlyWhen(config, agents, LostAgain(steps, r, t));
  }

  /**
   Totals per task do not show it: a run in which refunds never outnumber charges, because the task
   reaped had been charged in an earlier attempt, which ran, and is paid back for one that did not.
   */
  lemma TotalsHideUnpaidRefund()
    ensures var steps := LostAgain(FIRST_TASK + AGAIN, 2, 0);
      AlwaysCovered(Start(LIVE, TEAM), steps) && !EveryRefundPaid(Start(LIVE, TEAM), steps)
  {
    WaitsChargedOnce();
    LostAfterCharge(LIVE, TEAM, FIRST_TASK + AGAIN, 2, 0);
  }
}
