/** Charges and refunds of a task over whole runs: which runs refund what was never charged, and what a task cost in the end. */
module KernelRefunds {
  import opened Common
  import opened Schema
  import opened TaskService
  import opened GraphEngine
  import opened WorkerCore
  import opened Kernel
  import opened KernelSafety
  import opened KernelTheorems
  import CreditService
  import EdgeOps

  // No task has more refunds than charges.
  ghost predicate Covered(d: Db) {
    forall t: TaskId :: Refunds(d, t) <= Charges(d, t)
  }

  // The reaper takes a working task for a charged one. That is wrong for a task whose worker died
  // between dispatch and charge, if there is an account to refund to.
  predicate ChargedIfReaped(d: Db, t: TaskId) {
    t < |d.tasks| && d.tasks[t].status.Working? && d.tasks[t].user in d.books.accounts ==> Charges(d, t) > 0
  }

  ghost predicate ReapsCharged(s: State, step: Step) {
    step.Reap? ==> forall t :: t in step.stale ==> ChargedIfReaped(s.db, t)
  }

  ghost predicate AlwaysReapsCharged(s: State, steps: seq<Step>) {
    steps == [] || (var front := steps[..|steps| - 1];
      AlwaysReapsCharged(s, front) && ReapsCharged(After(s, front), steps[|steps| - 1]))
  }

  ghost predicate AlwaysCovered(s: State, steps: seq<Step>) {
    Covered(After(s, steps).db) && (steps == [] || AlwaysCovered(s, steps[..|steps| - 1]))
  }

  ghost predicate ExecutingCharged(s: State) {
    forall r :: r in s.runs && s.runs[r].pc.Executing? ==> Charges(s.db, s.runs[r].task) > 0
  }

  // --- the lines one step writes ---

  ghost predicate SameLines(d: Db, d': Db) {
    forall t: TaskId :: Charges(d', t) == Charges(d, t) && Refunds(d', t) == Refunds(d, t)
  }

  lemma OtherLines(s: State, step: Step)
    requires !step.Meter? && !step.Finish? && !step.Finalize? && !step.Reap?
    ensures SameLines(s.db, Next(s, step).db)
    ensures forall r :: r in Next(s, step).runs && Next(s, step).runs[r].pc.Executing? ==> r in s.runs && s.runs[r] == Next(s, step).runs[r]
  {
    forall t: TaskId
      ensures Charges(Next(s, step).db, t) == Charges(s.db, t) && Refunds(Next(s, step).db, t) == Refunds(s.db, t)
    {
      OtherLinesOf(s, step, t);
    }
  }

  lemma OtherLinesOf(s: State, step: Step, t: TaskId)
    requires !step.Meter? && !step.Finish? && !step.Finalize? && !step.Reap?
    ensures Charges(Next(s, step).db, t) == Charges(s.db, t) && Refunds(Next(s, step).db, t) == Refunds(s.db, t)
  {
    if step.GrantCredits? {
      SignupLines(s.db.books, step.user, CreditService.SIGNUP_CREDITS, t, TaskCharge);
      SignupLines(s.db.books, step.user, CreditService.SIGNUP_CREDITS, t, RefundSystemFailure);
    } else if step.StripeWebhook? {
      EventLines(s.db.books, step.event, t, TaskCharge);
      EventLines(s.db.books, step.event, t, RefundSystemFailure);
    } else {
      assert Next(s, step).db.books == s.db.books;
    }
  }

  // A refund writes one line, unless there is no account to refund to.
  lemma RefundLine(d: Db, t: TaskId)
    requires t < |d.tasks| && d.tasks[t].agent in d.agents && d.config.billing
    ensures var d' := Refunded(d, t);
      && (forall x: TaskId :: Charges(d', x) == Charges(d, x))
      && (forall x: TaskId :: Refunds(d', x) == Refunds(d, x) + (if x == t && d.tasks[t].user in d.books.accounts then 1 else 0))
  {
    var d' := Refunded(d, t);
    RefundLines(d.books, d.tasks[t].user, t, CreditService.CreditCost(TierOf(d, t)));
    if d.tasks[t].user in d.books.accounts {
      LinesForPush(d.books.ledger, d'.books.ledger[|d.books.ledger|], t, RefundSystemFailure);
    }
  }

  predicate PaidBack(d: Db, t: TaskId) {
    t < |d.tasks| && d.tasks[t].status.Working? && d.tasks[t].user in d.books.accounts
  }

  lemma {:induction false} ReapedLines(d: Db, stale: seq<TaskId>)
    requires d.config.billing && forall i :: 0 <= i < |d.tasks| ==> d.tasks[i].agent in d.agents
    ensures var d' := Reaped(d, stale);
      && d'.books.accounts.Keys == d.books.accounts.Keys
      && (forall x: TaskId :: Charges(d', x) == Charges(d, x))
      && (forall x: TaskId :: Refunds(d', x) == Refunds(d, x) + (if x in stale && PaidBack(d, x) then 1 else 0))
    decreases |stale|
  {
    if stale != [] {
      var front := stale[..|stale| - 1];
      var t := stale[|stale| - 1];
      assert stale == front + [t];
      ReapedLines(d, front);
      ReapedRows(d, front);
      var m := Reaped(d, front);
      if t < |m.tasks| && m.tasks[t].status.Working? {
        RefundLine(m, t);
      }
      forall x: TaskId
        ensures Refunds(Reaped(d, stale), x) == Refunds(d, x) + (if x in stale && PaidBack(d, x) then 1 else 0)
      {
        assert x in stale <==> x in front || x == t;
      }
    }
  }

  lemma MeterLines(s: State, r: RunId)
    requires RunAt(s, r, Starting) && s.db.config.billing
    ensures var s' := MeteredRun(s, r);
      && (forall x: TaskId :: Refunds(s'.db, x) == Refunds(s.db, x) && Charges(s.db, x) <= Charges(s'.db, x))
      && (r in s'.runs ==> Charges(s'.db, s.runs[r].task) > 0)
  {
    var t := s.runs[r].task;
    ChargeLines(s.db.books, s.db.tasks[t].user, t, TierOf(s.db, t));
  }

  lemma RecordLines(s: State, r: RunId, o: Outcome)
    requires RunAt(s, r, Executing) && s.db.config.billing
    ensures var s' := RecordedRun(s, r, o);
      && (forall x: TaskId :: Charges(s'.db, x) == Charges(s.db, x))
      && (forall x: TaskId :: x != s.runs[r].task ==> Refunds(s'.db, x) == Refunds(s.db, x))
  {
    if o.SystemFailure? {
      RefundLine(s.db, s.runs[r].task);
    }
  }

  // --- exactly which runs are covered ---

  lemma StepCovered(s: State, step: Step)
    requires Inv(s) && s.db.config.billing && Covered(s.db) && ExecutingCharged(s)
    ensures Covered(Next(s, step).db) <==> ReapsCharged(s, step)
    ensures Covered(Next(s, step).db) ==> ExecutingCharged(Next(s, step))
  {
    if step.Meter? {
      MeterCovered(s, step.run);
    } else if step.Finish? {
      FinishCovered(s, step.run, step.outcome);
    } else if step.Finalize? {
      FinalizeSame(s, step.run);
    } else if step.Reap? {
      ReapCovered(s, step.stale);
    } else {
      OtherLines(s, step);
    }
  }

  lemma MeterCovered(s: State, r: RunId)
    requires s.db.config.billing && Covered(s.db) && ExecutingCharged(s)
    ensures Covered(MeteredRun(s, r).db) && ExecutingCharged(MeteredRun(s, r))
  {
    if RunAt(s, r, Starting) {
      MeterLines(s, r);
      MeterMoves(s, r);
    }
  }

  lemma MeterMoves(s: State, r: RunId)
    requires RunAt(s, r, Starting)
    ensures forall q :: q in MeteredRun(s, r).runs && q != r ==> q in s.runs && s.runs[q] == MeteredRun(s, r).runs[q]
    ensures r in MeteredRun(s, r).runs ==> MeteredRun(s, r).runs[r].task == s.runs[r].task
  {
  }

  lemma FinalizeSame(s: State, r: RunId)
    ensures SameLines(s.db, FinalizedRun(s, r).db)
    ensures forall q :: q in FinalizedRun(s, r).runs ==> q in s.runs && s.runs[q] == FinalizedRun(s, r).runs[q]
  {
    assert FinalizedRun(s, r).db.books == s.db.books;
  }

  lemma RecordMoves(s: State, r: RunId, o: Outcome)
    ensures forall q :: q in RecordedRun(s, r, o).runs && RecordedRun(s, r, o).runs[q].pc.Executing? ==> q in s.runs && s.runs[q] == RecordedRun(s, r, o).runs[q]
  {
  }

  lemma RecordCovered(s: State, r: RunId, o: Outcome)
    requires s.db.config.billing && Covered(s.db) && ExecutingCharged(s) && MoneyOk(RecordedRun(s, r, o))
    ensures Covered(RecordedRun(s, r, o).db) && ExecutingCharged(RecordedRun(s, r, o))
  {
    var m := RecordedRun(s, r, o);
    RecordMoves(s, r, o);
    if RunAt(s, r, Executing) {
      RecordLines(s, r, o);
      RefundsAtMostOne(m, s.runs[r].task);
    }
  }

  lemma RefundsAtMostOne(s: State, t: TaskId)
    requires MoneyOk(s)
    ensures Refunds(s.db, t) <= 1
  {
  }

  lemma FinishCovered(s: State, r: RunId, o: Outcome)
    requires Inv(s) && s.db.config.billing && Covered(s.db) && ExecutingCharged(s)
    ensures Covered(FinishedRun(s, r, o).db) && ExecutingCharged(FinishedRun(s, r, o))
  {
    RecordInv(s, r, o);
    RecordCovered(s, r, o);
    FinalizeSame(RecordedRun(s, r, o), r);
  }

  lemma ReapCovered(s: State, stale: seq<TaskId>)
    requires Inv(s) && s.db.config.billing && Covered(s.db) && ExecutingCharged(s)
    ensures Covered(Reaped(s.db, stale)) <==> ReapsCharged(s, Reap(stale))
    ensures ExecutingCharged(s.(db := Reaped(s.db, stale)))
  {
    var d' := Reaped(s.db, stale);
    ReapedLines(s.db, stale);
    ReapInv(s, stale);
    forall t: TaskId | t in stale && !ChargedIfReaped(s.db, t)
      ensures Refunds(d', t) > Charges(d', t)
    {
    }
    if ReapsCharged(s, Reap(stale)) {
      forall t: TaskId
        ensures Refunds(d', t) <= Charges(d', t)
      {
        if t in stale && PaidBack(s.db, t) {
          assert ChargedIfReaped(s.db, t);
        }
      }
    }
  }

  /**
   In total, no task is ever refunded more often than it was charged, exactly in those runs where
   the reaper never meets a working task that was never charged. KernelEntryRefunds looks at every
   entry into working by itself.
   */
  lemma {:induction false} RefundsAreCoveredExactlyWhen(config: Config, agents: map<AgentId, Agent>, steps: seq<Step>)
    requires config.billing
    ensures AlwaysCovered(Start(config, agents), steps) <==> AlwaysReapsCharged(Start(config, agents), steps)
    ensures AlwaysCovered(Start(config, agents), steps) ==> ExecutingCharged(After(Start(config, agents), steps))
    decreases |steps|
  {
    if steps != [] {
      var front := steps[..|steps| - 1];
      RefundsAreCoveredExactlyWhen(config, agents, front);
      if AlwaysCovered(Start(config, agents), front) {
        StartInv(config, agents);
        ReachableInv(Start(config, agents), front);
        ConfigFixed(Start(config, agents), front);
        StepCovered(After(Start(config, agents), front), steps[|steps| - 1]);
      }
    }
  }

  // --- such a run exists ---

  /** Wherever a worker dies right after dispatching a task of a known account, the reaper pays back what was not charged. */
  lemma ReapedBeforeCharge(s: State, r: RunId, t: TaskId)
    requires Inv(s) && s.db.config.billing && r in s.runs && s.runs[r] == Run(t, Waiting)
    requires t < |s.db.tasks| && Dispatchable(s.db, t, false) && s.db.tasks[t].user in s.db.books.accounts
    ensures var d := After(s, [Begin(r, false), WorkerLost(r), Reap([t])]).db;
      Charges(d, t) == Charges(s.db, t) && Refunds(d, t) == Refunds(s.db, t) + 1
  {
    ThreeSteps(s, Begin(r, false), WorkerLost(r), Reap([t]));
    LostAfterDispatch(s, r, t);
    ReapedUnpaid(s.db, t);
  }

  lemma LostAfterDispatch(s: State, r: RunId, t: TaskId)
    requires RunsOk(s) && r in s.runs && s.runs[r] == Run(t, Waiting) && t < |s.db.tasks| && Dispatchable(s.db, t, false)
    ensures Next(Next(Next(s, Begin(r, false)), WorkerLost(r)), Reap([t])).db == Reaped(Dispatched(s.db, t, false), [t])
  {
    assert Next(Next(s, Begin(r, false)), WorkerLost(r)).db == Dispatched(s.db, t, false);
  }

  lemma ReapedUnpaid(d: Db, t: TaskId)
    requires d.config.billing && forall i :: 0 <= i < |d.tasks| ==> d.tasks[i].agent in d.agents
    requires t < |d.tasks| && Dispatchable(d, t, false) && d.tasks[t].user in d.books.accounts
    ensures var d' := Reaped(Dispatched(d, t, false), [t]);
      Charges(d', t) == Charges(d, t) && Refunds(d', t) == Refunds(d, t) + 1
  {
    var started := Dispatched(d, t, false);
    ReapedLines(started, [t]);
    assert PaidBack(started, t) && started.books == d.books;
  }

  const LIVE := Config(2, 20, true)
  const TEAM: map<AgentId, Agent> := map[0 := Agent(0, Medium, Crew)]
  const FIRST_TASK := [GrantCredits(7), Create(7, 0, None, "write", None, None), Deliver(1, 0)]

  // One task alone, delivered to one worker, with the money for it.
  ghost predicate OneWaits(s: State, r: RunId) {
    && s.db.config == LIVE && s.db.agents == TEAM && s.db.paused == {}
    && s.runs == map[r := Run(0, Waiting)] && |s.entries| == |s.db.tasks| == 1
    && s.db.tasks[0].agent == 0 && s.db.tasks[0].goal.None? && Dispatchable(s.db, 0, false)
    && s.db.tasks[0].user in s.db.books.accounts && s.db.books.accounts[s.db.tasks[0].user].balance >= 30
  }

  lemma FirstTaskWaits()
    ensures OneWaits(After(Start(LIVE, TEAM), FIRST_TASK), 1)
  {
    var s0 := Start(LIVE, TEAM);
    ThreeSteps(s0, FIRST_TASK[0], FIRST_TASK[1], FIRST_TASK[2]);
    GrantedFirst(s0);
    FirstCreated(Next(s0, FIRST_TASK[0]));
  }

  lemma GrantedFirst(s: State)
    requires s.db.books == CreditService.EMPTY_BOOKS
    ensures var s' := Next(s, FIRST_TASK[0]);
      && s' == s.(db := s.db.(books := s'.db.books))
      && 7 in s'.db.books.accounts && s'.db.books.accounts[7].balance == 500
  {
  }

  lemma FirstCreated(s: State)
    requires s.db.tasks == [] && s.entries == [] && s.db.agents == TEAM && s.db.config == LIVE && s.db.paused == {} && s.runs == map[]
    requires 7 in s.db.books.accounts && s.db.books.accounts[7].balance == 500
    ensures OneWaits(Next(Next(s, FIRST_TASK[1]), FIRST_TASK[2]), 1)
  {
    var d := Next(s, FIRST_TASK[1]).db;
    assert |d.tasks| == 1 && d.tasks[0].status.Queued? && d.tasks[0].user == 7 && d.tasks[0].agent == 0;
    assert WorkingOfAgent(d.tasks, 0) == {} && WorkingOfUser(d.tasks, 7) == {};
    assert Dispatchable(d, 0, false);
  }

  /** Such a run exists: refunded once, never charged. */
  lemma RefundWithoutCharge()
    ensures var d := After(After(Start(LIVE, TEAM), FIRST_TASK), [Begin(1, false), WorkerLost(1), Reap([0])]).db;
      Refunds(d, 0) == Charges(d, 0) + 1
  {
    var s := After(Start(LIVE, TEAM), FIRST_TASK);
    FirstTaskWaits();
    StartInv(LIVE, TEAM);
    ReachableInv(Start(LIVE, TEAM), FIRST_TASK);
    FirstTaskUnpaid();
    ReapedBeforeCharge(s, 1, 0);
  }

  lemma FirstTaskUnpaid()
    ensures var d := After(Start(LIVE, TEAM), FIRST_TASK).db; Charges(d, 0) == 0 && Refunds(d, 0) == 0
  {
    var s0 := Start(LIVE, TEAM);
    var s1 := Next(s0, FIRST_TASK[0]);
    ThreeSteps(s0, FIRST_TASK[0], FIRST_TASK[1], FIRST_TASK[2]);
    OtherLines(s0, FIRST_TASK[0]);
    OtherLines(s1, FIRST_TASK[1]);
    OtherLines(Next(s1, FIRST_TASK[1]), FIRST_TASK[2]);
  }

  // --- what a task cost in the end ---

  // The sum of all ledger lines of a task.
  function Net(ledger: seq<Entry>, t: TaskId): int {
    if ledger == [] then 0
    else
      var last := ledger[|ledger| - 1];
      Net(ledger[..|ledger| - 1], t) + (if last.task == Some(t) then last.delta else 0)
  }

  lemma NetPush(ledger: seq<Entry>, e: Entry, t: TaskId)
    ensures Net(ledger + [e], t) == Net(ledger, t) + (if e.task == Some(t) then e.delta else 0)
  {
    assert (ledger + [e])[..|ledger|] == ledger;
  }

  // Every charge of a task took the price of its agent's tier, and every refund gave it back.
  ghost predicate NetOk(d: Db) {
    && (forall t :: 0 <= t < |d.tasks| && d.tasks[t].agent in d.agents ==>
          Net(d.books.ledger, t) == (Refunds(d, t) - Charges(d, t)) * CreditService.CreditCost(TierOf(d, t)))
    && (forall t: TaskId :: t >= |d.tasks| ==> Net(d.books.ledger, t) == 0)
  }

  lemma OneMoreTimes(n: int, price: int)
    ensures (n + 1) * price == n * price + price && (n - 1) * price == n * price - price
  {
  }

  // One more line of task t: a charge or a refund at the price of its tier.
  lemma PricedLine(d: Db, d': Db, t: TaskId)
    requires NetOk(d) && t < |d.tasks| && d.tasks[t].agent in d.agents && d'.agents == d.agents
    requires |d'.tasks| == |d.tasks| && forall i :: 0 <= i < |d.tasks| ==> d'.tasks[i].agent == d.tasks[i].agent
    requires |d'.books.ledger| == |d.books.ledger| + 1 && d'.books.ledger[..|d.books.ledger|] == d.books.ledger
    requires var e := d'.books.ledger[|d.books.ledger|];
      && e.task == Some(t)
      && ((e.reason.TaskCharge? && e.delta == -CreditService.CreditCost(TierOf(d, t)))
          || (e.reason.RefundSystemFailure? && e.delta == CreditService.CreditCost(TierOf(d, t))))
    ensures NetOk(d')
  {
    var e := d'.books.ledger[|d.books.ledger|];
    assert d'.books.ledger == d.books.ledger + [e];
    forall x: TaskId
      ensures Net(d'.books.ledger, x) == Net(d.books.ledger, x) + (if x == t then e.delta else 0)
      ensures Refunds(d', x) - Charges(d', x) == Refunds(d, x) - Charges(d, x) + (if x == t then (if e.reason.TaskCharge? then -1 else 1) else 0)
    {
      NetPush(d.books.ledger, e, x);
      LinesForPush(d.books.ledger, e, x, TaskCharge);
      LinesForPush(d.books.ledger, e, x, RefundSystemFailure);
    }
    OneMoreTimes(Refunds(d, t) - Charges(d, t), CreditService.CreditCost(TierOf(d, t)));
    forall x | 0 <= x < |d'.tasks| && d'.tasks[x].agent in d'.agents
      ensures Net(d'.books.ledger, x) == (Refunds(d', x) - Charges(d', x)) * CreditService.CreditCost(TierOf(d', x))
    {
      assert TierOf(d', x) == TierOf(d, x);
      if x != t {
        assert Refunds(d', x) - Charges(d', x) == Refunds(d, x) - Charges(d, x);
      }
    }
  }

  // Nothing a task pays for: the ledger as it was, or with one more line of no task.
  ghost predicate NoTaskLine(d: Db, d': Db) {
    || d'.books.ledger == d.books.ledger
    || (|d'.books.ledger| == |d.books.ledger| + 1 && d'.books.ledger[..|d.books.ledger|] == d.books.ledger
        && d'.books.ledger[|d.books.ledger|].task.None?)
  }

  ghost predicate TiersKept(d: Db, d': Db) {
    && |d.tasks| <= |d'.tasks|
    && (forall t :: 0 <= t < |d.tasks| ==> d'.tasks[t].agent == d.tasks[t].agent)
    && (forall a :: a in d.agents ==> a in d'.agents && d'.agents[a] == d.agents[a])
  }

  lemma NoTaskLineNet(s: State, s': State)
    requires MoneyOk(s) && AgentsOk(s) && NetOk(s.db) && NoTaskLine(s.db, s'.db) && TiersKept(s.db, s'.db)
    ensures NetOk(s'.db)
  {
    forall t: TaskId
      ensures Net(s'.db.books.ledger, t) == Net(s.db.books.ledger, t)
      ensures Charges(s'.db, t) == Charges(s.db, t) && Refunds(s'.db, t) == Refunds(s.db, t)
    {
      if s'.db.books.ledger != s.db.books.ledger {
        var e := s'.db.books.ledger[|s.db.books.ledger|];
        assert s'.db.books.ledger == s.db.books.ledger + [e];
        NetPush(s.db.books.ledger, e, t);
        LinesForPush(s.db.books.ledger, e, t, TaskCharge);
        LinesForPush(s.db.books.ledger, e, t, RefundSystemFailure);
      }
    }
  }

  predicate KeepsTiers(step: Step) {
    !step.SetTier?
  }

  lemma OtherNet(s: State, step: Step)
    requires KeepsTiers(step) && !step.Meter? && !step.Finish? && !step.Finalize? && !step.Reap?
    ensures NoTaskLine(s.db, Next(s, step).db)
  {
    if step.StripeWebhook? {
      CreditService.EventLedger(s.db.books, step.event);
    } else if !step.GrantCredits? {
      assert Next(s, step).db.books == s.db.books;
    }
  }

  lemma OtherTiers(s: State, step: Step)
    requires RunsOk(s) && KeepsTiers(step) && !step.Meter? && !step.Finish? && !step.Finalize? && !step.Reap?
    ensures TiersKept(s.db, Next(s, step).db)
  {
    if step.EditEdges? {
      EditedTiers(s.db, step.op);
    } else {
      StepEffect(s, step);
      SameAgents(s, step);
      forall t | 0 <= t < |s.db.tasks|
        ensures Next(s, step).db.tasks[t].agent == s.db.tasks[t].agent
      {
        assert RowEffect(s, Next(s, step), t, step.ContinueTask?);
      }
    }
  }

  lemma BrokerKeepsDb(s: State, step: Step)
    requires step.Deliver? || step.WorkerLost? || step.WorkerRaised? || step.Enqueue? || step.LoseMessage? || step.RecoverSweep?
    ensures Next(s, step).db == s.db
  {
  }

  lemma TaskStepKeepsAgents(s: State, step: Step)
    requires step.Begin? || step.StopTask? || step.ContinueTask? || step.Create?
    ensures Next(s, step).db.agents == s.db.agents
  {
  }

  lemma SameAgents(s: State, step: Step)
    requires KeepsTiers(step) && !step.Meter? && !step.Finish? && !step.Finalize? && !step.Reap? && !step.EditEdges?
    ensures Next(s, step).db.agents == s.db.agents
  {
    if step.Begin? || step.StopTask? || step.ContinueTask? || step.Create? {
      TaskStepKeepsAgents(s, step);
    } else if !step.SetPaused? && !step.GrantCredits? && !step.StripeWebhook? {
      BrokerKeepsDb(s, step);
    }
  }

  lemma EditedTiers(d: Db, op: EdgeOps.EdgeOp)
    ensures TiersKept(d, EditedGraph(d, op))
  {
    if op.Connect? || op.Disconnect? {
      assert EdgeOps.Edited(EdgeOps.Graph(d.agents, d.edges), op).agents == d.agents;
    }
  }

  // Statuses, texts and account rows do not matter.
  lemma LedgerNet(d: Db, d': Db)
    requires NetOk(d) && d'.books.ledger == d.books.ledger && d'.agents == d.agents && |d'.tasks| == |d.tasks|
    requires forall i :: 0 <= i < |d.tasks| ==> d'.tasks[i].agent == d.tasks[i].agent
    ensures NetOk(d')
  {
    forall t: TaskId
      ensures Charges(d', t) == Charges(d, t) && Refunds(d', t) == Refunds(d, t)
    {
    }
  }

  lemma RefundedNet(d: Db, t: TaskId)
    requires NetOk(d) && t < |d.tasks| && d.tasks[t].agent in d.agents
    ensures NetOk(Refunded(d, t))
  {
    var d' := Refunded(d, t);
    if d'.books.ledger != d.books.ledger {
      PricedLine(d, d', t);
    }
  }

  lemma {:induction false} ReapedNet(d: Db, stale: seq<TaskId>)
    requires NetOk(d)
    ensures NetOk(Reaped(d, stale))
    decreases |stale|
  {
    if stale != [] {
      ReapedNet(d, stale[..|stale| - 1]);
      ReapedRows(d, stale[..|stale| - 1]);
      ReapedOneNet(Reaped(d, stale[..|stale| - 1]), stale[|stale| - 1]);
    }
  }

  lemma ReapedOneNet(d: Db, t: TaskId)
    requires NetOk(d)
    ensures NetOk(ReapedOne(d, t))
  {
    if t < |d.tasks| && d.tasks[t].status.Working? {
      var m := if d.tasks[t].agent in d.agents then Refunded(d, t) else d;
      if d.tasks[t].agent in d.agents {
        RefundedNet(d, t);
      }
      LedgerNet(m, ReapedOne(d, t));
    }
  }

  lemma MeterNet(s: State, r: RunId)
    requires NetOk(s.db)
    ensures NetOk(MeteredRun(s, r).db)
  {
    if RunAt(s, r, Starting) && s.db.config.billing {
      var t := s.runs[r].task;
      var (books, res) := CreditService.ChargePosting(s.db.books, s.db.tasks[t].user, t, TierOf(s.db, t));
      var paid := s.db.(books := books);
      if res.Success? {
        PricedLine(s.db, paid, t);
      } else {
        LedgerNet(s.db, MeteredRun(s, r).db);
      }
    }
  }

  lemma RecordNet(s: State, r: RunId, o: Outcome)
    requires NetOk(s.db)
    ensures NetOk(RecordedRun(s, r, o).db)
  {
    if RunAt(s, r, Executing) && Recorded(s.db, s.runs[r].task, o).Some? {
      var t := s.runs[r].task;
      RecordedRow(s.db, t, o);
      var m := if o.SystemFailure? then Refunded(s.db, t) else s.db;
      if o.SystemFailure? {
        RefundedNet(s.db, t);
      }
      var d' := RecordedRun(s, r, o).db;
      forall i | 0 <= i < |s.db.tasks|
        ensures d'.tasks[i].agent == m.tasks[i].agent
      {
        assert RowEvolves(s.db.tasks[i], d'.tasks[i]);
      }
      LedgerNet(m, d');
    }
  }

  lemma FinalizeNet(s: State, r: RunId)
    requires MoneyOk(s) && AgentsOk(s) && NetOk(s.db)
    ensures NetOk(FinalizedRun(s, r).db)
  {
    assert FinalizedRun(s, r).db.books == s.db.books;
    if RunAt(s, r, Finalizing) && Propagated(s.db, s.runs[r].task).1.Some? {
      SpawnedRow(s.db, s.runs[r].task);
      forall i | 0 <= i < |s.db.tasks|
        ensures FinalizedRun(s, r).db.tasks[i] == s.db.tasks[i]
      {
        assert FinalizedRun(s, r).db.tasks[..|s.db.tasks|][i] == s.db.tasks[i];
      }
    }
    NoTaskLineNet(s, FinalizedRun(s, r));
  }

  lemma StepNet(s: State, step: Step)
    requires Inv(s) && NetOk(s.db) && KeepsTiers(step)
    ensures NetOk(Next(s, step).db)
  {
    if step.Meter? {
      MeterNet(s, step.run);
    } else if step.Finish? {
      RecordNet(s, step.run, step.outcome);
      RecordInv(s, step.run, step.outcome);
      FinalizeNet(RecordedRun(s, step.run, step.outcome), step.run);
    } else if step.Finalize? {
      FinalizeNet(s, step.run);
    } else if step.Reap? {
      ReapedNet(s.db, step.stale);
    } else {
      OtherNet(s, step);
      OtherTiers(s, step);
      NoTaskLineNet(s, Next(s, step));
    }
  }

  /**
   While no tier is edited, what a task has cost is the price of its agent's tier for every charge
   that was not refunded. So a refunded task that was charged once cost nothing.
   */
  lemma {:induction false} TaskCostsItsUnrefundedCharges(config: Config, agents: map<AgentId, Agent>, steps: seq<Step>)
    requires forall step :: step in steps ==> KeepsTiers(step)
    ensures NetOk(After(Start(config, agents), steps).db)
    decreases |steps|
  {
    if steps != [] {
      var front := steps[..|steps| - 1];
      assert steps == front + [steps[|steps| - 1]];
      TaskCostsItsUnrefundedCharges(config, agents, front);
      StartInv(config, agents);
      ReachableInv(Start(config, agents), front);
      StepNet(After(Start(config, agents), front), steps[|steps| - 1]);
    }
  }
}
