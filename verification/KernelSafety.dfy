/** Every step of the kernel keeps its invariants; so every reachable state has them. */
module KernelSafety {
  import opened Common
  import opened Schema
  import opened TaskService
  import opened GraphEngine
  import opened WorkerCore
  import opened Kernel
  import CreditService
  import EdgeOps

  // --- ledger lines written by the steps ---

  lemma ChargeLines(b: Books, u: UserId, t: TaskId, tier: Tier)
    ensures var (c, res) := CreditService.ChargePosting(b, u, t, tier);
            && (res.Failure? ==> c.ledger == b.ledger)
            && forall x: TaskId, reason: Reason ::
                 LinesFor(c.ledger, x, reason) == LinesFor(b.ledger, x, reason) + (if res.Success? && x == t && reason.TaskCharge? then 1 else 0)
  {
    var (c, res) := CreditService.ChargePosting(b, u, t, tier);
    if res.Success? {
      forall x: TaskId, reason: Reason
        ensures LinesFor(c.ledger, x, reason) == LinesFor(b.ledger, x, reason) + (if x == t && reason.TaskCharge? then 1 else 0)
      {
        LinesForPush(b.ledger, c.ledger[|b.ledger|], x, reason);
      }
    }
  }

  lemma RefundLines(b: Books, u: UserId, t: TaskId, credits: int)
    ensures var c := CreditService.RefundPosting(b, u, t, credits);
            forall x: TaskId, reason: Reason ::
              LinesFor(b.ledger, x, reason) <= LinesFor(c.ledger, x, reason)
                <= LinesFor(b.ledger, x, reason) + (if x == t && reason.RefundSystemFailure? then 1 else 0)
  {
    var c := CreditService.RefundPosting(b, u, t, credits);
    if c != b {
      forall x: TaskId, reason: Reason
        ensures LinesFor(c.ledger, x, reason) == LinesFor(b.ledger, x, reason) + (if x == t && reason.RefundSystemFailure? then 1 else 0)
      {
        LinesForPush(b.ledger, c.ledger[|b.ledger|], x, reason);
      }
    }
  }

  lemma SignupLines(b: Books, u: UserId, credits: int, x: TaskId, reason: Reason)
    ensures LinesFor(CreditService.SignupPosting(b, u, credits).ledger, x, reason) == LinesFor(b.ledger, x, reason)
  {
    var c := CreditService.SignupPosting(b, u, credits);
    if c.ledger != b.ledger {
      LinesForPush(b.ledger, c.ledger[|b.ledger|], x, reason);
    }
  }

  lemma EventLines(b: Books, ev: CreditService.StripeEvent, x: TaskId, reason: Reason)
    requires reason.TaskCharge? || reason.RefundSystemFailure?
    ensures LinesFor(CreditService.AfterEvent(b, ev).ledger, x, reason) == LinesFor(b.ledger, x, reason)
  {
    CreditService.EventLedger(b, ev);
    var c := CreditService.AfterEvent(b, ev);
    if c.ledger != b.ledger {
      assert c.ledger == b.ledger + [c.ledger[|b.ledger|]];
      LinesForPush(b.ledger, c.ledger[|b.ledger|], x, reason);
    }
  }

  // --- one lemma per kind of step ---

  lemma BrokerInv(s: State, step: Step)
    requires Inv(s)
    requires step.Deliver? || step.WorkerLost? || step.WorkerRaised? || step.Enqueue? || step.LoseMessage? || step.RecoverSweep? || step.SetPaused?
    ensures Inv(Next(s, step))
  {
    BookkeepingInv(s, Next(s, step));
  }

  ghost predicate SameTaskLines(ledger: seq<Entry>, ledger': seq<Entry>) {
    forall t: TaskId ::
      LinesFor(ledger', t, TaskCharge) == LinesFor(ledger, t, TaskCharge)
      && LinesFor(ledger', t, RefundSystemFailure) == LinesFor(ledger, t, RefundSystemFailure)
  }

  lemma BooksInv(s: State, b: Books)
    requires Inv(s) && CreditService.SoundBooks(b) && SameTaskLines(s.db.books.ledger, b.ledger)
    ensures Inv(s.(db := s.db.(books := b)))
  {
    BookkeepingInv(s, s.(db := s.db.(books := b)));
  }

  lemma GrantInv(s: State, u: UserId)
    requires Inv(s)
    ensures Inv(Next(s, GrantCredits(u)))
  {
    var b := CreditService.SignupPosting(s.db.books, u, CreditService.SIGNUP_CREDITS);
    CreditService.SignupSound(s.db.books, u, CreditService.SIGNUP_CREDITS);
    forall t: TaskId
      ensures LinesFor(b.ledger, t, TaskCharge) == LinesFor(s.db.books.ledger, t, TaskCharge)
      ensures LinesFor(b.ledger, t, RefundSystemFailure) == LinesFor(s.db.books.ledger, t, RefundSystemFailure)
    {
      SignupLines(s.db.books, u, CreditService.SIGNUP_CREDITS, t, TaskCharge);
      SignupLines(s.db.books, u, CreditService.SIGNUP_CREDITS, t, RefundSystemFailure);
    }
    BooksInv(s, b);
  }

  lemma WebhookInv(s: State, ev: CreditService.StripeEvent)
    requires Inv(s)
    ensures Inv(Next(s, StripeWebhook(ev)))
  {
    var b := CreditService.AfterEvent(s.db.books, ev);
    CreditService.EventSound(s.db.books, ev);
    forall t: TaskId
      ensures LinesFor(b.ledger, t, TaskCharge) == LinesFor(s.db.books.ledger, t, TaskCharge)
      ensures LinesFor(b.ledger, t, RefundSystemFailure) == LinesFor(s.db.books.ledger, t, RefundSystemFailure)
    {
      EventLines(s.db.books, ev, t, TaskCharge);
      EventLines(s.db.books, ev, t, RefundSystemFailure);
    }
    BooksInv(s, b);
  }

  lemma GraphEditInv(s: State, step: Step)
    requires Inv(s) && (step.SetTier? || step.EditEdges?)
    ensures Inv(Next(s, step))
  {
    if step.EditEdges? {
      EdgeOps.EditKeepsValid(EdgeOps.Graph(s.db.agents, s.db.edges), step.op);
    }
    BookkeepingInv(s, Next(s, step));
  }

  lemma BeginInv(s: State, r: RunId, costReached: bool)
    requires Inv(s)
    ensures Inv(Begun(s, r, costReached))
  {
    var s' := Begun(s, r, costReached);
    if s'.entries == s.entries {
      BookkeepingInv(s, s');
    } else {
      BeginMoney(s, r, costReached);
      BeginBudget(s, r, costReached);
      BeginRuns(s, r, costReached);
      BeginRows(s, r, costReached);
      DispatchKeepsCaps(s.db, s.runs[r].task, costReached);
    }
  }

  lemma BeginRows(s: State, r: RunId, costReached: bool)
    requires AgentsOk(s) && EntriesOk(s) && TreeOk(s) && DeliveryOk(s) && Begun(s, r, costReached).entries != s.entries
    ensures var s' := Begun(s, r, costReached); AgentsOk(s') && EntriesOk(s') && TreeOk(s') && DeliveryOk(s')
  {
    var s' := Begun(s, r, costReached);
    assert RowsEvolve(s.db, s'.db);
    TreeKept(s, s');
  }

  // A queued task has no run past dispatch, so the one that dispatches it is the only one.
  lemma BeginRuns(s: State, r: RunId, costReached: bool)
    requires RunsOk(s)
    ensures RunsOk(Begun(s, r, costReached))
  {
  }

  lemma BeginMoney(s: State, r: RunId, costReached: bool)
    requires RunsOk(s) && MoneyOk(s)
    ensures MoneyOk(Begun(s, r, costReached))
  {
    var s' := Begun(s, r, costReached);
    forall x: TaskId
      ensures Charges(s'.db, x) == Charges(s.db, x) && Refunds(s'.db, x) == Refunds(s.db, x)
    {
    }
    forall x: TaskId | StartingOn(s', x) && (s'.entries == s.entries || x != s.runs[r].task)
      ensures StartingOn(s, x)
    {
    }
    if s'.entries != s.entries {
      assert !StartingOn(s, s.runs[r].task);
    }
  }

  // Entering work is only possible while the goal's tasks number at most the budget.
  lemma BeginBudget(s: State, r: RunId, costReached: bool)
    requires BudgetOk(s)
    ensures BudgetOk(Begun(s, r, costReached))
  {
    var s' := Begun(s, r, costReached);
    if s'.entries == s.entries {
      BudgetKept(s, s');
    } else {
      var t := s.runs[r].task;
      assert !Closed(s.db, t, costReached, GoalChainBudget);
      EnteredBudget(s, s', t);
    }
  }

  lemma EnteredBudget(s: State, s': State, t: TaskId)
    requires BudgetOk(s) && t < |s.db.tasks| && !OverBudget(s.db, s.db.tasks[t].goal)
    requires s'.db.config == s.db.config && |s'.db.tasks| == |s.db.tasks|
    requires forall i :: 0 <= i < |s.db.tasks| ==> s'.db.tasks[i].goal == s.db.tasks[i].goal
    requires s'.entries == s.entries[t := s.entries[t] + 1]
    ensures BudgetOk(s')
  {
    forall g: GoalId
      ensures |EnteredOfGoal(s', g)| == 0 || |EnteredOfGoal(s', g)| <= s.db.config.goalBudget
    {
      if s.db.tasks[t].goal == Some(g) {
        SubsetCardinality(EnteredOfGoal(s', g), TasksOfGoal(s.db.tasks, g));
      } else {
        assert EnteredOfGoal(s', g) == EnteredOfGoal(s, g);
      }
    }
  }

  // Runs that only move forward on statuses their new place allows.
  lemma RunsKept(s: State, s': State)
    requires RunsOk(s) && |s'.db.tasks| == |s.db.tasks| && s'.entries == s.entries
    requires forall r :: r in s'.runs && !s'.runs[r].pc.Waiting? ==>
               r in s.runs && !s.runs[r].pc.Waiting? && s.runs[r].task == s'.runs[r].task
               && HoldAllows(s'.runs[r].pc, s'.db.tasks[s.runs[r].task].status)
    ensures RunsOk(s')
  {
  }

  // At most the charge owed for t and one refund of t are new; a new refund comes with t failing.
  lemma MoneyKept(s: State, s': State, t: TaskId)
    requires MoneyOk(s) && |s'.db.tasks| == |s.db.tasks| && s'.entries == s.entries && t < |s.db.tasks|
    requires forall x: TaskId :: StartingOn(s', x) ==> StartingOn(s, x)
    requires forall x: TaskId :: Charges(s'.db, x) <= Charges(s.db, x) + (if x == t && StartingOn(s, t) && !StartingOn(s', t) then 1 else 0)
    requires forall x: TaskId :: Refunds(s'.db, x) <= Refunds(s.db, x)
               + (if x == t && !s.db.tasks[t].status.Failed? && s'.db.tasks[t].status.Failed? then 1 else 0)
    requires forall x :: 0 <= x < |s.db.tasks| && s.db.tasks[x].status.Failed? ==> s'.db.tasks[x].status.Failed?
    ensures MoneyOk(s')
  {
  }

  // What a step did to the rows, as far as the row invariants care.
  ghost predicate QuietRows(s: State, s': State) {
    && s'.db.config == s.db.config && s'.db.agents == s.db.agents && s'.db.edges == s.db.edges
    && RowsEvolve(s.db, s'.db) && |s'.db.tasks| == |s.db.tasks| && s'.entries == s.entries
    && (forall i :: 0 <= i < |s.db.tasks| && s'.db.tasks[i].status.Working? ==> s.db.tasks[i].status.Working?)
    && (forall i :: 0 <= i < |s.db.tasks| && s'.db.tasks[i].status.Queued? ==>
          s.db.tasks[i].status.Queued? || s.db.tasks[i].attempt < s'.db.tasks[i].attempt)
    && (forall r :: r in s'.runs && s'.runs[r].pc.Finalizing? && s'.runs[r].task < |s.db.tasks| && s.db.tasks[s'.runs[r].task].status.Done? ==>
          r in s.runs && s.runs[r] == s'.runs[r])
  }

  // The parts of the invariant that only look at rows, when no row is added and none starts work.
  lemma RowsInv(s: State, s': State)
    requires AgentsOk(s) && EntriesOk(s) && BudgetOk(s) && TreeOk(s) && DeliveryOk(s) && Capped(s.db)
    requires QuietRows(s, s')
    ensures AgentsOk(s') && EntriesOk(s') && BudgetOk(s') && TreeOk(s') && DeliveryOk(s') && Capped(s'.db)
  {
    TreeKept(s, s');
    BudgetKept(s, s');
    CapsKept(s.db, s'.db);
    forall i | 0 <= i < |s.db.tasks|
      ensures s'.db.tasks[i].agent in s'.db.agents
      ensures s'.entries[i] + (if s'.db.tasks[i].status.Queued? then 1 else 0) <= s'.db.tasks[i].attempt + 1
    {
      assert RowEvolves(s.db.tasks[i], s'.db.tasks[i]);
    }
  }

  lemma MeterInv(s: State, r: RunId)
    requires Inv(s)
    ensures Inv(MeteredRun(s, r))
  {
    if RunAt(s, r, Starting) {
      MeterMoney(s, r);
      MeterRows(s, r);
      MeterBooks(s, r);
      RowsInv(s, MeteredRun(s, r));
    }
  }

  lemma MeterBooks(s: State, r: RunId)
    requires CreditService.SoundBooks(s.db.books) && RunAt(s, r, Starting)
    ensures CreditService.SoundBooks(MeteredRun(s, r).db.books)
  {
    var t := s.runs[r].task;
    CreditService.AppliedSound(s.db.books, CreditService.Charge(s.db.tasks[t].user, t, TierOf(s.db, t)));
  }

  // Metering blocks the run's own row or leaves it working.
  lemma MeteredRow(d: Db, t: TaskId)
    requires t < |d.tasks| && d.tasks[t].agent in d.agents
    ensures var (d', m) := Metered(d, t);
            && d'.config == d.config && d'.agents == d.agents && d'.edges == d.edges && |d'.tasks| == |d.tasks|
            && (forall i :: 0 <= i < |d.tasks| && i != t ==> d'.tasks[i] == d.tasks[i])
            && (d'.tasks[t] == d.tasks[t] || (m.NoCredits? && d.tasks[t].status.Working? && d'.tasks[t].status.Blocked? && RowEvolves(d.tasks[t], d'.tasks[t])))
  {
  }

  lemma MeterRows(s: State, r: RunId)
    requires RunsOk(s) && RunAt(s, r, Starting)
    ensures QuietRows(s, MeteredRun(s, r)) && RunsOk(MeteredRun(s, r))
  {
    var t := s.runs[r].task;
    var s' := MeteredRun(s, r);
    MeteredRow(s.db, t);
    forall q | q in s'.runs && !s'.runs[q].pc.Waiting?
      ensures q in s.runs && s.runs[q].task == s'.runs[q].task && HoldAllows(s'.runs[q].pc, s'.db.tasks[s.runs[q].task].status)
    {
      if q != r {
        assert s.runs[q].task != t;
      }
    }
    RunsKept(s, s');
  }

  lemma MeterMoney(s: State, r: RunId)
    requires RunsOk(s) && MoneyOk(s) && RunAt(s, r, Starting)
    ensures MoneyOk(MeteredRun(s, r))
  {
    var s' := MeteredRun(s, r);
    var t := s.runs[r].task;
    if s.db.config.billing {
      ChargeLines(s.db.books, s.db.tasks[t].user, t, TierOf(s.db, t));
    }
    assert StartingOn(s, t) && !StartingOn(s', t);
    forall x: TaskId | StartingOn(s', x)
      ensures StartingOn(s, x)
    {
      var q :| q in s'.runs && s'.runs[q] == Run(x, Starting);
      assert s.runs[q] == Run(x, Starting);
    }
    MoneyKept(s, s', t);
  }

  lemma RecordInv(s: State, r: RunId, o: Outcome)
    requires Inv(s)
    ensures Inv(RecordedRun(s, r, o))
  {
    if RunAt(s, r, Executing) {
      if Recorded(s.db, s.runs[r].task, o).None? {
        BookkeepingInv(s, RecordedRun(s, r, o));
      } else {
        RecordMoney(s, r, o);
        RecordRows(s, r, o);
        RecordBooks(s, r, o);
        RowsInv(s, RecordedRun(s, r, o));
      }
    }
  }

  lemma RecordBooks(s: State, r: RunId, o: Outcome)
    requires CreditService.SoundBooks(s.db.books) && RunAt(s, r, Executing)
    ensures CreditService.SoundBooks(RecordedRun(s, r, o).db.books)
  {
    var t := s.runs[r].task;
    CreditService.AppliedSound(s.db.books, CreditService.Refund(s.db.tasks[t].user, t, CreditService.CreditCost(TierOf(s.db, t))));
  }

  // Recording an outcome rewrites the run's own row, from working to the outcome's status.
  lemma RecordedRow(d: Db, t: TaskId, o: Outcome)
    requires t < |d.tasks| && d.tasks[t].agent in d.agents && Recorded(d, t, o).Some?
    ensures var d' := Recorded(d, t, o).value;
            && d'.config == d.config && d'.agents == d.agents && d'.edges == d.edges && |d'.tasks| == |d.tasks|
            && RowsEvolve(d, d') && (forall i :: 0 <= i < |d.tasks| && i != t ==> d'.tasks[i] == d.tasks[i])
            && (if o.Interrupted? then d'.tasks[t] == d.tasks[t]
                else IsLegal(d.tasks[t].status, TargetOf(o).value.0) && d'.tasks[t].status == TargetOf(o).value.0)
  {
  }

  lemma RecordRows(s: State, r: RunId, o: Outcome)
    requires RunsOk(s) && RunAt(s, r, Executing) && Recorded(s.db, s.runs[r].task, o).Some?
    ensures QuietRows(s, RecordedRun(s, r, o)) && RunsOk(RecordedRun(s, r, o))
  {
    RecordedRow(s.db, s.runs[r].task, o);
    RecordRuns(s, r, o);
  }

  lemma RecordRuns(s: State, r: RunId, o: Outcome)
    requires RunsOk(s) && RunAt(s, r, Executing) && Recorded(s.db, s.runs[r].task, o).Some?
    ensures RunsOk(RecordedRun(s, r, o))
  {
    RecordedRow(s.db, s.runs[r].task, o);
    var s' := RecordedRun(s, r, o);
    forall q | q in s'.runs && !s'.runs[q].pc.Waiting?
      ensures HoldAllows(s'.runs[q].pc, s'.db.tasks[s.runs[q].task].status)
    {
      if q != r {
        assert s.runs[q].task != s.runs[r].task;
      }
    }
    RunsKept(s, s');
  }

  lemma RecordMoney(s: State, r: RunId, o: Outcome)
    requires RunsOk(s) && MoneyOk(s) && RunAt(s, r, Executing) && Recorded(s.db, s.runs[r].task, o).Some?
    ensures MoneyOk(RecordedRun(s, r, o))
  {
    var s' := RecordedRun(s, r, o);
    var t := s.runs[r].task;
    if o.SystemFailure? && s.db.config.billing {
      RefundLines(s.db.books, s.db.tasks[t].user, t, CreditService.CreditCost(TierOf(s.db, t)));
    }
    forall x: TaskId | StartingOn(s', x)
      ensures StartingOn(s, x)
    {
      var q :| q in s'.runs && s'.runs[q] == Run(x, Starting);
      assert s.runs[q] == Run(x, Starting);
    }
    MoneyKept(s, s', t);
  }

  // --- propagation ---

  lemma FinalizeInv(s: State, r: RunId)
    requires Inv(s)
    ensures Inv(FinalizedRun(s, r))
  {
    var s' := FinalizedRun(s, r);
    if RunAt(s, r, Finalizing) {
      if Propagated(s.db, s.runs[r].task).1.None? {
        BookkeepingInv(s, s');
      } else {
        SpawnTree(s, r);
        SpawnRest(s, r);
      }
    }
  }

  // The rows after a propagation: the old ones, and one queued row below the finished task.
  lemma SpawnedRow(d: Db, t: TaskId)
    requires t < |d.tasks| && Propagated(d, t).1.Some?
    ensures var d' := Propagated(d, t).0;
            && d' == d.(tasks := d'.tasks) && |d'.tasks| == |d.tasks| + 1 && d'.tasks[..|d.tasks|] == d.tasks
            && Propagated(d, t).1 == Some(|d.tasks|)
            && var c := d'.tasks[|d.tasks|];
               c.parent == Some(t) && c.status.Queued? && c.attempt == 0 && c.overrideTo.None? && c.agent in d.agents && c.goal == d.tasks[t].goal
  {
  }

  lemma SpawnRest(s: State, r: RunId)
    requires Inv(s) && RunAt(s, r, Finalizing) && Propagated(s.db, s.runs[r].task).1.Some?
    ensures var s' := FinalizedRun(s, r);
            RunsOk(s') && AgentsOk(s') && EntriesOk(s') && MoneyOk(s') && BudgetOk(s') && Capped(s'.db)
  {
    SpawnedRow(s.db, s.runs[r].task);
    GrownTable(s, FinalizedRun(s, r));
  }

  // One more queued row that never ran and was never paid for.
  lemma GrownTable(s: State, s': State)
    requires RunsOk(s) && AgentsOk(s) && EntriesOk(s) && MoneyOk(s) && BudgetOk(s) && Capped(s.db)
    requires s'.db == s.db.(tasks := s'.db.tasks) && |s'.db.tasks| == |s.db.tasks| + 1 && s'.db.tasks[..|s.db.tasks|] == s.db.tasks
    requires s'.db.tasks[|s.db.tasks|].status.Queued? && s'.db.tasks[|s.db.tasks|].attempt == 0
    requires s'.db.tasks[|s.db.tasks|].agent in s.db.agents
    requires s'.entries == s.entries + [0]
    requires forall r :: r in s'.runs ==> r in s.runs && s.runs[r] == s'.runs[r]
    ensures RunsOk(s') && AgentsOk(s') && EntriesOk(s') && MoneyOk(s') && BudgetOk(s') && Capped(s'.db)
  {
    forall i | 0 <= i < |s.db.tasks|
      ensures s'.db.tasks[i] == s.db.tasks[i]
    {
      assert s'.db.tasks[..|s.db.tasks|][i] == s.db.tasks[i];
    }
    BudgetKept(s, s');
    CapsKept(s.db, s'.db);
    GrownMoney(s, s');
  }

  lemma GrownMoney(s: State, s': State)
    requires RunsOk(s) && MoneyOk(s)
    requires s'.db.books == s.db.books && |s'.db.tasks| == |s.db.tasks| + 1
    requires forall i :: 0 <= i < |s.db.tasks| ==> s'.db.tasks[i] == s.db.tasks[i]
    requires s'.entries == s.entries + [0]
    requires forall r :: r in s'.runs ==> r in s.runs && s.runs[r] == s'.runs[r]
    ensures MoneyOk(s')
  {
    forall x: TaskId
      ensures Charges(s'.db, x) == Charges(s.db, x) && Refunds(s'.db, x) == Refunds(s.db, x)
      ensures StartingOn(s', x) ==> StartingOn(s, x) && x < |s.db.tasks|
    {
    }
  }

  // A done task without a child gets its one child.
  lemma SpawnTree(s: State, r: RunId)
    requires Inv(s) && RunAt(s, r, Finalizing) && Propagated(s.db, s.runs[r].task).1.Some?
    ensures TreeOk(FinalizedRun(s, r)) && DeliveryOk(FinalizedRun(s, r))
  {
    var t := s.runs[r].task;
    var s' := FinalizedRun(s, r);
    SpawnedRow(s.db, t);
    var n := |s.db.tasks|;
    forall i | 0 <= i < n
      ensures s'.db.tasks[i] == s.db.tasks[i]
    {
      assert s'.db.tasks[..n][i] == s.db.tasks[i];
    }
    assert FinalizingOn(s, t);
    forall p: TaskId | FinalizingOn(s', p)
      ensures FinalizingOn(s, p) && p != t
    {
      var q :| q in s'.runs && s'.runs[q] == Run(p, Finalizing);
      assert q != r && s.runs[q] == s'.runs[q];
    }
    SpawnHanded(s.db, t);
    GrownTree(s, s', t);
    GrownDelivery(s, s');
  }

  lemma GrownTree(s: State, s': State, t: TaskId)
    requires TreeOk(s) && t < |s.db.tasks| && s.db.tasks[t].status.Done? && FinalizingOn(s, t)
    requires |s'.db.tasks| == |s.db.tasks| + 1
    requires forall i :: 0 <= i < |s.db.tasks| ==> s'.db.tasks[i] == s.db.tasks[i]
    requires s'.db.tasks[|s.db.tasks|].parent == Some(t) && s'.db.tasks[|s.db.tasks|].overrideTo.None?
    requires forall p: TaskId :: FinalizingOn(s', p) ==> FinalizingOn(s, p) && p != t
    ensures TreeOk(s')
  {
    var n := |s.db.tasks|;
    forall c | 0 <= c < |s'.db.tasks| && s'.db.tasks[c].parent.Some?
      ensures var p := s'.db.tasks[c].parent.value; p < c && s'.db.tasks[p].status.Done? && !FinalizingOn(s', p)
    {
      if c < n {
        assert s'.db.tasks[c] == s.db.tasks[c];
        var p := s.db.tasks[c].parent.value;
        assert s'.db.tasks[p] == s.db.tasks[p];
      }
    }
    forall b, c | 0 <= b < c < |s'.db.tasks| && s'.db.tasks[b].parent.Some?
      ensures s'.db.tasks[b].parent != s'.db.tasks[c].parent
    {
      assert s'.db.tasks[b] == s.db.tasks[b];
      if c < n {
        assert s'.db.tasks[c] == s.db.tasks[c];
      }
    }
  }

  lemma GrownDelivery(s: State, s': State)
    requires TreeOk(s) && DeliveryOk(s) && |s'.db.tasks| == |s.db.tasks| + 1
    requires forall i :: 0 <= i < |s.db.tasks| ==> s'.db.tasks[i] == s.db.tasks[i]
    requires var c := s'.db.tasks[|s.db.tasks|]; c.parent.Some? && c.parent.value < |s'.db.tasks| ==> HandedRight(s'.db.tasks, |s.db.tasks|)
    ensures DeliveryOk(s')
  {
    forall c | 0 <= c < |s.db.tasks| && s.db.tasks[c].parent.Some?
      ensures HandedRight(s'.db.tasks, c)
    {
      assert HandedRight(s.db.tasks, c);
      var p := s.db.tasks[c].parent.value;
      assert s'.db.tasks[p] == s.db.tasks[p];
      if s.db.tasks[p].parent.Some? {
        assert s'.db.tasks[s.db.tasks[p].parent.value] == s.db.tasks[s.db.tasks[p].parent.value];
      }
    }
  }

  lemma SpawnHanded(d: Db, t: TaskId)
    requires t < |d.tasks| && Propagated(d, t).1.Some?
    requires d.tasks[t].parent.Some? ==> d.tasks[t].parent.value < t && d.tasks[t].overrideTo.None?
    requires d.tasks[t].parent.None? ==> d.tasks[t].loop == Plain
    ensures HandedRight(Propagated(d, t).0.tasks, |d.tasks|)
  {
  }

  lemma FinishInv(s: State, r: RunId, o: Outcome)
    requires Inv(s)
    ensures Inv(FinishedRun(s, r, o))
  {
    RecordInv(s, r, o);
    FinalizeInv(RecordedRun(s, r, o), r);
  }

  // --- stop, continue, reap, create ---

  lemma SameMoney(s: State, s': State)
    requires MoneyOk(s) && s'.db.books == s.db.books && s'.runs == s.runs && |s'.db.tasks| == |s.db.tasks| && s'.entries == s.entries
    requires forall x :: 0 <= x < |s.db.tasks| && s.db.tasks[x].status.Failed? ==> s'.db.tasks[x].status.Failed?
    ensures MoneyOk(s')
  {
    forall x: TaskId
      ensures Charges(s'.db, x) == Charges(s.db, x) && Refunds(s'.db, x) == Refunds(s.db, x)
      ensures StartingOn(s', x) <==> StartingOn(s, x)
    {
    }
  }

  lemma StopInv(s: State, t: TaskId)
    requires Inv(s)
    ensures Inv(Next(s, StopTask(t)))
  {
    var s' := Next(s, StopTask(t));
    if t < |s.db.tasks| {
      StopRows(s, t);
      SameMoney(s, s');
      RowsInv(s, s');
    }
  }

  lemma StopRows(s: State, t: TaskId)
    requires RunsOk(s) && t < |s.db.tasks|
    ensures QuietRows(s, s.(db := StoppedDb(s.db, t))) && RunsOk(s.(db := StoppedDb(s.db, t)))
  {
    RunsKept(s, s.(db := StoppedDb(s.db, t)));
  }

  lemma ContinueInv(s: State, t: TaskId, text: string)
    requires Inv(s)
    ensures Inv(Next(s, ContinueTask(t, text)))
  {
    var s' := Next(s, ContinueTask(t, text));
    if t < |s.db.tasks| && Continued(s.db, t, text).Some? {
      ContinueRows(s, t, text);
      SameMoney(s, s');
      RowsInv(s, s');
    }
  }

  lemma ContinueRows(s: State, t: TaskId, text: string)
    requires RunsOk(s) && t < |s.db.tasks| && Continued(s.db, t, text).Some?
    ensures QuietRows(s, Next(s, ContinueTask(t, text))) && RunsOk(Next(s, ContinueTask(t, text)))
  {
    RunsKept(s, Next(s, ContinueTask(t, text)));
  }

  lemma ReapOneInv(s: State, t: TaskId)
    requires Inv(s)
    ensures Inv(s.(db := ReapedOne(s.db, t)))
  {
    var s' := s.(db := ReapedOne(s.db, t));
    if t < |s.db.tasks| && s.db.tasks[t].status.Working? {
      ReapOneMoney(s, t);
      ReapOneRows(s, t);
      ReapOneBooks(s.db, t);
      RowsInv(s, s');
    }
  }

  lemma ReapOneBooks(d: Db, t: TaskId)
    requires CreditService.SoundBooks(d.books)
    ensures CreditService.SoundBooks(ReapedOne(d, t).books)
  {
    if t < |d.tasks| && d.tasks[t].agent in d.agents {
      CreditService.RefundSound(d.books, d.tasks[t].user, t, CreditService.CreditCost(TierOf(d, t)));
    }
  }

  lemma ReapOneRows(s: State, t: TaskId)
    requires RunsOk(s) && t < |s.db.tasks| && s.db.tasks[t].status.Working?
    ensures QuietRows(s, s.(db := ReapedOne(s.db, t))) && RunsOk(s.(db := ReapedOne(s.db, t)))
  {
    var s' := s.(db := ReapedOne(s.db, t));
    RunsKept(s, s');
  }

  lemma ReapOneMoney(s: State, t: TaskId)
    requires RunsOk(s) && MoneyOk(s) && t < |s.db.tasks| && s.db.tasks[t].status.Working? && s.db.tasks[t].agent in s.db.agents
    ensures MoneyOk(s.(db := ReapedOne(s.db, t)))
  {
    var s' := s.(db := ReapedOne(s.db, t));
    if s.db.config.billing {
      RefundLines(s.db.books, s.db.tasks[t].user, t, CreditService.CreditCost(TierOf(s.db, t)));
    }
    forall x: TaskId
      ensures StartingOn(s', x) <==> StartingOn(s, x)
    {
    }
    MoneyKept(s, s', t);
  }

  lemma {:induction false} ReapInv(s: State, stale: seq<TaskId>)
    requires Inv(s)
    ensures Inv(s.(db := Reaped(s.db, stale)))
    decreases |stale|
  {
    if stale != [] {
      var front := stale[..|stale| - 1];
      ReapInv(s, front);
      ReapOneInv(s.(db := Reaped(s.db, front)), stale[|stale| - 1]);
      assert s.(db := Reaped(s.db, stale)) == s.(db := Reaped(s.db, front)).(db := ReapedOne(Reaped(s.db, front), stale[|stale| - 1]));
    }
  }

  lemma CreateInv(s: State, user: UserId, agent: AgentId, goal: Option<GoalId>, instructions: string, input: Option<string>, overrideTo: Option<AgentId>)
    requires Inv(s)
    ensures Inv(Created(s, user, agent, goal, instructions, input, overrideTo))
  {
    if agent in s.db.agents {
      var s' := Created(s, user, agent, goal, instructions, input, overrideTo);
      GrownTable(s, s');
      CreateTree(s, user, agent, goal, instructions, input, overrideTo);
    }
  }

  lemma CreateTree(s: State, user: UserId, agent: AgentId, goal: Option<GoalId>, instructions: string, input: Option<string>, overrideTo: Option<AgentId>)
    requires TreeOk(s) && DeliveryOk(s) && agent in s.db.agents
    ensures var s' := Created(s, user, agent, goal, instructions, input, overrideTo); TreeOk(s') && DeliveryOk(s')
  {
    var s' := Created(s, user, agent, goal, instructions, input, overrideTo);
    forall p: TaskId | FinalizingOn(s', p)
      ensures FinalizingOn(s, p)
    {
    }
    GrownDelivery(s, s');
  }

  // --- all steps, all runs ---

  lemma StepKeepsInv(s: State, step: Step)
    requires Inv(s)
    ensures Inv(Next(s, step))
  {
    if step.Begin? || step.Meter? || step.Finish? || step.Finalize? || step.Reap? {
      WorkerStepInv(s, step);
    } else if step.StopTask? || step.ContinueTask? || step.Create? {
      UserStepInv(s, step);
    } else if step.GrantCredits? {
      GrantInv(s, step.user);
    } else if step.StripeWebhook? {
      WebhookInv(s, step.event);
    } else if step.SetTier? || step.EditEdges? {
      GraphEditInv(s, step);
    } else {
      BrokerInv(s, step);
    }
  }

  lemma WorkerStepInv(s: State, step: Step)
    requires Inv(s) && (step.Begin? || step.Meter? || step.Finish? || step.Finalize? || step.Reap?)
    ensures Inv(Next(s, step))
  {
    match step {
      case Begin(r, costReached) => BeginInv(s, r, costReached);
      case Meter(r) => MeterInv(s, r);
      case Finish(r, o) => FinishInv(s, r, o);
      case Finalize(r) => FinalizeInv(s, r);
      case Reap(stale) => ReapInv(s, stale);
    }
  }

  lemma UserStepInv(s: State, step: Step)
    requires Inv(s) && (step.StopTask? || step.ContinueTask? || step.Create?)
    ensures Inv(Next(s, step))
  {
    match step {
      case StopTask(t) => StopInv(s, t);
      case ContinueTask(t, text) => ContinueInv(s, t, text);
      case Create(user, agent, goal, instructions, input, overrideTo) => CreateInv(s, user, agent, goal, instructions, input, overrideTo);
    }
  }

  lemma StartInv(config: Config, agents: map<AgentId, Agent>)
    ensures Inv(Start(config, agents))
  {
    EdgeOps.NoEdgesNoPath();
    var s := Start(config, agents);
    assert forall g: GoalId :: EnteredOfGoal(s, g) == {};
    assert forall a: AgentId :: WorkingOfAgent(s.db.tasks, a) == {};
    assert forall u: UserId :: WorkingOfUser(s.db.tasks, u) == {};
  }

  lemma {:induction false} ReachableInv(s: State, steps: seq<Step>)
    requires Inv(s)
    ensures Inv(After(s, steps))
    decreases |steps|
  {
    if steps != [] {
      ReachableInv(s, steps[..|steps| - 1]);
      StepKeepsInv(After(s, steps[..|steps| - 1]), steps[|steps| - 1]);
    }
  }
}
