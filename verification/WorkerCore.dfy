/**
 The worker pipeline (backend/app/services/worker_core.py), one committed transaction at a time:
 dispatch, metering, recording an outcome, finalising, and the reaper.
 */
module WorkerCore {
  import opened Common
  import opened Schema
  import opened TaskService
  import opened GraphEngine
  import CreditService

  const OUT_OF_CREDITS := "Insufficient credits — top up to continue"
  const REAPED := "Worker timed out (reaped)"

  // What came out of running the engine on a task.
  datatype Outcome =
    | SystemFailure(error: string)                             // our fault: refunded
    | QualityFailure(error: string, partial: Option<string>)    // not refunded
    | Asked(question: string, output: string)
    | Interrupted                                              // the loop saw the user's stop
    | Finished(output: string)

  datatype Metering = Go | NoCredits | Aborted

  ghost predicate Runnable(d: Db, t: TaskId) {
    t < |d.tasks| && d.tasks[t].agent in d.agents
  }

  function TierOf(d: Db, t: TaskId): Tier
    requires t < |d.tasks| && d.tasks[t].agent in d.agents
  {
    d.agents[d.tasks[t].agent].tier
  }

  // The charge after dispatch. Out of credits blocks the task; a task that is no longer working
  // cannot be blocked, which aborts the transaction.
  function Metered(d: Db, t: TaskId): (Db, Metering)
    requires t < |d.tasks| && d.tasks[t].agent in d.agents
  {
    if !d.config.billing then (d, Go)
    else
      var (books, res) := CreditService.ChargePosting(d.books, d.tasks[t].user, t, TierOf(d, t));
      if res.Success? then (d.(books := books), Go)
      else
        var blocked := Transitioned(d.(books := books), t, Blocked, NO_PATCH.(error := Some(OUT_OF_CREDITS)));
        if blocked.Some? then (blocked.value, NoCredits) else (d, Aborted)
  }

  function Refunded(d: Db, t: TaskId): Db
    requires t < |d.tasks| && d.tasks[t].agent in d.agents
  {
    if !d.config.billing then d
    else d.(books := CreditService.RefundPosting(d.books, d.tasks[t].user, t, CreditService.CreditCost(TierOf(d, t))))
  }

  function TargetOf(o: Outcome): Option<(Status, Patch)> {
    match o
    case SystemFailure(error) => Some((Failed, NO_PATCH.(error := Some(error))))
    case QualityFailure(error, output) => Some((Failed, NO_PATCH.(error := Some(error), result := output)))
    case Asked(question, output) => Some((NeedsInput, NO_PATCH.(awaiting := Some(Some(question)), result := Some(output))))
    case Interrupted => None
    case Finished(output) => Some((Done, NO_PATCH.(result := Some(output))))
  }

  // Recording an outcome: refused (None) when the task is no longer working.
  function Recorded(d: Db, t: TaskId, o: Outcome): Option<Db>
    requires t < |d.tasks| && d.tasks[t].agent in d.agents
  {
    var target := TargetOf(o);
    if target.None? then Some(d)
    else
      var (to, patch) := target.value;
      Transitioned(if o.SystemFailure? then Refunded(d, t) else d, t, to, patch)
  }

  // --- the same transactions on the session ---

  method BeginTask(db: Session, t: TaskId, costReached: bool) returns (started: bool)
    modifies db`tasks
    ensures t < |old(db.tasks)| ==> db.View() == Dispatched(old(db.View()), t, costReached)
    ensures started <==> t < |old(db.tasks)| && Dispatchable(old(db.View()), t, costReached)
    ensures t >= |old(db.tasks)| ==> db.View() == old(db.View())
  {
    if t >= |db.tasks| || !db.tasks[t].status.Queued? {
      return false;
    }
    started := TryDispatch(db, t, costReached);
  }

  method MeterTask(db: Session, t: TaskId) returns (m: Metering)
    requires Runnable(db.View(), t)
    modifies db
    ensures (db.View(), m) == Metered(old(db.View()), t)
  {
    if !db.config.billing {
      return Go;
    }
    var before := db.View();
    var task := db.tasks[t];
    var res := CreditService.ChargeTask(db, task.user, t, db.agents[task.agent].tier);
    if res.Success? {
      return Go;
    }
    var ok := Transition(db, t, Blocked, NO_PATCH.(error := Some(OUT_OF_CREDITS)));
    if !ok {
      db.Rollback(before);
      return Aborted;
    }
    return NoCredits;
  }

  method RefundIfBilling(db: Session, t: TaskId)
    requires Runnable(db.View(), t)
    modifies db`accounts, db`ledger
    ensures db.View() == Refunded(old(db.View()), t)
  {
    if db.config.billing {
      var task := db.tasks[t];
      CreditService.RefundTask(db, task.user, t, CreditService.CreditCost(db.agents[task.agent].tier));
    }
  }

  method RecordOutcome(db: Session, t: TaskId, o: Outcome) returns (ok: bool)
    requires Runnable(db.View(), t)
    modifies db
    ensures ok <==> Recorded(old(db.View()), t, o).Some?
    ensures db.View() == Recorded(old(db.View()), t, o).GetOr(old(db.View()))
  {
    var before := db.View();
    match o {
      case SystemFailure(error) =>
        RefundIfBilling(db, t);
        ok := Transition(db, t, Failed, NO_PATCH.(error := Some(error)));
      case QualityFailure(error, output) =>
        ok := Transition(db, t, Failed, NO_PATCH.(error := Some(error), result := output));
      case Asked(question, output) =>
        ok := Transition(db, t, NeedsInput, NO_PATCH.(awaiting := Some(Some(question)), result := Some(output)));
      case Interrupted =>
        ok := true;
      case Finished(output) =>
        ok := Transition(db, t, Done, NO_PATCH.(result := Some(output)));
    }
    if !ok {
      db.Rollback(before);
    }
  }

  // --- one delivery processed without interruption ---

  datatype Reply = NotFound | Skipped | NotDispatched | InsufficientCredits | Ended

  function Processed(d: Db, t: TaskId, costReached: bool, o: Outcome): (Db, Reply, Option<TaskId>)
    requires forall i :: 0 <= i < |d.tasks| ==> d.tasks[i].agent in d.agents
  {
    if t >= |d.tasks| then (d, NotFound, None)
    else if !d.tasks[t].status.Queued? then (d, Skipped, None)
    else if !Dispatchable(d, t, costReached) then (d, NotDispatched, None)
    else
      var (metered, m) := Metered(Dispatched(d, t, costReached), t);
      if !m.Go? then (metered, InsufficientCredits, None)
      else
        var recorded := Recorded(metered, t, o).GetOr(metered);
        if o.Finished? then var (after, child) := Propagated(recorded, t); (after, Ended, child)
        else (recorded, Ended, None)
  }

  method ProcessTask(db: Session, t: TaskId, costReached: bool, o: Outcome) returns (reply: Reply, child: Option<TaskId>)
    requires forall i :: 0 <= i < |db.tasks| ==> db.tasks[i].agent in db.agents
    modifies db
    ensures (db.View(), reply, child) == Processed(old(db.View()), t, costReached, o)
  {
    child := None;
    if t >= |db.tasks| {
      return NotFound, None;
    }
    if !db.tasks[t].status.Queued? {
      return Skipped, None;
    }
    var started := BeginTask(db, t, costReached);
    if !started {
      return NotDispatched, None;
    }
    var m := MeterTask(db, t);
    if !m.Go? {
      return InsufficientCredits, None;
    }
    var ok := RecordOutcome(db, t, o);
    if ok && o.Finished? {
      child := Propagate(db, t);
    }
    return Ended, child;
  }

  // --- the reaper ---

  function ReapedOne(d: Db, t: TaskId): Db {
    if t < |d.tasks| && d.tasks[t].status.Working? then
      var refunded := if d.tasks[t].agent in d.agents then Refunded(d, t) else d;
      WithTask(refunded, t, d.tasks[t].(status := Failed, error := Some(REAPED)))
    else d
  }

  function Reaped(d: Db, stale: seq<TaskId>): Db {
    if stale == [] then d else ReapedOne(Reaped(d, stale[..|stale| - 1]), stale[|stale| - 1])
  }

  lemma {:induction false} ReapedRows(d: Db, stale: seq<TaskId>)
    ensures var after := Reaped(d, stale);
            && |after.tasks| == |d.tasks| && after.agents == d.agents && after.edges == d.edges && after.config == d.config
            && forall t :: 0 <= t < |d.tasks| ==>
                 after.tasks[t] == if t in stale && d.tasks[t].status.Working?
                                   then d.tasks[t].(status := Failed, error := Some(REAPED)) else d.tasks[t]
    decreases |stale|
  {
    if stale != [] {
      var front := stale[..|stale| - 1];
      assert stale == front + [stale[|stale| - 1]];
      ReapedRows(d, front);
    }
  }

  /** The reaper over the rows its query returned: distinct tasks that are still working. */
  method ReapStaleTasks(db: Session, stale: seq<TaskId>) returns (n: nat)
    requires forall i :: 0 <= i < |stale| ==> stale[i] < |db.tasks| && db.tasks[stale[i]].status.Working?
    requires forall i, j :: 0 <= i < j < |stale| ==> stale[i] != stale[j]
    modifies db
    ensures n == |stale|
    ensures db.View() == Reaped(old(db.View()), stale)
    ensures |db.tasks| == |old(db.tasks)|
    ensures forall t :: 0 <= t < |db.tasks| && t in stale ==> db.tasks[t] == old(db.tasks)[t].(status := Failed, error := Some(REAPED))
    ensures forall t :: 0 <= t < |db.tasks| && t !in stale ==> db.tasks[t] == old(db.tasks)[t]
  {
    n := 0;
    ghost var d := db.View();
    while n < |stale|
      invariant n <= |stale|
      invariant db.View() == Reaped(d, stale[..n])
    {
      var t := stale[n];
      ReapedRows(d, stale[..n]);
      assert t !in stale[..n];
      if db.tasks[t].agent in db.agents {
        RefundIfBilling(db, t);
      }
      db.tasks := db.tasks[t := db.tasks[t].(status := Failed, error := Some(REAPED))];
      assert stale[..n + 1][..n] == stale[..n];
      n := n + 1;
    }
    assert stale[..n] == stale;
    ReapedRows(d, stale);
  }
}
