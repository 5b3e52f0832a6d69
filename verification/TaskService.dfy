/**
 The task state machine (backend/app/services/task_service.py): legal transitions, the five
 dispatch gates, stop, continue and creation.
 */
module TaskService {
  import opened Common
  import opened Schema

  predicate IsLegal(from: Status, to: Status) {
    match from
    case Queued => to.Working? || to.Failed?
    case Working => to.Done? || to.Failed? || to.Blocked? || to.NeedsInput?
    case Blocked => to.Queued?
    case NeedsInput => to.Queued?
    case Done => false
    case Failed => false
  }

  predicate IsTerminal(s: Status) {
    s.Done? || s.Failed?
  }

  // The columns a transition may write along with the status; None leaves a column alone.
  datatype Patch = Patch(
    stopped: Option<bool>, result: Option<string>, awaiting: Option<Option<string>>,
    error: Option<string>, attempt: Option<nat>, continuations: Option<seq<string>>)

  const NO_PATCH := Patch(None, None, None, None, None, None)

  function Patched(t: Task, to: Status, p: Patch): Task {
    t.(status := to,
       stopped := p.stopped.GetOr(t.stopped),
       result := if p.result.Some? then p.result else t.result,
       awaiting := p.awaiting.GetOr(t.awaiting),
       error := if p.error.Some? then p.error else t.error,
       attempt := p.attempt.GetOr(t.attempt),
       continuations := p.continuations.GetOr(t.continuations))
  }

  function WithTask(d: Db, t: TaskId, row: Task): Db
    requires t < |d.tasks|
  {
    d.(tasks := d.tasks[t := row])
  }

  // None stands for the IllegalTransition exception.
  function Transitioned(d: Db, t: TaskId, to: Status, p: Patch): Option<Db>
    requires t < |d.tasks|
  {
    if IsLegal(d.tasks[t].status, to) then Some(WithTask(d, t, Patched(d.tasks[t], to, p))) else None
  }

  method Transition(db: Session, t: TaskId, to: Status, p: Patch) returns (ok: bool)
    requires t < |db.tasks|
    modifies db`tasks
    ensures ok <==> Transitioned(old(db.View()), t, to, p).Some?
    ensures db.View() == Transitioned(old(db.View()), t, to, p).GetOr(old(db.View()))
  {
    if !IsLegal(db.tasks[t].status, to) {
      return false;
    }
    db.tasks := db.tasks[t := Patched(db.tasks[t], to, p)];
    return true;
  }

  // --- dispatch gates ---

  datatype Gate = ProjectPaused | AgentBusy | ConcurrencyCap | DailyCostCap | GoalChainBudget

  function WorkingOfAgent(tasks: seq<Task>, a: AgentId): set<TaskId> {
    set i: TaskId | 0 <= i < |tasks| && tasks[i].agent == a && tasks[i].status.Working?
  }

  function WorkingOfUser(tasks: seq<Task>, u: UserId): set<TaskId> {
    set i: TaskId | 0 <= i < |tasks| && tasks[i].user == u && tasks[i].status.Working?
  }

  function TasksOfGoal(tasks: seq<Task>, g: GoalId): set<TaskId> {
    set i: TaskId | 0 <= i < |tasks| && tasks[i].goal == Some(g)
  }

  predicate OverBudget(d: Db, goal: Option<GoalId>) {
    goal.Some? && |TasksOfGoal(d.tasks, goal.value)| > d.config.goalBudget
  }

  // Money is a float total of the day; whether it has reached its cap is an input here.
  predicate Closed(d: Db, t: TaskId, costReached: bool, g: Gate)
    requires t < |d.tasks|
  {
    match g
    case ProjectPaused => d.tasks[t].project in d.paused
    case AgentBusy => WorkingOfAgent(d.tasks, d.tasks[t].agent) - {t} != {}
    case ConcurrencyCap => |WorkingOfUser(d.tasks, d.tasks[t].user)| >= d.config.concurrencyCap
    case DailyCostCap => costReached
    case GoalChainBudget => OverBudget(d, d.tasks[t].goal)
  }

  function One(d: Db, t: TaskId, costReached: bool, g: Gate): seq<Gate>
    requires t < |d.tasks|
  {
    if Closed(d, t, costReached, g) then [g] else []
  }

  // The closed gates in checking order.
  function Blockers(d: Db, t: TaskId, costReached: bool): (gates: seq<Gate>)
    requires t < |d.tasks|
    ensures gates == [] <==> forall g :: !Closed(d, t, costReached, g)
    ensures forall g :: g in gates <==> Closed(d, t, costReached, g)
  {
    One(d, t, costReached, ProjectPaused) + One(d, t, costReached, AgentBusy) + One(d, t, costReached, ConcurrencyCap)
    + One(d, t, costReached, DailyCostCap) + One(d, t, costReached, GoalChainBudget)
  }

  method DispatchBlockers(db: Session, t: TaskId, costReached: bool) returns (blockers: seq<Gate>)
    requires t < |db.tasks|
    ensures blockers == Blockers(db.View(), t, costReached)
  {
    ghost var d := db.View();
    var row := db.tasks[t];
    blockers := [];
    if row.project in db.paused {
      blockers := blockers + [ProjectPaused];
    }
    assert blockers == One(d, t, costReached, ProjectPaused);
    if WorkingOfAgent(db.tasks, row.agent) - {t} != {} {
      blockers := blockers + [AgentBusy];
    }
    assert blockers == One(d, t, costReached, ProjectPaused) + One(d, t, costReached, AgentBusy);
    if |WorkingOfUser(db.tasks, row.user)| >= db.config.concurrencyCap {
      blockers := blockers + [ConcurrencyCap];
    }
    ghost var firstThree := blockers;
    if costReached {
      blockers := blockers + [DailyCostCap];
    }
    if row.goal.Some? && |TasksOfGoal(db.tasks, row.goal.value)| > db.config.goalBudget {
      blockers := blockers + [GoalChainBudget];
    }
    assert blockers == firstThree + One(d, t, costReached, DailyCostCap) + One(d, t, costReached, GoalChainBudget);
  }

  predicate Dispatchable(d: Db, t: TaskId, costReached: bool)
    requires t < |d.tasks|
  {
    d.tasks[t].status.Queued? && Blockers(d, t, costReached) == []
  }

  function Dispatched(d: Db, t: TaskId, costReached: bool): Db
    requires t < |d.tasks|
  {
    if Dispatchable(d, t, costReached) then WithTask(d, t, d.tasks[t].(status := Working)) else d
  }

  method TryDispatch(db: Session, t: TaskId, costReached: bool) returns (started: bool)
    requires t < |db.tasks|
    modifies db`tasks
    ensures started <==> Dispatchable(old(db.View()), t, costReached)
    ensures db.View() == Dispatched(old(db.View()), t, costReached)
  {
    if !db.tasks[t].status.Queued? {
      return false;
    }
    var blockers := DispatchBlockers(db, t, costReached);
    if blockers != [] {
      return false;
    }
    started := Transition(db, t, Working, NO_PATCH);
  }

  // --- stop and continue ---

  const STOPPED_BY_USER := "Stopped by user"

  function StoppedDb(d: Db, t: TaskId): Db
    requires t < |d.tasks|
  {
    if IsTerminal(d.tasks[t].status) then d
    else WithTask(d, t, d.tasks[t].(status := Failed, stopped := true, error := Some(STOPPED_BY_USER)))
  }

  method Stop(db: Session, t: TaskId)
    requires t < |db.tasks|
    modifies db`tasks
    ensures db.View() == StoppedDb(old(db.View()), t)
  {
    if IsTerminal(db.tasks[t].status) {
      return;
    }
    if db.tasks[t].status.Blocked? || db.tasks[t].status.NeedsInput? {
      db.tasks := db.tasks[t := db.tasks[t].(status := Failed, stopped := true, error := Some(STOPPED_BY_USER))];
      return;
    }
    var ok := Transition(db, t, Failed, NO_PATCH.(stopped := Some(true), error := Some(STOPPED_BY_USER)));
    assert ok;
  }

  predicate AwaitsInput(s: Status) {
    s.Blocked? || s.NeedsInput?
  }

  // None stands for the IllegalTransition exception.
  function Continued(d: Db, t: TaskId, text: string): Option<Db>
    requires t < |d.tasks|
  {
    var row := d.tasks[t];
    if AwaitsInput(row.status)
    then Some(WithTask(d, t, row.(status := Queued, attempt := row.attempt + 1,
                                  continuations := row.continuations + [text], awaiting := None)))
    else None
  }

  method RequestContinue(db: Session, t: TaskId, text: string) returns (ok: bool)
    requires t < |db.tasks|
    modifies db`tasks
    ensures ok <==> Continued(old(db.View()), t, text).Some?
    ensures db.View() == Continued(old(db.View()), t, text).GetOr(old(db.View()))
  {
    if !AwaitsInput(db.tasks[t].status) {
      return false;
    }
    var continuations := db.tasks[t].continuations + [text];
    ok := Transition(db, t, Queued,
      NO_PATCH.(attempt := Some(db.tasks[t].attempt + 1), continuations := Some(continuations), awaiting := Some(None)));
  }

  // --- creation ---

  function NewTask(user: UserId, project: ProjectId, agent: AgentId, engine: Engine, goal: Option<GoalId>,
                   parent: Option<TaskId>, edge: Option<EdgeId>, instructions: string, input: Option<string>): Task {
    Task(user, project, agent, goal, engine, parent, edge, Plain, None, Queued, false, instructions, input,
         [], None, None, None, 0)
  }

  method CreateTask(db: Session, user: UserId, project: ProjectId, agent: AgentId, goal: Option<GoalId>,
                    parent: Option<TaskId>, edge: Option<EdgeId>, instructions: string, input: Option<string>)
    returns (t: TaskId)
    requires agent in db.agents
    modifies db`tasks
    ensures t == |old(db.tasks)|
    ensures db.View() == old(db.View()).(tasks := old(db.tasks)
              + [NewTask(user, project, agent, old(db.agents)[agent].engine, goal, parent, edge, instructions, input)])
  {
    t := |db.tasks|;
    db.tasks := db.tasks + [NewTask(user, project, agent, db.agents[agent].engine, goal, parent, edge, instructions, input)];
  }

  // --- what one legal change can and cannot do ---

  // A finished task is finished: no operation of this service changes it.
  lemma TerminalIsFinal(d: Db, t: TaskId, to: Status, p: Patch, costReached: bool, text: string)
    requires t < |d.tasks|
    ensures IsTerminal(d.tasks[t].status) <==> forall s :: !IsLegal(d.tasks[t].status, s)
    ensures IsTerminal(d.tasks[t].status) ==> Transitioned(d, t, to, p).None? && Continued(d, t, text).None?
    ensures IsTerminal(d.tasks[t].status) ==> Dispatched(d, t, costReached) == d && StoppedDb(d, t) == d
  {
    match d.tasks[t].status {
      case Queued => assert IsLegal(d.tasks[t].status, Working);
      case Working => assert IsLegal(d.tasks[t].status, Done);
      case Blocked => assert IsLegal(d.tasks[t].status, Queued);
      case NeedsInput => assert IsLegal(d.tasks[t].status, Queued);
      case Done =>
      case Failed =>
    }
  }

  ghost predicate Capped(d: Db) {
    && (forall a: AgentId :: |WorkingOfAgent(d.tasks, a)| <= 1)
    && (forall u: UserId :: |WorkingOfUser(d.tasks, u)| == 0 || |WorkingOfUser(d.tasks, u)| <= d.config.concurrencyCap)
  }

  // Rewriting rows without starting one, or adding a row that is not working, keeps the caps.
  lemma CapsKept(d: Db, d': Db)
    requires Capped(d) && d'.config == d.config && |d'.tasks| >= |d.tasks|
    requires forall i :: 0 <= i < |d.tasks| ==> d'.tasks[i].agent == d.tasks[i].agent && d'.tasks[i].user == d.tasks[i].user
    requires forall i :: 0 <= i < |d.tasks| && d'.tasks[i].status.Working? ==> d.tasks[i].status.Working?
    requires forall i :: |d.tasks| <= i < |d'.tasks| ==> !d'.tasks[i].status.Working?
    ensures Capped(d')
  {
    forall a: AgentId
      ensures |WorkingOfAgent(d'.tasks, a)| <= 1
    {
      SubsetCardinality(WorkingOfAgent(d'.tasks, a), WorkingOfAgent(d.tasks, a));
    }
    forall u: UserId
      ensures |WorkingOfUser(d'.tasks, u)| <= |WorkingOfUser(d.tasks, u)|
    {
      SubsetCardinality(WorkingOfUser(d'.tasks, u), WorkingOfUser(d.tasks, u));
    }
  }

  // Passing the gates is what lets one more task work.
  lemma DispatchKeepsCaps(d: Db, t: TaskId, costReached: bool)
    requires t < |d.tasks| && Capped(d)
    ensures Capped(Dispatched(d, t, costReached))
  {
    if Dispatchable(d, t, costReached) {
      assert !Closed(d, t, costReached, AgentBusy) && !Closed(d, t, costReached, ConcurrencyCap);
      StartKeepsCaps(d, t);
    }
  }

  lemma StartKeepsCaps(d: Db, t: TaskId)
    requires t < |d.tasks| && Capped(d) && !d.tasks[t].status.Working?
    requires WorkingOfAgent(d.tasks, d.tasks[t].agent) - {t} == {}
    requires |WorkingOfUser(d.tasks, d.tasks[t].user)| < d.config.concurrencyCap
    ensures Capped(WithTask(d, t, d.tasks[t].(status := Working)))
  {
    var row := d.tasks[t];
    var started := d.tasks[t := row.(status := Working)];
    forall a: AgentId
      ensures |WorkingOfAgent(started, a)| <= 1
    {
      if a == row.agent {
        assert WorkingOfAgent(started, a) == {t};
      } else {
        assert WorkingOfAgent(started, a) == WorkingOfAgent(d.tasks, a);
      }
    }
    forall u: UserId
      ensures |WorkingOfUser(started, u)| == 0 || |WorkingOfUser(started, u)| <= d.config.concurrencyCap
    {
      if u == row.user {
        assert WorkingOfUser(started, u) == WorkingOfUser(d.tasks, u) + {t};
      } else {
        assert WorkingOfUser(started, u) == WorkingOfUser(d.tasks, u);
      }
    }
  }

  /**
   The gates are neither too strict nor too lax: while the day's cost is below its cap, a queued task
   may start if and only if its project runs, its goal has no more tasks than its budget, and both
   caps still hold with this task working. Once the cost has reached its cap nothing may start.
   */
  lemma DispatchableExactlyWhen(d: Db, t: TaskId)
    requires t < |d.tasks| && Capped(d) && d.tasks[t].status.Queued?
    ensures Dispatchable(d, t, false) <==>
      && d.tasks[t].project !in d.paused
      && (d.tasks[t].goal.Some? ==> |TasksOfGoal(d.tasks, d.tasks[t].goal.value)| <= d.config.goalBudget)
      && Capped(WithTask(d, t, d.tasks[t].(status := Working)))
    ensures !Dispatchable(d, t, true)
  {
    assert Closed(d, t, true, DailyCostCap);
    if Dispatchable(d, t, false) {
      DispatchKeepsCaps(d, t, false);
      assert !Closed(d, t, false, ProjectPaused) && !Closed(d, t, false, GoalChainBudget);
    } else if Capped(WithTask(d, t, d.tasks[t].(status := Working))) {
      CappedGatesOpen(d, t);
      var g :| Closed(d, t, false, g);
    }
  }

  // If the caps hold with the task working, the two gates that guard them are open.
  lemma CappedGatesOpen(d: Db, t: TaskId)
    requires t < |d.tasks| && d.tasks[t].status.Queued? && Capped(WithTask(d, t, d.tasks[t].(status := Working)))
    ensures !Closed(d, t, false, AgentBusy) && !Closed(d, t, false, ConcurrencyCap)
  {
    var row := d.tasks[t];
    var started := d.tasks[t := row.(status := Working)];
    assert WorkingOfAgent(started, row.agent) == WorkingOfAgent(d.tasks, row.agent) + {t};
    assert WorkingOfUser(started, row.user) == WorkingOfUser(d.tasks, row.user) + {t};
    assert |WorkingOfAgent(started, row.agent)| == |WorkingOfAgent(d.tasks, row.agent)| + 1;
    assert |WorkingOfUser(started, row.user)| == |WorkingOfUser(d.tasks, row.user)| + 1;
  }

  predicate Precedes(g: Gate, h: Gate) {
    match g
    case ProjectPaused => !h.ProjectPaused?
    case AgentBusy => h.ConcurrencyCap? || h.DailyCostCap? || h.GoalChainBudget?
    case ConcurrencyCap => h.DailyCostCap? || h.GoalChainBudget?
    case DailyCostCap => h.GoalChainBudget?
    case GoalChainBudget => false
  }

  // Each closed gate is named once, in the order in which the gates are checked.
  lemma BlockersInOrder(d: Db, t: TaskId, costReached: bool)
    requires t < |d.tasks|
    ensures var gates := Blockers(d, t, costReached); forall i, j :: 0 <= i < j < |gates| ==> Precedes(gates[i], gates[j])
  {
  }
}
