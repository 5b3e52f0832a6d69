/**
 The whole kernel as one state machine: the database, the broker's messages and the workers' runs.
 Every step is one committed transaction or one broker event, and steps interleave freely. A step
 that is not enabled changes nothing, so every sequence of steps is a run.
 */
module Kernel {
  import opened Common
  import opened Schema
  import opened TaskService
  import opened GraphEngine
  import opened WorkerCore
  import CreditService
  import EdgeOps

  type RunId = nat

  // Waiting: the message is taken, nothing is committed yet. Starting: dispatched, not yet metered.
  // Executing: metered. Finalizing: the task is done and committed, propagation is still to come.
  datatype Pc = Waiting | Starting | Executing | Finalizing
  datatype Run = Run(task: TaskId, pc: Pc)

  // `entries` counts, per task, how often it entered working.
  datatype State = State(db: Db, queue: multiset<TaskId>, runs: map<RunId, Run>, entries: seq<nat>)

  datatype Step =
    | Deliver(run: RunId, task: TaskId)
    | Begin(run: RunId, costReached: bool)
    | Meter(run: RunId)
    | Finish(run: RunId, outcome: Outcome)
    | Finalize(run: RunId)
    | WorkerLost(run: RunId)        // the broker gets the message back
    | WorkerRaised(run: RunId)      // an exception: the message is acknowledged
    | Enqueue(task: TaskId)         // a duplicate or a redelivery
    | LoseMessage(task: TaskId)
    | RecoverSweep(stuck: seq<TaskId>)
    | Reap(stale: seq<TaskId>)
    | StopTask(task: TaskId)
    | ContinueTask(task: TaskId, text: string)
    | Create(user: UserId, agent: AgentId, goal: Option<GoalId>, instructions: string, input: Option<string>, overrideTo: Option<AgentId>)
    | SetPaused(project: ProjectId, paused: bool)
    | GrantCredits(user: UserId)
    | StripeWebhook(event: CreditService.StripeEvent)
    | SetTier(agent: AgentId, tier: Tier)
    | EditEdges(op: EdgeOps.EdgeOp)

  // --- the steps ---

  predicate RunAt(s: State, r: RunId, pc: Pc) {
    && r in s.runs && s.runs[r].pc == pc
    && s.runs[r].task < |s.db.tasks| && |s.entries| == |s.db.tasks|
    && s.db.tasks[s.runs[r].task].agent in s.db.agents
  }

  function Released(s: State, r: RunId): State {
    s.(runs := s.runs - {r})
  }

  function Moved(s: State, r: RunId, pc: Pc): State
    requires r in s.runs
  {
    s.(runs := s.runs[r := s.runs[r].(pc := pc)])
  }

  function Begun(s: State, r: RunId, costReached: bool): State {
    if r in s.runs && s.runs[r].pc.Waiting? then
      var t := s.runs[r].task;
      if t < |s.db.tasks| && |s.entries| == |s.db.tasks| && Dispatchable(s.db, t, costReached)
      then Moved(s, r, Starting).(db := Dispatched(s.db, t, costReached), entries := s.entries[t := s.entries[t] + 1])
      else Released(s, r)
    else s
  }

  function MeteredRun(s: State, r: RunId): State {
    if RunAt(s, r, Starting) then
      var (db, m) := Metered(s.db, s.runs[r].task);
      if m.Go? then Moved(s, r, Executing).(db := db) else Released(s, r).(db := db)
    else s
  }

  // A coding task commits `done` with its outputs first and propagates in a second transaction.
  function RecordedRun(s: State, r: RunId, o: Outcome): State {
    if RunAt(s, r, Executing) then
      var after := Recorded(s.db, s.runs[r].task, o);
      if after.None? then Released(s, r)
      else if o.Finished? then Moved(s, r, Finalizing).(db := after.value)
      else Released(s, r).(db := after.value)
    else s
  }

  function FinalizedRun(s: State, r: RunId): State {
    if RunAt(s, r, Finalizing) then
      var (db, child) := Propagated(s.db, s.runs[r].task);
      if child.Some?
      then Released(s, r).(db := db, queue := s.queue + multiset{child.value}, entries := s.entries + [0])
      else Released(s, r).(db := db)
    else s
  }

  // A text task finishes and propagates in one transaction.
  function FinishedRun(s: State, r: RunId, o: Outcome): State {
    var recorded := RecordedRun(s, r, o);
    if RunAt(s, r, Executing) && s.db.tasks[s.runs[r].task].engine.Crew? then FinalizedRun(recorded, r) else recorded
  }

  function Created(s: State, user: UserId, agent: AgentId, goal: Option<GoalId>, instructions: string, input: Option<string>, overrideTo: Option<AgentId>): State {
    if agent in s.db.agents then
      var row := NewTask(user, s.db.agents[agent].project, agent, s.db.agents[agent].engine, goal, None, None, instructions, input).(overrideTo := overrideTo);
      s.(db := s.db.(tasks := s.db.tasks + [row]), queue := s.queue + multiset{|s.db.tasks|}, entries := s.entries + [0])
    else s
  }

  function StillQueued(tasks: seq<Task>, stuck: seq<TaskId>): seq<TaskId> {
    if stuck == [] then []
    else (if stuck[0] < |tasks| && tasks[stuck[0]].status.Queued? then [stuck[0]] else []) + StillQueued(tasks, stuck[1..])
  }

  ghost function EditedGraph(d: Db, op: EdgeOps.EdgeOp): Db {
    if op.RemoveAgent? then d
    else
      var g := EdgeOps.Edited(EdgeOps.Graph(d.agents, d.edges), op);
      d.(agents := g.agents, edges := g.edges)
  }

  ghost function Next(s: State, step: Step): State {
    match step
    case Deliver(r, t) =>
      if t in s.queue && r !in s.runs then s.(queue := s.queue - multiset{t}, runs := s.runs[r := Run(t, Waiting)]) else s
    case Begin(r, costReached) => Begun(s, r, costReached)
    case Meter(r) => MeteredRun(s, r)
    case Finish(r, o) => FinishedRun(s, r, o)
    case Finalize(r) => FinalizedRun(s, r)
    case WorkerLost(r) => if r in s.runs then Released(s, r).(queue := s.queue + multiset{s.runs[r].task}) else s
    case WorkerRaised(r) => Released(s, r)
    case Enqueue(t) => s.(queue := s.queue + multiset{t})
    case LoseMessage(t) => s.(queue := s.queue - multiset{t})
    case RecoverSweep(stuck) => s.(queue := s.queue + multiset(StillQueued(s.db.tasks, stuck)))
    case Reap(stale) => s.(db := Reaped(s.db, stale))
    case StopTask(t) => if t < |s.db.tasks| then s.(db := StoppedDb(s.db, t)) else s
    case ContinueTask(t, text) =>
      if t < |s.db.tasks| && Continued(s.db, t, text).Some?
      then s.(db := Continued(s.db, t, text).value, queue := s.queue + multiset{t}) else s
    case Create(user, agent, goal, instructions, input, overrideTo) => Created(s, user, agent, goal, instructions, input, overrideTo)
    case SetPaused(p, paused) => s.(db := s.db.(paused := if paused then s.db.paused + {p} else s.db.paused - {p}))
    case GrantCredits(u) => s.(db := s.db.(books := CreditService.SignupPosting(s.db.books, u, CreditService.SIGNUP_CREDITS)))
    case StripeWebhook(ev) => s.(db := s.db.(books := CreditService.AfterEvent(s.db.books, ev)))
    case SetTier(a, tier) =>
      if a in s.db.agents then s.(db := s.db.(agents := s.db.agents[a := s.db.agents[a].(tier := tier)])) else s
    case EditEdges(op) => s.(db := EditedGraph(s.db, op))
  }

  ghost function After(s: State, steps: seq<Step>): State {
    if steps == [] then s else Next(After(s, steps[..|steps| - 1]), steps[|steps| - 1])
  }

  lemma OneMore(s: State, steps: seq<Step>, step: Step)
    ensures After(s, steps + [step]) == Next(After(s, steps), step)
  {
    assert (steps + [step])[..|steps|] == steps;
  }

  lemma TwoSteps(s: State, a: Step, b: Step)
    ensures After(s, [a, b]) == Next(Next(s, a), b)
  {
    OneMore(s, [], a);
    OneMore(s, [a], b);
    assert [] + [a] == [a] && [a] + [b] == [a, b];
  }

  lemma ThreeSteps(s: State, a: Step, b: Step, c: Step)
    ensures After(s, [a, b, c]) == Next(Next(Next(s, a), b), c)
  {
    TwoSteps(s, a, b);
    OneMore(s, [a, b], c);
    assert [a, b] + [c] == [a, b, c];
  }

  lemma {:induction false} AfterJoined(s: State, first: seq<Step>, second: seq<Step>)
    ensures After(s, first + second) == After(After(s, first), second)
    decreases |second|
  {
    if second == [] {
      assert first + second == first;
    } else {
      var front, last := second[..|second| - 1], second[|second| - 1];
      assert second == front + [last];
      AfterJoined(s, first, front);
      JoinOneMore(s, first, front, last);
    }
  }

  lemma JoinOneMore(s: State, first: seq<Step>, front: seq<Step>, last: Step)
    requires After(s, first + front) == After(After(s, first), front)
    ensures After(s, first + (front + [last])) == After(After(s, first), front + [last])
  {
    Regrouped(first, front, last);
    SameStepAfterSame(s, first + front, After(s, first), front, last);
  }

  lemma Regrouped(first: seq<Step>, front: seq<Step>, last: Step)
    ensures first + (front + [last]) == (first + front) + [last]
  {
  }

  lemma SameStepAfterSame(s: State, steps: seq<Step>, u: State, others: seq<Step>, step: Step)
    requires After(s, steps) == After(u, others)
    ensures After(s, steps + [step]) == After(u, others + [step])
  {
    OneMore(s, steps, step);
    OneMore(u, others, step);
  }

  function Start(config: Config, agents: map<AgentId, Agent>): State {
    State(Db(config, {}, agents, [], [], [], CreditService.EMPTY_BOOKS), multiset{}, map[], [])
  }

  // --- counting ledger lines ---

  function LinesFor(ledger: seq<Entry>, t: TaskId, reason: Reason): nat {
    if ledger == [] then 0
    else
      var last := ledger[|ledger| - 1];
      LinesFor(ledger[..|ledger| - 1], t, reason) + (if last.task == Some(t) && last.reason == reason then 1 else 0)
  }

  function Charges(d: Db, t: TaskId): nat { LinesFor(d.books.ledger, t, TaskCharge) }

  function Refunds(d: Db, t: TaskId): nat { LinesFor(d.books.ledger, t, RefundSystemFailure) }

  lemma LinesForPush(ledger: seq<Entry>, e: Entry, t: TaskId, reason: Reason)
    ensures LinesFor(ledger + [e], t, reason) == LinesFor(ledger, t, reason) + (if e.task == Some(t) && e.reason == reason then 1 else 0)
  {
    assert (ledger + [e])[..|ledger|] == ledger;
  }

  // --- the invariants ---

  // A run past dispatch holds its task, and the task is then working, or failed under it, or done.
  predicate HoldAllows(pc: Pc, status: Status) {
    match pc
    case Waiting => true
    case Starting => status.Working? || status.Failed?
    case Executing => status.Working? || status.Failed?
    case Finalizing => status.Done?
  }

  ghost predicate RunsOk(s: State) {
    && |s.entries| == |s.db.tasks|
    && (forall r :: r in s.runs && !s.runs[r].pc.Waiting? ==>
          s.runs[r].task < |s.db.tasks| && HoldAllows(s.runs[r].pc, s.db.tasks[s.runs[r].task].status))
    && (forall q, r :: q in s.runs && r in s.runs && q != r && !s.runs[q].pc.Waiting? && !s.runs[r].pc.Waiting? ==>
          s.runs[q].task != s.runs[r].task)
  }

  ghost predicate AgentsOk(s: State) {
    && (forall t :: 0 <= t < |s.db.tasks| ==> s.db.tasks[t].agent in s.db.agents)
    && EdgeOps.ValidEdges(s.db.agents, s.db.edges)
  }

  ghost predicate EntriesOk(s: State) {
    && |s.entries| == |s.db.tasks|
    && forall t :: 0 <= t < |s.db.tasks| ==>
         s.entries[t] + (if s.db.tasks[t].status.Queued? then 1 else 0) <= s.db.tasks[t].attempt + 1
  }

  ghost predicate StartingOn(s: State, t: TaskId) {
    exists r :: r in s.runs && s.runs[r] == Run(t, Starting)
  }

  ghost predicate MoneyOk(s: State) {
    && |s.entries| == |s.db.tasks|
    && (forall t: TaskId :: t >= |s.db.tasks| ==> Charges(s.db, t) == 0 && Refunds(s.db, t) == 0)
    && (forall t :: 0 <= t < |s.db.tasks| ==> Charges(s.db, t) + (if StartingOn(s, t) then 1 else 0) <= s.entries[t])
    && (forall t :: 0 <= t < |s.db.tasks| ==> Refunds(s.db, t) <= (if s.db.tasks[t].status.Failed? then 1 else 0))
  }

  function EnteredIn(tasks: seq<Task>, entries: seq<nat>, g: GoalId): set<TaskId> {
    set t: TaskId | 0 <= t < |tasks| && t < |entries| && entries[t] > 0 && tasks[t].goal == Some(g)
  }

  function EnteredOfGoal(s: State, g: GoalId): set<TaskId> {
    EnteredIn(s.db.tasks, s.entries, g)
  }

  ghost predicate BudgetOk(s: State) {
    && |s.entries| == |s.db.tasks|
    && forall g: GoalId :: |EnteredOfGoal(s, g)| == 0 || |EnteredOfGoal(s, g)| <= s.db.config.goalBudget
  }

  ghost predicate FinalizingOn(s: State, t: TaskId) {
    exists r :: r in s.runs && s.runs[r] == Run(t, Finalizing)
  }

  // Provenance: a parent is an earlier, finished task, and has one child at most.
  ghost predicate TreeOk(s: State) {
    && (forall c :: 0 <= c < |s.db.tasks| && s.db.tasks[c].parent.Some? ==>
          var p := s.db.tasks[c].parent.value;
          p < c && s.db.tasks[p].status.Done? && !FinalizingOn(s, p))
    && (forall b, c :: 0 <= b < c < |s.db.tasks| && s.db.tasks[b].parent.Some? ==> s.db.tasks[b].parent != s.db.tasks[c].parent)
    && (forall c :: 0 <= c < |s.db.tasks| && s.db.tasks[c].parent.None? ==> s.db.tasks[c].loop == Plain)
    && (forall c :: 0 <= c < |s.db.tasks| && s.db.tasks[c].parent.Some? ==> s.db.tasks[c].overrideTo.None?)
  }

  // What a propagated task was handed, in terms of the finished tasks above it.
  ghost predicate HandedRight(tasks: seq<Task>, c: TaskId)
    requires c < |tasks| && tasks[c].parent.Some? && tasks[c].parent.value < |tasks|
  {
    var row := tasks[c];
    var p := tasks[row.parent.value];
    if p.loop.Review?
    then p.parent.Some? && p.parent.value < |tasks| && AfterReview(tasks[p.parent.value], p, row)
    else AfterWork(p, row)
  }

  // Below a reviewer: the reviewed work itself on approval, otherwise the work and the feedback, back to its producer.
  ghost predicate AfterReview(producer: Task, reviewer: Task, row: Task) {
    && (SaysApproved(ResultOf(reviewer)) ==>
          row.loop == Plain && row.input == Some(ResultOf(producer)) && row.instructions == producer.instructions)
    && (!SaysApproved(ResultOf(reviewer)) && reviewer.loop.Review? ==>
          && row.loop == Revision(reviewer.loop.round, reviewer.loop.edge) && row.instructions == REVISE
          && row.input == Some(RevisionInput(ResultOf(producer), ResultOf(reviewer))))
  }

  ghost predicate AfterWork(p: Task, row: Task) {
    && row.input == Some(ResultOf(p))
    && !row.loop.Revision?
    && row.instructions == (if row.loop.Review? then REVIEW else p.instructions)
  }

  ghost predicate DeliveryOk(s: State) {
    forall c :: 0 <= c < |s.db.tasks| && s.db.tasks[c].parent.Some? && s.db.tasks[c].parent.value < |s.db.tasks|
      ==> HandedRight(s.db.tasks, c)
  }

  ghost predicate Inv(s: State) {
    && RunsOk(s)
    && AgentsOk(s)
    && EntriesOk(s)
    && MoneyOk(s)
    && BudgetOk(s)
    && TreeOk(s)
    && DeliveryOk(s)
    && Capped(s.db)
    && CreditService.SoundBooks(s.db.books)
  }

  // --- how rows may change in one step ---

  // The columns that never change, and the statuses that are final.
  ghost predicate RowEvolves(a: Task, b: Task) {
    && b.user == a.user && b.project == a.project && b.agent == a.agent && b.goal == a.goal && b.engine == a.engine
    && b.parent == a.parent && b.edge == a.edge && b.loop == a.loop && b.overrideTo == a.overrideTo
    && b.instructions == a.instructions && b.input == a.input
    && (IsTerminal(a.status) ==> b == a)
    && a.attempt <= b.attempt
  }

  ghost predicate RowsEvolve(d: Db, d': Db) {
    && |d'.tasks| >= |d.tasks|
    && forall t :: 0 <= t < |d.tasks| ==> RowEvolves(d.tasks[t], d'.tasks[t])
  }

  // Provenance and hand-over survive any change of rows that adds none.
  lemma TreeKept(s: State, s': State)
    requires TreeOk(s) && DeliveryOk(s)
    requires RowsEvolve(s.db, s'.db) && |s'.db.tasks| == |s.db.tasks|
    requires forall r :: r in s'.runs && s'.runs[r].pc.Finalizing? && s'.runs[r].task < |s.db.tasks| && s.db.tasks[s'.runs[r].task].status.Done?
               ==> r in s.runs && s.runs[r] == s'.runs[r]
    ensures TreeOk(s') && DeliveryOk(s')
  {
    forall c | 0 <= c < |s'.db.tasks| && s'.db.tasks[c].parent.Some?
      ensures var p := s'.db.tasks[c].parent.value;
              p < c && s'.db.tasks[p].status.Done? && !FinalizingOn(s', p) && HandedRight(s'.db.tasks, c)
    {
      assert RowEvolves(s.db.tasks[c], s'.db.tasks[c]);
      var p := s.db.tasks[c].parent.value;
      assert RowEvolves(s.db.tasks[p], s'.db.tasks[p]);
      assert HandedRight(s.db.tasks, c);
      if s.db.tasks[p].parent.Some? {
        var q := s.db.tasks[p].parent.value;
        assert RowEvolves(s.db.tasks[q], s'.db.tasks[q]);
      }
    }
    forall b, c | 0 <= b < c < |s'.db.tasks| && s'.db.tasks[b].parent.Some?
      ensures s'.db.tasks[b].parent != s'.db.tasks[c].parent
    {
      assert RowEvolves(s.db.tasks[b], s'.db.tasks[b]);
      assert RowEvolves(s.db.tasks[c], s'.db.tasks[c]);
    }
    forall c | 0 <= c < |s'.db.tasks|
      ensures s'.db.tasks[c].parent.None? ==> s'.db.tasks[c].loop == Plain
      ensures s'.db.tasks[c].parent.Some? ==> s'.db.tasks[c].overrideTo.None?
    {
      assert RowEvolves(s.db.tasks[c], s'.db.tasks[c]);
    }
  }

  // The goal budget only depends on goals and entries.
  lemma BudgetKept(s: State, s': State)
    requires BudgetOk(s) && s'.db.config == s.db.config && |s'.entries| == |s'.db.tasks| >= |s.db.tasks|
    requires forall t :: 0 <= t < |s.db.tasks| ==> s'.db.tasks[t].goal == s.db.tasks[t].goal && s'.entries[t] == s.entries[t]
    requires forall t :: |s.db.tasks| <= t < |s'.db.tasks| ==> s'.entries[t] == 0
    ensures BudgetOk(s')
  {
    forall g: GoalId
      ensures EnteredOfGoal(s', g) == EnteredOfGoal(s, g)
    {
    }
  }

  // --- steps that leave the task table alone ---

  lemma BookkeepingInv(s: State, s': State)
    requires Inv(s)
    requires s'.db.tasks == s.db.tasks && s'.db.config == s.db.config && s'.entries == s.entries
    requires forall r :: r in s'.runs ==> s'.runs[r].pc.Waiting? || (r in s.runs && s.runs[r] == s'.runs[r])
    requires CreditService.SoundBooks(s'.db.books)
    requires forall t :: Charges(s'.db, t) == Charges(s.db, t) && Refunds(s'.db, t) == Refunds(s.db, t)
    requires s.db.agents.Keys <= s'.db.agents.Keys && EdgeOps.ValidEdges(s'.db.agents, s'.db.edges)
    ensures Inv(s')
  {
    assert RowsEvolve(s.db, s'.db);
    MoneyKept(s, s');
    TreeKept(s, s');
    BudgetKept(s, s');
    CapsKept(s.db, s'.db);
  }

  lemma MoneyKept(s: State, s': State)
    requires MoneyOk(s) && s'.db.tasks == s.db.tasks && s'.entries == s.entries
    requires forall r :: r in s'.runs ==> s'.runs[r].pc.Waiting? || (r in s.runs && s.runs[r] == s'.runs[r])
    requires forall t :: Charges(s'.db, t) == Charges(s.db, t) && Refunds(s'.db, t) == Refunds(s.db, t)
    ensures MoneyOk(s')
  {
  }
}
