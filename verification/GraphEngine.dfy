/**
 Propagation of a finished task along the graph (backend/app/services/graph_engine.py): what
 task, if any, a finished task creates, with the review-round protocol.
 */
module GraphEngine {
  import opened Common
  import opened Schema
  import opened TaskService

  // --- reads ---

  function Outgoing(edges: seq<Edge>, a: AgentId): (e: Option<Edge>)
    ensures e.Some? ==> e.value in edges && e.value.src == a
    ensures e.None? <==> forall x :: x in edges ==> x.src != a
  {
    if edges == [] then None
    else if edges[0].src == a then Some(edges[0])
    else
      assert edges == [edges[0]] + edges[1..];
      Outgoing(edges[1..], a)
  }

  function FindEdge(edges: seq<Edge>, id: EdgeId): (e: Option<Edge>)
    ensures e.Some? ==> e.value in edges && e.value.id == id
    ensures e.None? <==> forall x :: x in edges ==> x.id != id
  {
    if edges == [] then None
    else if edges[0].id == id then Some(edges[0])
    else
      assert edges == [edges[0]] + edges[1..];
      FindEdge(edges[1..], id)
  }

  predicate AlreadyFired(tasks: seq<Task>, parent: TaskId, edge: EdgeId) {
    exists i | 0 <= i < |tasks| :: tasks[i].parent == Some(parent) && tasks[i].edge == Some(edge)
  }

  predicate IsWordChar(c: char) {
    'a' <= c <= 'z' || 'A' <= c <= 'Z' || '0' <= c <= '9' || c == '_'
  }

  // The word APPROVED, between word boundaries, somewhere in the text.
  predicate SaysApproved(text: string) {
    exists i | 0 <= i <= |text| - 8 :: ApprovedAt(text, i)
  }

  predicate ApprovedAt(text: string, i: nat)
    requires i + 8 <= |text|
  {
    && text[i..i + 8] == "APPROVED"
    && (i == 0 || !IsWordChar(text[i - 1]))
    && (i + 8 == |text| || !IsWordChar(text[i + 8]))
  }

  function ResultOf(t: Task): string {
    t.result.GetOr("")
  }

  const REVISE := "Revise your previous work to address the reviewer's feedback."
  const REVIEW := "Review the work below. Emit APPROVED if it meets the bar; otherwise give specific, actionable feedback."

  function RevisionInput(output: string, feedback: string): string {
    "# Your previous output\n" + output + "\n\n# Reviewer feedback\n" + feedback
  }

  // --- the decision ---

  datatype Order = Order(to: AgentId, edge: Option<EdgeId>, instructions: string, input: string, loop: Loop)

  datatype Decision = Halt | Report(notice: Notice) | Send(order: Order)

  function Producer(d: Db, t: TaskId): Option<Task>
    requires t < |d.tasks|
  {
    var p := d.tasks[t].parent;
    if p.Some? && p.value < |d.tasks| then Some(d.tasks[p.value]) else None
  }

  function ReviewDecision(d: Db, t: TaskId): Decision
    requires t < |d.tasks| && d.tasks[t].loop.Review?
  {
    var row := d.tasks[t];
    var edge := FindEdge(d.edges, row.loop.edge);
    if edge.None? then Halt
    else
      var producer := Producer(d, t);
      var output := if producer.Some? then ResultOf(producer.value) else "";
      if SaysApproved(ResultOf(row)) then
        var next := Outgoing(d.edges, row.agent);
        if next.Some? && next.value.kind.Handoff?
        then Send(Order(next.value.dst, Some(next.value.id),
                        if producer.Some? then producer.value.instructions else row.instructions, output, Plain))
        else Halt
      else if row.loop.round < Rounds(edge.value)
      then Send(Order(edge.value.src, Some(edge.value.id), REVISE, RevisionInput(output, ResultOf(row)),
                      Revision(row.loop.round, row.loop.edge)))
      else Report(LoopExhausted(t))
  }

  function Rounds(e: Edge): int {
    if e.kind.ReviewLoop? && e.kind.maxIterations != 0 then e.kind.maxIterations else 1
  }

  function ProducerDecision(d: Db, t: TaskId): Decision
    requires t < |d.tasks|
  {
    var row := d.tasks[t];
    if row.overrideTo.Some? then Send(Order(row.overrideTo.value, None, row.instructions, ResultOf(row), Plain))
    else
      var next := Outgoing(d.edges, row.agent);
      if next.None? then Halt
      else if next.value.kind.Handoff?
      then Send(Order(next.value.dst, Some(next.value.id), row.instructions, ResultOf(row), Plain))
      else Send(Order(next.value.dst, Some(next.value.id), REVIEW, ResultOf(row), Review(NextRound(row.loop), next.value.id)))
  }

  function NextRound(loop: Loop): int {
    if loop.Revision? then loop.round + 1 else 1
  }

  function Decide(d: Db, t: TaskId): Decision
    requires t < |d.tasks|
  {
    var row := d.tasks[t];
    if row.stopped || row.project in d.paused then Halt
    else if OverBudget(d, row.goal) then Report(ChainBudget(t))
    else if row.loop.Review? then ReviewDecision(d, t)
    else ProducerDecision(d, t)
  }

  // The row an order creates below its parent.
  function ChildRow(d: Db, t: TaskId, o: Order): Task
    requires t < |d.tasks| && o.to in d.agents
  {
    var row := d.tasks[t];
    NewTask(row.user, row.project, o.to, d.agents[o.to].engine, row.goal, Some(t), o.edge, o.instructions, Some(o.input)).(loop := o.loop)
  }

  predicate Deliverable(d: Db, t: TaskId, o: Order) {
    o.to in d.agents && !(o.edge.Some? && AlreadyFired(d.tasks, t, o.edge.value))
  }

  function Spawned(d: Db, t: TaskId, o: Order): (Db, Option<TaskId>)
    requires t < |d.tasks|
  {
    if Deliverable(d, t, o) then (d.(tasks := d.tasks + [ChildRow(d, t, o)]), Some(|d.tasks|)) else (d, None)
  }

  function Propagated(d: Db, t: TaskId): (Db, Option<TaskId>)
    requires t < |d.tasks|
  {
    match Decide(d, t)
    case Halt => (d, None)
    case Report(notice) => (d.(notices := d.notices + [notice]), None)
    case Send(order) => Spawned(d, t, order)
  }

  // --- the engine on the session ---

  method Spawn(db: Session, t: TaskId, to: AgentId, edge: Option<EdgeId>, instructions: string, input: string, loop: Loop)
    returns (child: Option<TaskId>)
    requires t < |db.tasks|
    modifies db`tasks
    ensures (db.View(), child) == Spawned(old(db.View()), t, Order(to, edge, instructions, input, loop))
  {
    if edge.Some? && AlreadyFired(db.tasks, t, edge.value) {
      return None;
    }
    if to !in db.agents {
      return None;
    }
    var parent := db.tasks[t];
    var id := CreateTask(db, parent.user, parent.project, to, parent.goal, Some(t), edge, instructions, Some(input));
    db.tasks := db.tasks[id := db.tasks[id].(loop := loop)];
    assert db.tasks == old(db.tasks) + [ChildRow(old(db.View()), t, Order(to, edge, instructions, input, loop))];
    return Some(id);
  }

  method OnReviewerDone(db: Session, t: TaskId) returns (child: Option<TaskId>)
    requires t < |db.tasks| && db.tasks[t].loop.Review?
    modifies db`tasks, db`notices
    ensures (db.View(), child) == match ReviewDecision(old(db.View()), t)
      case Halt => (old(db.View()), None)
      case Report(notice) => (old(db.View()).(notices := old(db.notices) + [notice]), None)
      case Send(order) => Spawned(old(db.View()), t, order)
  {
    var reviewer := db.tasks[t];
    var found := FindEdge(db.edges, reviewer.loop.edge);
    if found.None? {
      return None;
    }
    var edge := found.value;
    var producer: Option<Task> := None;
    if reviewer.parent.Some? && reviewer.parent.value < |db.tasks| {
      producer := Some(db.tasks[reviewer.parent.value]);
    }
    var output := "";
    if producer.Some? {
      output := ResultOf(producer.value);
    }
    var verdict := ResultOf(reviewer);
    if SaysApproved(verdict) {
      var next := Outgoing(db.edges, reviewer.agent);
      if next.Some? && next.value.kind.Handoff? {
        var instructions := if producer.Some? then producer.value.instructions else reviewer.instructions;
        child := Spawn(db, t, next.value.dst, Some(next.value.id), instructions, output, Plain);
        return;
      }
      return None;
    }
    var round := reviewer.loop.round;
    if round < Rounds(edge) {
      child := Spawn(db, t, edge.src, Some(edge.id), REVISE, RevisionInput(output, verdict), Revision(round, reviewer.loop.edge));
      return;
    }
    db.notices := db.notices + [LoopExhausted(t)];
    return None;
  }

  method Propagate(db: Session, t: TaskId) returns (child: Option<TaskId>)
    requires t < |db.tasks|
    modifies db`tasks, db`notices
    ensures (db.View(), child) == Propagated(old(db.View()), t)
  {
    var task := db.tasks[t];
    if task.stopped {
      return None;
    }
    if task.project in db.paused {
      return None;
    }
    if task.goal.Some? && |TasksOfGoal(db.tasks, task.goal.value)| > db.config.goalBudget {
      db.notices := db.notices + [ChainBudget(t)];
      return None;
    }
    if task.loop.Review? {
      child := OnReviewerDone(db, t);
      return;
    }
    if task.overrideTo.Some? {
      child := Spawn(db, t, task.overrideTo.value, None, task.instructions, ResultOf(task), Plain);
      return;
    }
    var next := Outgoing(db.edges, task.agent);
    if next.None? {
      return None;
    }
    var edge := next.value;
    if edge.kind.Handoff? {
      child := Spawn(db, t, edge.dst, Some(edge.id), task.instructions, ResultOf(task), Plain);
      return;
    }
    var round := if task.loop.Revision? then task.loop.round + 1 else 1;
    child := Spawn(db, t, edge.dst, Some(edge.id), REVIEW, ResultOf(task), Review(round, edge.id));
  }

  // Propagation only ever adds a task while the goal is within its budget, so it can overshoot by one.
  lemma PropagationRespectsBudget(d: Db, t: TaskId, g: GoalId)
    requires t < |d.tasks|
    ensures var after := Propagated(d, t).0;
            || |TasksOfGoal(after.tasks, g)| <= |TasksOfGoal(d.tasks, g)|
            || |TasksOfGoal(after.tasks, g)| <= d.config.goalBudget + 1
  {
    var after := Propagated(d, t).0;
    if after.tasks != d.tasks {
      if d.tasks[t].goal == Some(g) {
        assert TasksOfGoal(after.tasks, g) == TasksOfGoal(d.tasks, g) + {|d.tasks|};
      } else {
        assert TasksOfGoal(after.tasks, g) == TasksOfGoal(d.tasks, g);
      }
    }
  }

  /**
   A propagation that creates a task adds one to its goal, and leaves the goal within its budget if
   and only if it was below the budget before.
   */
  lemma SpawnWithinBudgetIff(d: Db, t: TaskId, g: GoalId)
    requires t < |d.tasks| && d.tasks[t].goal == Some(g) && Propagated(d, t).1.Some?
    ensures var before, after := |TasksOfGoal(d.tasks, g)|, |TasksOfGoal(Propagated(d, t).0.tasks, g)|;
      && after == before + 1 && before <= d.config.goalBudget
      && (after <= d.config.goalBudget <==> before < d.config.goalBudget)
  {
    assert TasksOfGoal(Propagated(d, t).0.tasks, g) == TasksOfGoal(d.tasks, g) + {|d.tasks|};
  }

  // The gate as documented: a goal is to have fewer tasks than its budget.
  predicate ReachesBudget(d: Db, goal: Option<GoalId>) {
    goal.Some? && |TasksOfGoal(d.tasks, goal.value)| >= d.config.goalBudget
  }

  // Propagation behind that gate.
  function PropagatedAsDocumented(d: Db, t: TaskId): (Db, Option<TaskId>)
    requires t < |d.tasks|
  {
    if !d.tasks[t].stopped && d.tasks[t].project !in d.paused && ReachesBudget(d, d.tasks[t].goal)
    then (d.(notices := d.notices + [ChainBudget(t)]), None)
    else Propagated(d, t)
  }

  /** The coded propagation and the documented one agree unless an active task's goal has exactly as many tasks as its budget. */
  lemma GateAgreesIff(d: Db, t: TaskId)
    requires t < |d.tasks|
    ensures PropagatedAsDocumented(d, t) == Propagated(d, t)
       <==> d.tasks[t].stopped || d.tasks[t].project in d.paused || d.tasks[t].goal.None?
            || |TasksOfGoal(d.tasks, d.tasks[t].goal.value)| != d.config.goalBudget
  {
    var noted := d.notices + [ChainBudget(t)];
    assert |noted| == |d.notices| + 1 && noted[|d.notices|] == ChainBudget(t);
    if Decide(d, t).Report? && Decide(d, t).notice.LoopExhausted? {
      assert (d.notices + [LoopExhausted(t)])[|d.notices|] == LoopExhausted(t);
    }
  }

  // --- the verdict is a word ---

  // How many word characters the text begins with.
  function RunLength(text: string): (n: nat)
    ensures n <= |text| && (forall i :: 0 <= i < n ==> IsWordChar(text[i])) && (n < |text| ==> !IsWordChar(text[n]))
  {
    if text == "" || !IsWordChar(text[0]) then 0 else 1 + RunLength(text[1..])
  }

  // The longest runs of word characters, in order.
  function Words(text: string): seq<string>
    decreases |text|
  {
    if text == "" then []
    else if !IsWordChar(text[0]) then Words(text[1..])
    else [text[..RunLength(text)]] + Words(text[RunLength(text)..])
  }

  lemma ApprovedLater(text: string, n: nat, i: nat)
    requires 0 < n <= i && i + 8 <= |text| && (n == i ==> !IsWordChar(text[n - 1]))
    ensures ApprovedAt(text, i) <==> ApprovedAt(text[n..], i - n)
  {
    assert text[n..][i - n..i - n + 8] == text[i..i + 8];
  }

  lemma ApprovedLetters(text: string, i: nat)
    requires i + 8 <= |text| && ApprovedAt(text, i)
    ensures forall k :: i <= k < i + 8 ==> IsWordChar(text[k])
  {
    forall k | i <= k < i + 8
      ensures IsWordChar(text[k])
    {
      assert text[i..i + 8][k - i] == "APPROVED"[k - i];
    }
  }

  // Behind the first run, or behind a first character that is none, nothing is missed.
  lemma ApprovedBehind(text: string, n: nat)
    requires 0 < n <= |text| && (forall i: nat :: i < n && i + 8 <= |text| ==> !ApprovedAt(text, i))
    requires n < |text| && IsWordChar(text[n]) ==> !IsWordChar(text[n - 1])
    ensures SaysApproved(text) <==> SaysApproved(text[n..])
  {
    if i: nat :| i <= |text| - 8 && ApprovedAt(text, i) {
      ApprovedLetters(text, i);
      ApprovedLater(text, n, i);
    }
    if j: nat :| j <= |text[n..]| - 8 && ApprovedAt(text[n..], j) {
      ApprovedLetters(text[n..], j);
      assert text[n..][j] == text[n + j];
      ApprovedLater(text, n, n + j);
    }
  }

  lemma ApprovedInRun(text: string)
    requires text != "" && IsWordChar(text[0])
    ensures var n := RunLength(text);
      && (forall i: nat :: 0 < i < n && i + 8 <= |text| ==> !ApprovedAt(text, i))
      && (|text| >= 8 ==> (ApprovedAt(text, 0) <==> text[..n] == "APPROVED"))
  {
    var n := RunLength(text);
    if |text| >= 8 && ApprovedAt(text, 0) {
      ApprovedLetters(text, 0);
      assert n == 8;
      assert text[..n] == text[0..0 + 8];
    } else if |text| >= 8 && text[..n] == "APPROVED" {
      assert text[0..0 + 8] == text[..n];
    }
  }

  /** A review approves exactly when APPROVED is one of the words of its result, not when it is a part of one. */
  lemma {:induction false} ApprovalIsAWord(text: string)
    ensures SaysApproved(text) <==> "APPROVED" in Words(text)
    decreases |text|
  {
    if text != "" && !IsWordChar(text[0]) {
      forall i: nat | i < 1 && i + 8 <= |text|
        ensures !ApprovedAt(text, i)
      {
        if ApprovedAt(text, i) {
          ApprovedLetters(text, i);
        }
      }
      ApprovedBehind(text, 1);
      ApprovalIsAWord(text[1..]);
    } else if text != "" {
      var n := RunLength(text);
      ApprovedInRun(text);
      ApprovalIsAWord(text[n..]);
      if text[..n] == "APPROVED" {
        assert ApprovedAt(text, 0);
      } else {
        ApprovedBehind(text, n);
      }
    }
  }
}
