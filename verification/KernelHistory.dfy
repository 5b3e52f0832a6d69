/**
 What the columns of a task say, told by the history alone: who ordered it or what it was propagated
 from, what the user added to it, what came out of it last and how it ended.
 */
module KernelHistory {
  import opened Common
  import opened Schema
  import opened TaskService
  import opened GraphEngine
  import opened WorkerCore
  import opened Kernel
  import opened KernelSafety
  import opened KernelTheorems
  import opened KernelChains
  import opened KernelEntryRefunds
  import EdgeOps

  // --- what a step does to one row ---

  // The user's answer reaches a task that waits for one.
  ghost predicate Continues(s: State, step: Step, t: TaskId) {
    step.ContinueTask? && step.task == t && t < |s.db.tasks| && AwaitsInput(s.db.tasks[t].status)
  }

  // The engine's outcome is recorded on a task that still works.
  ghost predicate Ends(s: State, step: Step, t: TaskId) {
    step.Finish? && !step.outcome.Interrupted? && t < |s.db.tasks| && ExecutingIn(s, step.run, t) && s.db.tasks[t].status.Working?
  }

  ghost predicate Stops(s: State, step: Step, t: TaskId) {
    step.StopTask? && step.task == t && t < |s.db.tasks| && !IsTerminal(s.db.tasks[t].status)
  }

  // Apart from ends, stops and continues a row only starts, is blocked for want of credits, or is reaped.
  ghost predicate MovesOnly(a: Task, b: Task) {
    || b == a
    || (a.status.Queued? && b == a.(status := Working))
    || (a.status.Working? && b == a.(status := Blocked, error := Some(OUT_OF_CREDITS)))
    || (a.status.Working? && b == a.(status := Failed, error := Some(REAPED)))
  }

  // What a recorded outcome leaves in the row.
  ghost predicate EndsAs(a: Task, b: Task, o: Outcome) {
    match o
    case SystemFailure(error) => b == a.(status := Failed, error := Some(error))
    case QualityFailure(error, partial) => b == a.(status := Failed, error := Some(error), result := if partial.Some? then partial else a.result)
    case Asked(question, output) => b == a.(status := NeedsInput, awaiting := Some(question), result := Some(output))
    case Interrupted => false
    case Finished(output) => b == a.(status := Done, result := Some(output))
  }

  ghost predicate RowMoves(s: State, step: Step, t: TaskId)
    requires t < |s.db.tasks| && t < |Next(s, step).db.tasks|
  {
    var a, b := s.db.tasks[t], Next(s, step).db.tasks[t];
    if Continues(s, step, t) then
      b == a.(status := Queued, attempt := a.attempt + 1, continuations := a.continuations + [step.text], awaiting := None)
    else if Ends(s, step, t) then EndsAs(a, b, step.outcome)
    else if Stops(s, step, t) then b == a.(status := Failed, stopped := true, error := Some(STOPPED_BY_USER))
    else MovesOnly(a, b)
  }

  lemma EndedRow(d: Db, t: TaskId, o: Outcome)
    requires t < |d.tasks| && d.tasks[t].agent in d.agents && d.tasks[t].status.Working? && !o.Interrupted?
    ensures Recorded(d, t, o).Some? && |Recorded(d, t, o).value.tasks| == |d.tasks| && EndsAs(d.tasks[t], Recorded(d, t, o).value.tasks[t], o)
  {
  }

  lemma RecordedRowMoves(s: State, r: RunId, o: Outcome, t: TaskId)
    requires RunsOk(s) && t < |s.db.tasks|
    ensures |RecordedRun(s, r, o).db.tasks| == |s.db.tasks|
    ensures var a, b := s.db.tasks[t], RecordedRun(s, r, o).db.tasks[t];
      if RunAt(s, r, Executing) && s.runs[r].task == t && a.status.Working? && !o.Interrupted? then EndsAs(a, b, o) else b == a
  {
    if RunAt(s, r, Executing) {
      var own := s.runs[r].task;
      if Recorded(s.db, own, o).Some? {
        RecordedRow(s.db, own, o);
      }
      if own == t && s.db.tasks[t].status.Working? && !o.Interrupted? {
        EndedRow(s.db, t, o);
      }
    }
  }

  lemma FinishRowMoves(s: State, r: RunId, o: Outcome, t: TaskId)
    requires Inv(s) && t < |s.db.tasks|
    ensures |FinishedRun(s, r, o).db.tasks| >= |s.db.tasks|
    ensures var a, b := s.db.tasks[t], FinishedRun(s, r, o).db.tasks[t];
      if RunAt(s, r, Executing) && s.runs[r].task == t && a.status.Working? && !o.Interrupted? then EndsAs(a, b, o) else b == a
  {
    RecordedRowMoves(s, r, o, t);
    RecordInv(s, r, o);
    FinalizeEffect(RecordedRun(s, r, o), r);
  }

  lemma MeterRowMoves(s: State, r: RunId, t: TaskId)
    requires t < |s.db.tasks|
    ensures |MeteredRun(s, r).db.tasks| == |s.db.tasks| && MovesOnly(s.db.tasks[t], MeteredRun(s, r).db.tasks[t])
  {
    if RunAt(s, r, Starting) {
      var own := s.runs[r].task;
      MeteredRow(s.db, own);
      BlockedRow(s.db, own);
    }
  }

  lemma BlockedRow(d: Db, t: TaskId)
    requires t < |d.tasks| && d.tasks[t].agent in d.agents
    ensures |Metered(d, t).0.tasks| == |d.tasks| && MovesOnly(d.tasks[t], Metered(d, t).0.tasks[t])
  {
  }

  lemma BeginRowMoves(s: State, r: RunId, costReached: bool, t: TaskId)
    requires t < |s.db.tasks|
    ensures |Begun(s, r, costReached).db.tasks| == |s.db.tasks| && MovesOnly(s.db.tasks[t], Begun(s, r, costReached).db.tasks[t])
  {
  }

  lemma StopRowMoves(s: State, x: TaskId, t: TaskId)
    requires t < |s.db.tasks|
    ensures |Next(s, StopTask(x)).db.tasks| == |s.db.tasks| && RowMoves(s, StopTask(x), t)
  {
  }

  lemma ContinueRowMoves(s: State, x: TaskId, text: string, t: TaskId)
    requires t < |s.db.tasks|
    ensures |Next(s, ContinueTask(x, text)).db.tasks| == |s.db.tasks| && RowMoves(s, ContinueTask(x, text), t)
  {
  }

  lemma StepRowMoves(s: State, step: Step, t: TaskId)
    requires Inv(s) && t < |s.db.tasks|
    ensures t < |Next(s, step).db.tasks| && RowMoves(s, step, t)
  {
    if step.Finish? {
      FinishRowMoves(s, step.run, step.outcome, t);
    } else if step.Finalize? {
      FinalizeEffect(s, step.run);
    } else if step.Meter? {
      MeterRowMoves(s, step.run, t);
    } else if step.Reap? {
      ReapedRows(s.db, step.stale);
    } else if step.Begin? {
      BeginRowMoves(s, step.run, step.costReached, t);
    } else if step.StopTask? {
      StopRowMoves(s, step.task, t);
    } else if step.ContinueTask? {
      ContinueRowMoves(s, step.task, step.text, t);
    } else if !step.Create? {
      assert Next(s, step).db.tasks == s.db.tasks;
    }
  }

  /** In every run a step changes the status of a task as the transition table allows, with one exception: a stop fails a waiting task. */
  lemma StatusChangesAreLegal(config: Config, agents: map<AgentId, Agent>, steps: seq<Step>, step: Step, t: TaskId)
    requires t < |After(Start(config, agents), steps).db.tasks|
    ensures var s := After(Start(config, agents), steps);
      && t < |Next(s, step).db.tasks|
      && var a, b := s.db.tasks[t].status, Next(s, step).db.tasks[t].status;
         a != b ==> (IsLegal(a, b) <==> !(Stops(s, step, t) && AwaitsInput(a)))
  {
    StartInv(config, agents);
    ReachableInv(Start(config, agents), steps);
    var s := After(Start(config, agents), steps);
    StepRowMoves(s, step, t);
    LegalMove(s, step, t);
  }

  lemma LegalMove(s: State, step: Step, t: TaskId)
    requires t < |s.db.tasks| && t < |Next(s, step).db.tasks| && RowMoves(s, step, t)
    ensures var a, b := s.db.tasks[t].status, Next(s, step).db.tasks[t].status;
      a != b ==> (IsLegal(a, b) <==> !(Stops(s, step, t) && AwaitsInput(a)))
  {
    var a, b := s.db.tasks[t], Next(s, step).db.tasks[t];
    if Ends(s, step, t) {
      EndIsLegal(a, b, step.outcome);
    } else if !Continues(s, step, t) && !Stops(s, step, t) {
      MoveIsLegal(a, b);
    }
  }

  lemma EndIsLegal(a: Task, b: Task, o: Outcome)
    requires a.status.Working? && EndsAs(a, b, o)
    ensures IsLegal(a.status, b.status)
  {
  }

  lemma MoveIsLegal(a: Task, b: Task)
    requires MovesOnly(a, b)
    ensures a.status != b.status ==> IsLegal(a.status, b.status)
  {
  }

  // --- the rows a step adds ---

  ghost predicate Inherits(child: Task, parent: Task) {
    child.user == parent.user && child.project == parent.project && child.goal == parent.goal
  }

  // The columns a task gets when it is ordered.
  ghost predicate OrderedAs(row: Task, step: Step) {
    && step.Create? && row.user == step.user && row.agent == step.agent && row.goal == step.goal
    && row.instructions == step.instructions && row.input == step.input && row.overrideTo == step.overrideTo
  }

  ghost predicate Untouched(row: Task) {
    && row.status.Queued? && !row.stopped && row.attempt == 0 && row.continuations == []
    && row.result.None? && row.awaiting.None? && row.error.None?
  }

  ghost predicate Orders(s: State, step: Step) {
    step.Create? && step.agent in s.db.agents
  }

  ghost function OrderOf(s: State, step: Step): Option<Step> {
    if Orders(s, step) then Some(step) else None
  }

  // A task runs on the engine of its agent, and an ordered one in its agent's project.
  ghost predicate Fits(row: Task, agents: map<AgentId, Agent>) {
    && row.agent in agents && row.engine == agents[row.agent].engine
    && (row.parent.None? ==> row.project == agents[row.agent].project)
  }

  // At most one more task, ordered or propagated.
  ghost predicate AddsOne(before: seq<Task>, after: seq<Task>, order: Option<Step>, agents: map<AgentId, Agent>) {
    && |before| <= |after| <= |before| + 1
    && (order.Some? ==> |after| == |before| + 1)
    && (|after| == |before| + 1 ==>
          var row := after[|before|];
          && Untouched(row) && Fits(row, agents)
          && if order.Some? then row.parent.None? && OrderedAs(row, order.value)
             else row.parent.Some? && row.parent.value < |before| && Inherits(row, before[row.parent.value]))
  }

  lemma ChildInherits(d: Db, t: TaskId)
    requires t < |d.tasks| && Propagated(d, t).1.Some?
    ensures var d' := Propagated(d, t).0;
      && |d'.tasks| == |d.tasks| + 1
      && var row := d'.tasks[|d.tasks|]; Untouched(row) && Fits(row, d.agents) && row.parent == Some(t) && Inherits(row, d.tasks[t])
  {
  }

  lemma FinalizeAdds(s: State, r: RunId)
    requires RunsOk(s)
    ensures AddsOne(s.db.tasks, FinalizedRun(s, r).db.tasks, None, s.db.agents)
  {
    if RunAt(s, r, Finalizing) && Propagated(s.db, s.runs[r].task).1.Some? {
      ChildInherits(s.db, s.runs[r].task);
    }
  }

  lemma FinishAdds(s: State, r: RunId, o: Outcome)
    requires Inv(s)
    ensures AddsOne(s.db.tasks, FinishedRun(s, r, o).db.tasks, None, s.db.agents)
  {
    var m := RecordedRun(s, r, o);
    RecordInv(s, r, o);
    RecordEffect(s, r, o);
    RecordAddsNoRow(s, r, o);
    FinalizeAdds(m, r);
    forall p | 0 <= p < |s.db.tasks|
      ensures m.db.tasks[p].user == s.db.tasks[p].user && m.db.tasks[p].project == s.db.tasks[p].project && m.db.tasks[p].goal == s.db.tasks[p].goal
    {
      assert RowEffect(s, m, p, false);
    }
  }

  lemma OtherAdds(s: State, step: Step)
    requires RunsOk(s) && !step.Finish? && !step.Finalize? && !step.Create?
    ensures |Next(s, step).db.tasks| == |s.db.tasks|
  {
    if step.Reap? {
      ReapedRows(s.db, step.stale);
    } else if step.Meter? {
      if RunAt(s, step.run, Starting) {
        MeteredRow(s.db, s.runs[step.run].task);
      }
    }
  }

  lemma StepAdds(s: State, step: Step)
    requires Inv(s)
    ensures AddsOne(s.db.tasks, Next(s, step).db.tasks, OrderOf(s, step), s.db.agents)
  {
    if step.Finish? {
      FinishAdds(s, step.run, step.outcome);
    } else if step.Finalize? {
      FinalizeAdds(s, step.run);
    } else if !step.Create? {
      OtherAdds(s, step);
    }
  }

  // --- where tasks come from ---

  // The new task of a step, as the step that ordered it or as nothing when it was propagated.
  ghost function MadeBy(s: State, step: Step): seq<Option<Step>> {
    if Orders(s, step) then [Some(step)] else if |Next(s, step).db.tasks| > |s.db.tasks| then [None] else []
  }

  ghost function Made(s0: State, steps: seq<Step>): seq<Option<Step>> {
    if steps == [] then []
    else
      var front := steps[..|steps| - 1];
      Made(s0, front) + MadeBy(After(s0, front), steps[|steps| - 1])
  }

  ghost predicate AllComeFrom(tasks: seq<Task>, made: seq<Option<Step>>) {
    |made| == |tasks| && forall t :: 0 <= t < |tasks| ==> ComesFrom(tasks, t, made[t])
  }

  ghost predicate ComesFrom(tasks: seq<Task>, t: TaskId, made: Option<Step>)
    requires t < |tasks|
  {
    if made.Some? then tasks[t].parent.None? && OrderedAs(tasks[t], made.value)
    else tasks[t].parent.Some? && tasks[t].parent.value < t && Inherits(tasks[t], tasks[tasks[t].parent.value])
  }

  lemma OriginKept(s: State, step: Step, t: TaskId, made: Option<Step>)
    requires Inv(s) && t < |s.db.tasks| && ComesFrom(s.db.tasks, t, made)
    ensures t < |Next(s, step).db.tasks| && ComesFrom(Next(s, step).db.tasks, t, made)
  {
    StepEffect(s, step);
    assert RowEffect(s, Next(s, step), t, step.ContinueTask?);
    if made.None? {
      assert RowEffect(s, Next(s, step), s.db.tasks[t].parent.value, step.ContinueTask?);
    }
  }

  lemma OriginAdded(s: State, step: Step)
    requires Inv(s) && |Next(s, step).db.tasks| > |s.db.tasks|
    ensures |Next(s, step).db.tasks| == |s.db.tasks| + 1
    ensures ComesFrom(Next(s, step).db.tasks, |s.db.tasks|, if Orders(s, step) then Some(step) else None)
  {
    StepAdds(s, step);
    StepEffect(s, step);
    var row := Next(s, step).db.tasks[|s.db.tasks|];
    if row.parent.Some? {
      assert RowEffect(s, Next(s, step), row.parent.value, step.ContinueTask?);
    }
  }

  /**
   In every run each order of a known agent becomes one task, with the user, the agent, the goal, the
   texts and the override it was ordered with; and every other task works for the user, the project
   and the goal of the task it was propagated from.
   */
  lemma {:induction false} TasksComeFromOrders(config: Config, agents: map<AgentId, Agent>, steps: seq<Step>)
    ensures var s0 := Start(config, agents); AllComeFrom(After(s0, steps).db.tasks, Made(s0, steps))
    decreases |steps|
  {
    if steps != [] {
      var s0 := Start(config, agents);
      var front := steps[..|steps| - 1];
      TasksComeFromOrders(config, agents, front);
      StartInv(config, agents);
      ReachableInv(s0, front);
      OriginsGoOn(After(s0, front), steps[|steps| - 1], Made(s0, front));
    }
  }

  lemma OriginsGoOn(s: State, step: Step, made: seq<Option<Step>>)
    requires Inv(s) && AllComeFrom(s.db.tasks, made)
    ensures AllComeFrom(Next(s, step).db.tasks, made + MadeBy(s, step))
  {
    forall t | 0 <= t < |s.db.tasks|
      ensures t < |Next(s, step).db.tasks| && ComesFrom(Next(s, step).db.tasks, t, made[t])
    {
      OriginKept(s, step, t, made[t]);
    }
    OriginOfNew(s, step);
    OriginsJoined(Next(s, step).db.tasks, made, MadeBy(s, step));
  }

  lemma OriginOfNew(s: State, step: Step)
    requires Inv(s)
    ensures var tasks := Next(s, step).db.tasks; var more := MadeBy(s, step);
      |more| <= 1 && |tasks| == |s.db.tasks| + |more| && (|more| == 1 ==> ComesFrom(tasks, |s.db.tasks|, more[0]))
  {
    StepAdds(s, step);
    if |Next(s, step).db.tasks| > |s.db.tasks| {
      OriginAdded(s, step);
    }
  }

  lemma OriginsJoined(tasks: seq<Task>, made: seq<Option<Step>>, more: seq<Option<Step>>)
    requires |more| <= 1 && |tasks| == |made| + |more|
    requires forall t :: 0 <= t < |made| ==> ComesFrom(tasks, t, made[t])
    requires |more| == 1 ==> ComesFrom(tasks, |made|, more[0])
    ensures AllComeFrom(tasks, made + more)
  {
  }

  // --- what tasks run on ---

  // Agents are added, and change nothing but their tier.
  ghost predicate AgentsStay(before: map<AgentId, Agent>, after: map<AgentId, Agent>) {
    forall a :: a in before ==> a in after && after[a].project == before[a].project && after[a].engine == before[a].engine
  }

  lemma EditedAgentsStay(d: Db, op: EdgeOps.EdgeOp)
    ensures AgentsStay(d.agents, EditedGraph(d, op).agents)
  {
  }

  lemma StepAgentsStay(s: State, step: Step)
    ensures AgentsStay(s.db.agents, Next(s, step).db.agents)
  {
    if step.Reap? {
      ReapedRows(s.db, step.stale);
    } else if step.EditEdges? {
      EditedAgentsStay(s.db, step.op);
    } else if step.Begin? || step.Meter? || step.Finish? || step.Finalize? {
      RunsKeepAgents(s, step.run, step);
    }
  }

  lemma RunsKeepAgents(s: State, r: RunId, step: Step)
    requires step == Meter(r) || (step.Begin? && step.run == r) || (step.Finish? && step.run == r) || step == Finalize(r)
    ensures Next(s, step).db.agents == s.db.agents
  {
    if step.Finish? {
      RecordKeepsAgents(s, r, step.outcome);
      FinalizeKeepsAgents(RecordedRun(s, r, step.outcome), r);
    } else if step.Finalize? {
      FinalizeKeepsAgents(s, r);
    } else if step.Meter? && RunAt(s, r, Starting) {
      MeteredRow(s.db, s.runs[r].task);
    }
  }

  lemma RecordKeepsAgents(s: State, r: RunId, o: Outcome)
    ensures RecordedRun(s, r, o).db.agents == s.db.agents
  {
  }

  lemma FinalizeKeepsAgents(s: State, r: RunId)
    ensures FinalizedRun(s, r).db.agents == s.db.agents
  {
  }

  ghost predicate AllFit(tasks: seq<Task>, agents: map<AgentId, Agent>) {
    forall t :: 0 <= t < |tasks| ==> Fits(tasks[t], agents)
  }

  lemma StillFits(s: State, step: Step)
    requires Inv(s) && AllFit(s.db.tasks, s.db.agents)
    ensures AllFit(Next(s, step).db.tasks, Next(s, step).db.agents)
  {
    var s' := Next(s, step);
    StepAgentsStay(s, step);
    StepAdds(s, step);
    StepEffect(s, step);
    EffectEvolves(s, s', step.ContinueTask?);
    FitAfter(s.db, s'.db, OrderOf(s, step));
  }

  lemma FitAfter(d: Db, d': Db, order: Option<Step>)
    requires AllFit(d.tasks, d.agents) && AddsOne(d.tasks, d'.tasks, order, d.agents) && RowsEvolve(d, d') && AgentsStay(d.agents, d'.agents)
    ensures AllFit(d'.tasks, d'.agents)
  {
    forall t | 0 <= t < |d'.tasks|
      ensures Fits(d'.tasks[t], d'.agents)
    {
      if t < |d.tasks| {
        assert RowEvolves(d.tasks[t], d'.tasks[t]);
      }
    }
  }

  /** In every run a task runs on the engine of its agent, who is known, and an ordered task in its agent's project. */
  lemma {:induction false} TasksFitTheirAgents(config: Config, agents: map<AgentId, Agent>, steps: seq<Step>)
    ensures var d := After(Start(config, agents), steps).db; AllFit(d.tasks, d.agents)
    decreases |steps|
  {
    if steps != [] {
      var front := steps[..|steps| - 1];
      TasksFitTheirAgents(config, agents, front);
      StartInv(config, agents);
      ReachableInv(Start(config, agents), front);
      StillFits(After(Start(config, agents), front), steps[|steps| - 1]);
    }
  }

  // --- what happened to a task ---

  // The answers it got, the last output, the question that is open, and the last outcome.
  datatype Story = Story(texts: seq<string>, output: Option<string>, question: Option<string>, end: Option<Outcome>)

  const UNTOLD := Story([], None, None, None)

  function Ended(st: Story, o: Outcome): Story {
    match o
    case QualityFailure(_, partial) => st.(end := Some(o), output := if partial.Some? then partial else st.output)
    case Asked(question, output) => st.(end := Some(o), output := Some(output), question := Some(question))
    case Finished(output) => st.(end := Some(o), output := Some(output))
    case _ => st.(end := Some(o))
  }

  ghost function Told(st: Story, s: State, step: Step, t: TaskId): Story {
    if Continues(s, step, t) then st.(texts := st.texts + [step.text], question := None)
    else if Ends(s, step, t) then Ended(st, step.outcome)
    else st
  }

  ghost function StoryOf(s0: State, steps: seq<Step>, t: TaskId): Story {
    if steps == [] then UNTOLD
    else
      var front := steps[..|steps| - 1];
      Told(StoryOf(s0, front, t), After(s0, front), steps[|steps| - 1], t)
  }

  ghost predicate Tells(row: Task, st: Story) {
    && row.continuations == st.texts && row.attempt == |st.texts|
    && row.result == st.output && row.awaiting == st.question
    && (row.status.Done? ==> st.end.Some? && st.end.value.Finished? && row.result == Some(st.end.value.output))
    && (row.status.NeedsInput? ==> st.end.Some? && st.end.value.Asked? && row.awaiting == Some(st.end.value.question))
    && (row.stopped ==> row.status.Failed? && row.error == Some(STOPPED_BY_USER))
    && (row.status.Failed? ==> row.stopped || row.error == Some(REAPED) || (st.end.Some? && FailedWith(st.end.value, row.error)))
  }

  predicate FailedWith(o: Outcome, error: Option<string>) {
    (o.SystemFailure? || o.QualityFailure?) && error == Some(o.error)
  }

  lemma EndTells(a: Task, b: Task, st: Story, o: Outcome)
    requires Tells(a, st) && a.status.Working? && EndsAs(a, b, o)
    ensures Tells(b, Ended(st, o))
  {
  }

  lemma MoveTells(a: Task, b: Task, st: Story)
    requires Tells(a, st) && MovesOnly(a, b)
    ensures Tells(b, st)
  {
  }

  lemma StoryGoesOn(s: State, step: Step, t: TaskId, st: Story)
    requires Inv(s) && t < |Next(s, step).db.tasks|
    requires if t < |s.db.tasks| then Tells(s.db.tasks[t], st) else st == UNTOLD
    ensures Tells(Next(s, step).db.tasks[t], Told(st, s, step, t))
  {
    if t < |s.db.tasks| {
      StepRowMoves(s, step, t);
      RowGoesOn(s, step, t, st);
    } else {
      StoryBegins(s, step, t);
    }
  }

  lemma UntouchedTells(row: Task)
    requires Untouched(row)
    ensures Tells(row, UNTOLD)
  {
  }

  lemma NothingTold(st: Story, s: State, step: Step, t: TaskId)
    requires t >= |s.db.tasks|
    ensures Told(st, s, step, t) == st
  {
  }

  lemma NewRowUntouched(s: State, step: Step, t: TaskId)
    requires Inv(s) && |s.db.tasks| <= t < |Next(s, step).db.tasks|
    ensures Untouched(Next(s, step).db.tasks[t])
  {
    StepAdds(s, step);
    AddedIsUntouched(s.db.tasks, Next(s, step).db.tasks, OrderOf(s, step), s.db.agents, t);
  }

  lemma AddedIsUntouched(before: seq<Task>, after: seq<Task>, order: Option<Step>, agents: map<AgentId, Agent>, t: TaskId)
    requires AddsOne(before, after, order, agents) && |before| <= t < |after|
    ensures Untouched(after[t])
  {
  }

  lemma StoryBegins(s: State, step: Step, t: TaskId)
    requires Inv(s) && |s.db.tasks| <= t < |Next(s, step).db.tasks|
    ensures Tells(Next(s, step).db.tasks[t], Told(UNTOLD, s, step, t))
  {
    NewRowUntouched(s, step, t);
    UntouchedTells(Next(s, step).db.tasks[t]);
    NothingTold(UNTOLD, s, step, t);
  }

  lemma RowGoesOn(s: State, step: Step, t: TaskId, st: Story)
    requires t < |s.db.tasks| && t < |Next(s, step).db.tasks| && RowMoves(s, step, t) && Tells(s.db.tasks[t], st)
    ensures Tells(Next(s, step).db.tasks[t], Told(st, s, step, t))
  {
    var a, b := s.db.tasks[t], Next(s, step).db.tasks[t];
    if Ends(s, step, t) {
      EndTells(a, b, st, step.outcome);
    } else if !Continues(s, step, t) && !Stops(s, step, t) {
      MoveTells(a, b, st);
    }
  }

  lemma {:induction false} NoStoryYet(s0: State, steps: seq<Step>, t: TaskId)
    requires Inv(s0) && t >= |After(s0, steps).db.tasks|
    ensures StoryOf(s0, steps, t) == UNTOLD
    decreases |steps|
  {
    if steps != [] {
      var front := steps[..|steps| - 1];
      ReachableInv(s0, front);
      StepAdds(After(s0, front), steps[|steps| - 1]);
      NoStoryYet(s0, front, t);
    }
  }

  /**
   In every run: a task's continuations are the user's answers in order, one per further attempt; its
   result is the last output of its engine and its open question the last one not answered; a done
   task ended with that result, a waiting one with that question, and a failed one was stopped, reaped,
   or ended with the failure it reports.
   */
  lemma {:induction false} RowsTellTheirStory(config: Config, agents: map<AgentId, Agent>, steps: seq<Step>, t: TaskId)
    requires t < |After(Start(config, agents), steps).db.tasks|
    ensures Tells(After(Start(config, agents), steps).db.tasks[t], StoryOf(Start(config, agents), steps, t))
    decreases |steps|
  {
    var s0 := Start(config, agents);
    if steps != [] {
      var front := steps[..|steps| - 1];
      StartInv(config, agents);
      ReachableInv(s0, front);
      if t < |After(s0, front).db.tasks| {
        RowsTellTheirStory(config, agents, front, t);
      } else {
        NoStoryYet(s0, front, t);
      }
      StoryGoesOn(After(s0, front), steps[|steps| - 1], t, StoryOf(s0, front, t));
    }
  }
}
