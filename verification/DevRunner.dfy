/**
 The coding agent's loop and its context compaction (backend/app/services/dev_runner.py): the
 message list it keeps, when it ends, and what compaction may throw away.
 */
module DevRunner {
  import opened Common
  import opened Strings

  datatype Call = Call(id: string, name: string, arguments: string)
  datatype Msg = System(text: string) | User(text: string) | Assistant(calls: seq<Call>) | Tool(callId: string, text: string)

  const HEAD := 2
  const TAIL := 8
  const HARD_STEP_CAP := 500
  const ATTEMPTS := 3
  const COMPACTED := "[Earlier work compacted — summary]\n"

  // --- complete blocks ---

  // From `lo` to before `hi`: a summary, or calls followed by exactly their results, in order. The
  // provider refuses anything else.
  ghost predicate BlockAt(s: seq<Msg>, lo: nat, hi: nat) {
    && lo < hi <= |s|
    && ((s[lo].User? && hi == lo + 1)
        || (s[lo].Assistant? && s[lo].calls != [] && hi == lo + 1 + |s[lo].calls|
            && forall k :: lo < k < hi ==> s[k].Tool? && s[k].callId == s[lo].calls[k - lo - 1].id))
  }

  function BlockEnd(s: seq<Msg>, lo: nat): nat
    requires lo < |s|
  {
    if s[lo].Assistant? then lo + 1 + |s[lo].calls| else lo + 1
  }

  // Whole blocks fill the list from i to before j.
  ghost predicate Blocks(s: seq<Msg>, i: nat, j: nat)
    requires i <= j <= |s|
    decreases j - i
  {
    i == j || (BlockEnd(s, i) <= j && BlockAt(s, i, BlockEnd(s, i)) && Blocks(s, BlockEnd(s, i), j))
  }

  ghost predicate WellFormed(messages: seq<Msg>) {
    |messages| >= HEAD && messages[0].System? && messages[1].User? && Blocks(messages, HEAD, |messages|)
  }

  // The same messages, d places further on, are the same blocks.
  lemma {:induction false} BlocksMoved(s: seq<Msg>, i: nat, j: nat, t: seq<Msg>, d: int)
    requires i <= j <= |s| && 0 <= i + d && j + d <= |t| && Blocks(s, i, j)
    requires forall k :: i <= k < j ==> s[k] == t[k + d]
    ensures Blocks(t, i + d, j + d)
    decreases j - i
  {
    if i < j {
      var e := BlockEnd(s, i);
      assert s[i] == t[i + d];
      BlockMoved(s, i, e, t, d);
      BlocksMoved(s, e, j, t, d);
    }
  }

  lemma BlockMoved(s: seq<Msg>, i: nat, e: nat, t: seq<Msg>, d: int)
    requires BlockAt(s, i, e) && 0 <= i + d && e + d <= |t|
    requires forall k :: i <= k < e ==> s[k] == t[k + d]
    ensures BlockAt(t, i + d, e + d) && BlockEnd(t, i + d) == e + d
  {
    assert s[i] == t[i + d];
    forall k | i + d < k < e + d
      ensures t[k] == s[k - d]
    {
    }
  }

  lemma {:induction false} BlocksJoin(s: seq<Msg>, i: nat, j: nat, k: nat)
    requires i <= j <= k <= |s| && Blocks(s, i, j) && Blocks(s, j, k)
    ensures Blocks(s, i, k)
    decreases j - i
  {
    if i < j {
      BlocksJoin(s, BlockEnd(s, i), j, k);
    }
  }

  // In front of anything but a tool result a block ends.
  lemma {:induction false} BlocksCut(s: seq<Msg>, i: nat, j: nat, k: nat)
    requires i <= j <= k <= |s| && Blocks(s, i, k) && (j < k ==> !s[j].Tool?)
    ensures Blocks(s, i, j) && Blocks(s, j, k)
    decreases k - i
  {
    if i < j {
      assert BlockEnd(s, i) <= j;
      BlocksCut(s, BlockEnd(s, i), j, k);
    }
  }

  // --- the client, as what it answers to each call ---

  datatype Reply = Raised | Answer(content: string, calls: seq<Call>, tokensIn: nat, tokensOut: nat, cacheRead: nat)

  // --- compaction ---

  // From i back to a message that is not a tool result.
  function Boundary(messages: seq<Msg>, i: nat): (j: nat)
    requires HEAD <= i < |messages|
    ensures HEAD <= j <= i
    ensures j == HEAD || !messages[j].Tool?
    decreases i
  {
    if i > HEAD && messages[i].Tool? then Boundary(messages, i - 1) else i
  }

  predicate Compactable(messages: seq<Msg>) {
    |messages| > HEAD + TAIL + 4 && Boundary(messages, |messages| - TAIL) - HEAD >= 4
  }

  function Compacted(messages: seq<Msg>, reply: Reply): seq<Msg> {
    if Compactable(messages) && reply.Answer? && !IsBlank(reply.content)
    then messages[..HEAD] + [User(COMPACTED + reply.content)] + messages[Boundary(messages, |messages| - TAIL)..]
    else messages
  }

  class Conversation {
    var messages: seq<Msg>

    constructor (system: string, prompt: string)
      ensures messages == [System(system), User(prompt)]
    {
      messages := [System(system), User(prompt)];
    }
  }

  // `reply` is what the client says when asked for a summary.
  method CompactMessages(conv: Conversation, reply: Reply) returns (asked: bool, tokensIn: nat, tokensOut: nat)
    modifies conv
    ensures conv.messages == Compacted(old(conv.messages), reply)
    ensures asked <==> Compactable(old(conv.messages))
    ensures asked && reply.Answer? && !IsBlank(reply.content) ==> tokensIn == reply.tokensIn && tokensOut == reply.tokensOut
    ensures !(asked && reply.Answer? && !IsBlank(reply.content)) ==> tokensIn == tokensOut == 0
  {
    if |conv.messages| <= HEAD + TAIL + 4 {
      return false, 0, 0;
    }
    var tailStart := |conv.messages| - TAIL;
    while tailStart > HEAD && conv.messages[tailStart].Tool?
      invariant HEAD <= tailStart <= |conv.messages| - TAIL
      invariant Boundary(conv.messages, tailStart) == Boundary(conv.messages, |conv.messages| - TAIL)
    {
      tailStart := tailStart - 1;
    }
    if tailStart - HEAD < 4 {
      return false, 0, 0;
    }
    if reply.Raised? {
      return true, 0, 0;
    }
    if IsBlank(reply.content) {
      return true, 0, 0;
    }
    conv.messages := conv.messages[..HEAD] + [User(COMPACTED + reply.content)] + conv.messages[tailStart..];
    return true, reply.tokensIn, reply.tokensOut;
  }

  // Where the kept tail begins: at the last message that is not a tool result and has at least
  // the last eight behind or at it.
  ghost predicate TailBegins(messages: seq<Msg>, cut: nat) {
    && HEAD < cut <= |messages| - TAIL && !messages[cut].Tool?
    && forall k :: cut < k <= |messages| - TAIL ==> messages[k].Tool?
  }

  // The task, one message of the user that ends with the summary, and the tail as it was.
  ghost predicate SummarisedAt(messages: seq<Msg>, c: seq<Msg>, cut: nat, summary: string) {
    && TailBegins(messages, cut)
    && |c| == HEAD + 1 + |messages| - cut
    && c[..HEAD] == messages[..HEAD]
    && c[HEAD].User? && EndsWith(c[HEAD].text, summary)
    && c[HEAD + 1..] == messages[cut..]
  }

  lemma {:induction false} BoundaryIsTailBegin(messages: seq<Msg>, i: nat)
    requires HEAD <= i < |messages|
    ensures forall k :: Boundary(messages, i) < k <= i ==> messages[k].Tool?
    decreases i
  {
    if i > HEAD && messages[i].Tool? {
      BoundaryIsTailBegin(messages, i - 1);
    }
  }

  /**
   When compaction acts, at least three messages between the task and the tail give way to the
   summary, all others stay word for word, and no call is parted from its results; otherwise nothing
   changes at all. It acts exactly on a long enough list and a summary that is not blank.
   */
  lemma CompactionIsSafe(messages: seq<Msg>, reply: Reply)
    requires WellFormed(messages)
    ensures var c := Compacted(messages, reply);
      && WellFormed(c)
      && (c == messages || (reply.Answer? && |c| <= |messages| - 3 && exists cut: nat :: SummarisedAt(messages, c, cut, reply.content) && Blocks(messages, HEAD, cut)))
      && (c != messages <==> Compactable(messages) && reply.Answer? && !IsBlank(reply.content))
  {
    if Compactable(messages) && reply.Answer? && !IsBlank(reply.content) {
      var cut := Boundary(messages, |messages| - TAIL);
      BoundaryIsTailBegin(messages, |messages| - TAIL);
      BlocksCut(messages, HEAD, cut, |messages|);
      SummaryInPlace(messages, cut, COMPACTED + reply.content);
      SummaryIsKept(messages, cut, reply.content);
    }
  }

  lemma SummaryIsKept(messages: seq<Msg>, cut: nat, summary: string)
    requires |messages| >= HEAD && TailBegins(messages, cut)
    ensures SummarisedAt(messages, messages[..HEAD] + [User(COMPACTED + summary)] + messages[cut..], cut, summary)
  {
    var text := COMPACTED + summary;
    assert text[|text| - |summary|..] == summary;
  }

  /** Which lists are long enough: those with at least four messages between the task and the tail, and more than fourteen in all. */
  lemma CompactableWhen(messages: seq<Msg>)
    ensures Compactable(messages) <==> |messages| > HEAD + TAIL + 4 && exists cut: nat :: TailBegins(messages, cut) && cut - HEAD >= 4
  {
    if |messages| > HEAD + TAIL + 4 {
      BoundaryIsTailBegin(messages, |messages| - TAIL);
      var b := Boundary(messages, |messages| - TAIL);
      assert b - HEAD >= 4 ==> TailBegins(messages, b);
      if cut: nat :| TailBegins(messages, cut) && cut - HEAD >= 4 {
        assert cut <= b;
      }
    }
  }

  lemma SummaryInPlace(messages: seq<Msg>, cut: nat, summary: string)
    requires WellFormed(messages) && HEAD < cut <= |messages| - TAIL && Blocks(messages, cut, |messages|)
    ensures WellFormed(messages[..HEAD] + [User(summary)] + messages[cut..])
  {
    var c := messages[..HEAD] + [User(summary)] + messages[cut..];
    BlocksMoved(messages, cut, |messages|, c, HEAD + 1 - cut);
    assert BlockAt(c, HEAD, HEAD + 1);
    assert c[0] == messages[0] && c[1] == messages[1];
  }

  // --- the loop ---

  // Everything the loop meets: the client's answers in calling order, the user's stop and the clock
  // at each step, a tool's result (none when it raises), and whether a text asks the user something.
  datatype World = World(reply: nat -> Reply, stop: nat -> bool, late: nat -> bool,
                         result: (nat, nat) -> Option<string>, question: string -> Option<string>)

  // BudgetReached (steps, tokens or time) is reported as a question to the user: continue?
  datatype Status = Done | NeedsInput | BudgetReached | Failed | Stopped | ToolRaised
  datatype Outcome = Outcome(status: Status, output: string, tokensIn: nat, tokensOut: nat)

  ghost predicate Keeps(messages: seq<Msg>, system: string, prompt: string) {
    WellFormed(messages) && messages[..HEAD] == [System(system), User(prompt)]
  }

  // Up to three attempts; `next` counts the calls made so far.
  method AskWithRetries(w: World, first: nat) returns (next: nat, resp: Reply)
    ensures first < next <= first + ATTEMPTS && resp == w.reply(next - 1)
    ensures resp.Raised? ==> next == first + ATTEMPTS && forall k :: first <= k < next ==> w.reply(k).Raised?
    ensures forall k :: first <= k < next - 1 ==> w.reply(k).Raised?
  {
    next, resp := first, Raised;
    while next < first + ATTEMPTS
      invariant first <= next <= first + ATTEMPTS
      invariant next > first ==> resp == w.reply(next - 1)
      invariant forall k :: first <= k < next ==> w.reply(k).Raised?
    {
      resp := w.reply(next);
      next := next + 1;
      if resp.Answer? {
        return;
      }
    }
  }

  // What has been asked and spent so far, and the size of the last prompt.
  datatype Meter = Meter(asked: nat, tokensIn: nat, tokensOut: nat, lastContext: nat)

  // --- what is counted ---

  // An answer counts, unless it is a blank summary: those tokens are dropped.
  predicate Counts(w: World, k: nat, summaries: set<nat>) {
    w.reply(k).Answer? && !(k in summaries && IsBlank(w.reply(k).content))
  }

  function SpentIn(w: World, asked: nat, summaries: set<nat>): nat {
    if asked == 0 then 0
    else SpentIn(w, asked - 1, summaries) + (if Counts(w, asked - 1, summaries) then w.reply(asked - 1).tokensIn else 0)
  }

  function SpentOut(w: World, asked: nat, summaries: set<nat>): nat {
    if asked == 0 then 0
    else SpentOut(w, asked - 1, summaries) + (if Counts(w, asked - 1, summaries) then w.reply(asked - 1).tokensOut else 0)
  }

  // The meter shows what was spent; `summaries` are the calls that asked for a summary.
  ghost predicate Exact(w: World, asked: nat, tokensIn: nat, tokensOut: nat, summaries: set<nat>) {
    && (forall k :: k in summaries ==> k < asked)
    && tokensIn == SpentIn(w, asked, summaries) && tokensOut == SpentOut(w, asked, summaries)
  }

  // Calls not made yet do not matter.
  lemma {:induction false} SpentBefore(w: World, asked: nat, summaries: set<nat>, more: set<nat>)
    requires forall k: nat :: k < asked ==> (k in summaries <==> k in more)
    ensures SpentIn(w, asked, summaries) == SpentIn(w, asked, more) && SpentOut(w, asked, summaries) == SpentOut(w, asked, more)
    decreases asked
  {
    if asked > 0 {
      SpentBefore(w, asked - 1, summaries, more);
    }
  }

  lemma {:induction false} RaisedIsFree(w: World, asked: nat, next: nat, summaries: set<nat>)
    requires asked <= next && forall k :: asked <= k < next ==> w.reply(k).Raised?
    ensures SpentIn(w, next, summaries) == SpentIn(w, asked, summaries) && SpentOut(w, next, summaries) == SpentOut(w, asked, summaries)
    decreases next
  {
    if asked < next {
      RaisedIsFree(w, asked, next - 1, summaries);
    }
  }

  lemma SummaryExact(w: World, m: Meter, summaries: set<nat>, tokensIn: nat, tokensOut: nat)
    requires Exact(w, m.asked, m.tokensIn, m.tokensOut, summaries)
    requires var paid := w.reply(m.asked).Answer? && !IsBlank(w.reply(m.asked).content);
      (tokensIn, tokensOut) == if paid then (w.reply(m.asked).tokensIn, w.reply(m.asked).tokensOut) else (0, 0)
    ensures Exact(w, m.asked + 1, m.tokensIn + tokensIn, m.tokensOut + tokensOut, summaries + {m.asked})
  {
    SpentBefore(w, m.asked, summaries, summaries + {m.asked});
  }

  lemma AnswerExact(w: World, m: Meter, next: nat, summaries: set<nat>)
    requires Exact(w, m.asked, m.tokensIn, m.tokensOut, summaries)
    requires m.asked < next && w.reply(next - 1).Answer? && forall k :: m.asked <= k < next - 1 ==> w.reply(k).Raised?
    ensures Exact(w, next, m.tokensIn + w.reply(next - 1).tokensIn, m.tokensOut + w.reply(next - 1).tokensOut, summaries)
  {
    RaisedIsFree(w, m.asked, next - 1, summaries);
  }

  // Why a turn ended the run.
  ghost predicate Cause(w: World, turn: nat, asked: nat, status: Status, output: string) {
    match status
    case Done => AnsweredWith(w, asked, output) && w.question(output).None?
    case NeedsInput => AnsweredWith(w, asked, output) && w.question(output).Some?
    case Failed => asked >= ATTEMPTS && forall k :: asked - ATTEMPTS <= k < asked ==> w.reply(k).Raised?
    case Stopped => w.stop(turn)
    case BudgetReached => w.late(turn)
    case ToolRaised => SomeToolRaised(w, turn, asked)
  }

  // Among the calls of the last answer one raised, so it has no result.
  ghost predicate SomeToolRaised(w: World, turn: nat, asked: nat) {
    asked > 0 && w.reply(asked - 1).Answer? && exists k :: 0 <= k < |w.reply(asked - 1).calls| && w.result(turn, k).None?
  }

  ghost predicate AnsweredWith(w: World, asked: nat, output: string) {
    asked > 0 && w.reply(asked - 1).Answer? && w.reply(asked - 1).calls == [] && w.reply(asked - 1).content == output
  }

  // Cached tokens are part of the prompt.
  function PromptSize(r: Reply): nat {
    if r.Answer? then r.tokensIn + r.cacheRead else 0
  }

  // A summary is due when the last prompt was above the threshold.
  predicate Due(m: Meter, compactThreshold: nat) {
    compactThreshold > 0 && m.lastContext > compactThreshold
  }

  // One turn: compaction if due, the user's stop, the clock, the client, and its tools. `list` is
  // what was sent to the client, if it got that far.
  method Turn(conv: Conversation, w: World, turn: nat, m: Meter, compactThreshold: nat,
              ghost system: string, ghost prompt: string, ghost summaries: set<nat>)
    returns (end: Option<(Status, string)>, m': Meter, ghost list: Option<seq<Msg>>, ghost summaries': set<nat>)
    requires Keeps(conv.messages, system, prompt) && Exact(w, m.asked, m.tokensIn, m.tokensOut, summaries)
    modifies conv
    ensures m.asked <= m'.asked <= m.asked + (if list.Some? then ATTEMPTS + 1 else 1)
    ensures Exact(w, m'.asked, m'.tokensIn, m'.tokensOut, summaries')
    ensures summaries' == if Due(m, compactThreshold) && Compactable(old(conv.messages)) then summaries + {m.asked} else summaries
    ensures list.Some? ==> Keeps(list.value, system, prompt)
    ensures list.Some? ==> list.value == if Due(m, compactThreshold) then Compacted(old(conv.messages), w.reply(m.asked)) else old(conv.messages)
    ensures list.Some? && (end.None? || !end.value.0.Failed?) ==>
      m'.asked > 0 && m'.lastContext == PromptSize(w.reply(m'.asked - 1))
    ensures end.None? ==> list.Some?
    ensures end.None? || !end.value.0.ToolRaised? ==> Keeps(conv.messages, system, prompt)
    ensures end.Some? ==> Cause(w, turn, m'.asked, end.value.0, end.value.1)
    ensures end.Some? && (end.value.0.Stopped? || end.value.0.BudgetReached?) ==> list.None?
    ensures end.Some? && !end.value.0.Stopped? && !end.value.0.BudgetReached? ==> list.Some?
  {
    m', list, summaries' := m, None, summaries;
    if Due(m, compactThreshold) {
      CompactionKeeps(conv.messages, w.reply(m.asked), system, prompt);
      var summarised, i, o := CompactMessages(conv, w.reply(m.asked));
      m' := Meter(if summarised then m.asked + 1 else m.asked, m.tokensIn + i, m.tokensOut + o, 0);
      if summarised {
        summaries' := summaries + {m.asked};
        SummaryExact(w, m, summaries, i, o);
      }
    }
    if w.stop(turn) {
      return Some((Stopped, "")), m', list, summaries';
    }
    if w.late(turn) {
      return Some((BudgetReached, "")), m', list, summaries';
    }
    list := Some(conv.messages);
    var next, resp := AskWithRetries(w, m'.asked);
    if resp.Raised? {
      RaisedIsFree(w, m'.asked, next, summaries');
      return Some((Failed, "")), m'.(asked := next), list, summaries';
    }
    AnswerExact(w, m', next, summaries');
    m' := Meter(next, m'.tokensIn + resp.tokensIn, m'.tokensOut + resp.tokensOut, resp.tokensIn + resp.cacheRead);
    if resp.calls == [] {
      return Some((if w.question(resp.content).Some? then NeedsInput else Done, resp.content)), m', list, summaries';
    }
    var ok := ToolTurn(conv, w, turn, resp.calls, system, prompt);
    end := if ok then None else Some((ToolRaised, ""));
  }

  /**
   The run of one coding task: it ends after at most 500 turns for every client, every list it sends
   is well formed and begins with the task, each way of ending has its one cause, and the tokens
   reported are those of all answers received, summaries that came out blank excepted.
   */
  method RunDevTask(system: string, prompt: string, w: World, tokenBudget: nat, compactThreshold: nat)
    returns (out: Outcome, conv: Conversation, turns: nat, asked: nat, ghost sent: seq<seq<Msg>>, ghost summaries: set<nat>)
    ensures turns <= HARD_STEP_CAP && asked <= (ATTEMPTS + 1) * HARD_STEP_CAP && |sent| <= HARD_STEP_CAP
    ensures forall i :: 0 <= i < |sent| ==> Keeps(sent[i], system, prompt)
    ensures Exact(w, asked, out.tokensIn, out.tokensOut, summaries) && |summaries| <= HARD_STEP_CAP
    ensures !out.status.ToolRaised? ==> Keeps(conv.messages, system, prompt)
    ensures Cause(w, turns, asked, out.status, out.output)
      || (out.status.BudgetReached? && (turns == HARD_STEP_CAP || (tokenBudget > 0 && out.tokensIn + out.tokensOut >= tokenBudget)))
  {
    conv := new Conversation(system, prompt);
    turns, sent, summaries := 0, [], {};
    var m := Meter(0, 0, 0, 0);
    while true
      invariant fresh(conv)
      invariant turns <= HARD_STEP_CAP && m.asked <= (ATTEMPTS + 1) * turns && |sent| == turns && |summaries| <= turns
      invariant Exact(w, m.asked, m.tokensIn, m.tokensOut, summaries)
      invariant Keeps(conv.messages, system, prompt)
      invariant forall i :: 0 <= i < |sent| ==> Keeps(sent[i], system, prompt)
      decreases HARD_STEP_CAP - turns
    {
      if turns == HARD_STEP_CAP || (tokenBudget > 0 && m.tokensIn + m.tokensOut >= tokenBudget) {
        return Outcome(BudgetReached, "", m.tokensIn, m.tokensOut), conv, turns, m.asked, sent, summaries;
      }
      var end;
      ghost var list;
      end, m, list, summaries := Turn(conv, w, turns, m, compactThreshold, system, prompt, summaries);
      if list.Some? {
        sent := sent + [list.value];
      }
      if end.Some? {
        return Outcome(end.value.0, end.value.1, m.tokensIn, m.tokensOut), conv, turns, m.asked, sent, summaries;
      }
      turns := turns + 1;
    }
  }

  lemma CompactionKeeps(messages: seq<Msg>, reply: Reply, system: string, prompt: string)
    requires Keeps(messages, system, prompt)
    ensures Keeps(Compacted(messages, reply), system, prompt)
  {
    CompactionIsSafe(messages, reply);
  }

  lemma SameHead(before: seq<Msg>, after: seq<Msg>)
    requires |before| >= HEAD && |after| >= |before| && after[..|before|] == before
    ensures after[..HEAD] == before[..HEAD]
  {
    assert after[..HEAD] == after[..|before|][..HEAD];
  }

  method ToolTurn(conv: Conversation, w: World, turn: nat, calls: seq<Call>, ghost system: string, ghost prompt: string) returns (ok: bool)
    requires calls != [] && Keeps(conv.messages, system, prompt)
    modifies conv
    ensures ok ==> Keeps(conv.messages, system, prompt)
    ensures !ok ==> exists k :: 0 <= k < |calls| && w.result(turn, k).None?
  {
    ghost var before := conv.messages;
    ok := RunTools(conv, w, turn, calls);
    if ok {
      SameHead(before, conv.messages);
    }
  }

  // One turn's calls and their results, in order; a tool that raises ends the run in the middle.
  method RunTools(conv: Conversation, w: World, turn: nat, calls: seq<Call>) returns (ok: bool)
    requires calls != [] && WellFormed(conv.messages)
    modifies conv
    ensures ok <==> forall k :: 0 <= k < |calls| ==> w.result(turn, k).Some?
    ensures ok ==> WellFormed(conv.messages) && |conv.messages| == |old(conv.messages)| + 1 + |calls|
    ensures ok ==> conv.messages[..|old(conv.messages)|] == old(conv.messages) && conv.messages[|old(conv.messages)|] == Assistant(calls)
    ensures ok ==> forall i :: |old(conv.messages)| < i < |conv.messages| ==>
      var k := i - |old(conv.messages)| - 1; conv.messages[i] == Tool(calls[k].id, w.result(turn, k).value)
  {
    ghost var before := conv.messages;
    conv.messages := conv.messages + [Assistant(calls)];
    var k := 0;
    while k < |calls|
      invariant k <= |calls| && |conv.messages| == |before| + 1 + k
      invariant conv.messages[..|before|] == before && conv.messages[|before|] == Assistant(calls)
      invariant forall i :: 0 <= i < k ==> w.result(turn, i).Some?
      invariant forall i :: |before| < i < |conv.messages| ==>
        var n := i - |before| - 1; conv.messages[i] == Tool(calls[n].id, w.result(turn, n).value)
    {
      if w.result(turn, k).None? {
        return false;
      }
      conv.messages := conv.messages + [Tool(calls[k].id, w.result(turn, k).value)];
      k := k + 1;
    }
    BlockAppended(before, conv.messages, calls);
    return true;
  }

  lemma BlockAppended(before: seq<Msg>, after: seq<Msg>, calls: seq<Call>)
    requires WellFormed(before) && calls != [] && |after| == |before| + 1 + |calls|
    requires after[..|before|] == before && after[|before|] == Assistant(calls)
    requires forall i :: |before| < i < |after| ==> after[i].Tool? && after[i].callId == calls[i - |before| - 1].id
    ensures WellFormed(after)
  {
    forall i | 0 <= i < |before|
      ensures before[i] == after[i]
    {
      assert after[..|before|][i] == before[i];
    }
    BlocksMoved(before, HEAD, |before|, after, 0);
    assert BlockAt(after, |before|, |after|);
    assert Blocks(after, |before|, |after|);
    BlocksJoin(after, HEAD, |before|, |after|);
  }
}
