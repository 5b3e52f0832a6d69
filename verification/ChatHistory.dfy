/**
 The conversation the orchestrator sends first: loading the stored history, merging neighbours of
 one role and placing the new message (backend/app/services/orchestrator.py, `_load_history`,
 `_merge_consecutive` and the message assembly of `run_chat`).
 */
module ChatHistory {
  import opened Strings

  datatype Author = ByUser | ByEvent | ByOrchestrator

  // `marker` is the neutral note that stands for the orchestrator's own past answer.
  datatype Row = Row(createdAt: int, author: Author, content: string, marker: string)

  datatype Role = User | Assistant
  datatype Message = Message(role: Role, content: string)

  function Restored(r: Row): Message {
    if r.author.ByOrchestrator? then Message(Assistant, r.marker) else Message(User, r.content)
  }

  function RestoredAll(rows: seq<Row>): seq<Message> {
    seq(|rows|, i requires 0 <= i < |rows| => Restored(rows[i]))
  }

  // --- the order of the rows ---

  // By time; rows written in one transaction have one time, and then the user's come first.
  predicate Before(a: Row, b: Row) {
    a.createdAt < b.createdAt || (a.createdAt == b.createdAt && a.author.ByUser? && !b.author.ByUser?)
  }

  // A stable insertion: behind everything that is not later.
  function Inserted(r: Row, rows: seq<Row>): (out: seq<Row>)
    ensures multiset(out) == multiset(rows) + multiset{r}
  {
    if rows == [] || !Before(r, rows[|rows| - 1]) then rows + [r]
    else
      assert rows == rows[..|rows| - 1] + [rows[|rows| - 1]];
      Inserted(r, rows[..|rows| - 1]) + [rows[|rows| - 1]]
  }

  function InOrder(rows: seq<Row>): (out: seq<Row>)
    ensures multiset(out) == multiset(rows)
  {
    if rows == [] then []
    else
      assert rows == rows[..|rows| - 1] + [rows[|rows| - 1]];
      Inserted(rows[|rows| - 1], InOrder(rows[..|rows| - 1]))
  }

  function IfKind(r: Row, time: int, byUser: bool): seq<Row> {
    if r.createdAt == time && r.author.ByUser? == byUser then [r] else []
  }

  // The rows of one time, the user's or the others', in the order listed.
  function OfKind(rows: seq<Row>, time: int, byUser: bool): seq<Row> {
    if rows == [] then [] else OfKind(rows[..|rows| - 1], time, byUser) + IfKind(rows[|rows| - 1], time, byUser)
  }

  lemma OfKindPush(rows: seq<Row>, r: Row, time: int, byUser: bool)
    ensures OfKind(rows + [r], time, byUser) == OfKind(rows, time, byUser) + IfKind(r, time, byUser)
  {
    assert (rows + [r])[..|rows|] == rows;
  }

  // Rows that change places are not of one kind.
  lemma OneIsOfKind(r: Row, last: Row, time: int, byUser: bool)
    requires Before(r, last)
    ensures IfKind(r, time, byUser) == [] || IfKind(last, time, byUser) == []
  {
  }

  lemma KindBehind(inserted: seq<Row>, front: seq<Row>, r: Row, last: Row, time: int, byUser: bool)
    requires OfKind(inserted, time, byUser) == OfKind(front, time, byUser) + IfKind(r, time, byUser) && Before(r, last)
    ensures OfKind(inserted + [last], time, byUser) == OfKind(front + [last], time, byUser) + IfKind(r, time, byUser)
  {
    OfKindPush(inserted, last, time, byUser);
    OfKindPush(front, last, time, byUser);
    OneIsOfKind(r, last, time, byUser);
  }

  lemma {:induction false} InsertedKind(r: Row, rows: seq<Row>, time: int, byUser: bool)
    ensures OfKind(Inserted(r, rows), time, byUser) == OfKind(rows, time, byUser) + IfKind(r, time, byUser)
    decreases |rows|
  {
    if rows != [] && Before(r, rows[|rows| - 1]) {
      var front, last := rows[..|rows| - 1], rows[|rows| - 1];
      InsertedKind(r, front, time, byUser);
      KindBehind(Inserted(r, front), front, r, last, time, byUser);
      assert rows == front + [last];
    } else {
      OfKindPush(rows, r, time, byUser);
    }
  }

  /** Sorting is stable: rows of one time keep their order among the user's and among the others. */
  lemma {:induction false} InOrderIsStable(rows: seq<Row>, time: int, byUser: bool)
    ensures OfKind(InOrder(rows), time, byUser) == OfKind(rows, time, byUser)
    decreases |rows|
  {
    if rows != [] {
      var front, last := rows[..|rows| - 1], rows[|rows| - 1];
      InOrderIsStable(front, time, byUser);
      InsertedKind(last, InOrder(front), time, byUser);
    }
  }

  predicate RunsForward(a: Row, b: Row) {
    a.createdAt <= b.createdAt && (a.createdAt == b.createdAt && b.author.ByUser? ==> a.author.ByUser?)
  }

  ghost predicate Ordered(rows: seq<Row>) {
    forall i, j :: 0 <= i < j < |rows| ==> !Before(rows[j], rows[i])
  }

  lemma {:induction false} InsertedOrdered(r: Row, rows: seq<Row>)
    requires Ordered(rows)
    ensures Ordered(Inserted(r, rows))
    decreases |rows|
  {
    if rows != [] && Before(r, rows[|rows| - 1]) {
      var front := rows[..|rows| - 1];
      var last := rows[|rows| - 1];
      InsertedOrdered(r, front);
      var out := Inserted(r, front);
      forall i | 0 <= i < |out|
        ensures !Before(last, out[i])
      {
        assert out[i] in multiset(out);
        if out[i] != r {
          assert out[i] in multiset(front);
          assert out[i] in front;
        }
      }
    } else {
      forall i | 0 <= i < |rows|
        ensures !Before(r, rows[i])
      {
        if rows != [] {
          assert !Before(rows[|rows| - 1], rows[i]) || i == |rows| - 1;
        }
      }
    }
  }

  /** The rows sent are the rows read, oldest first and a user's row before what answered it. */
  lemma {:induction false} InOrderIsOrdered(rows: seq<Row>)
    ensures Ordered(InOrder(rows)) && multiset(InOrder(rows)) == multiset(rows)
    ensures forall i, j :: 0 <= i < j < |InOrder(rows)| ==> RunsForward(InOrder(rows)[i], InOrder(rows)[j])
    decreases |rows|
  {
    if rows != [] {
      InOrderIsOrdered(rows[..|rows| - 1]);
      InsertedOrdered(rows[|rows| - 1], InOrder(rows[..|rows| - 1]));
    }
  }

  // --- merging neighbours of one role ---

  const GAP := "\n\n"

  function Push(merged: seq<Message>, m: Message): seq<Message> {
    if merged != [] && merged[|merged| - 1].role == m.role then
      var last := merged[|merged| - 1];
      merged[|merged| - 1 := last.(content := last.content + GAP + m.content)]
    else merged + [m]
  }

  function Merged(msgs: seq<Message>): seq<Message> {
    if msgs == [] then [] else Push(Merged(msgs[..|msgs| - 1]), msgs[|msgs| - 1])
  }

  method MergeConsecutive(msgs: seq<Message>) returns (merged: seq<Message>)
    ensures merged == Merged(msgs)
    ensures Alternates(merged)
  {
    merged := [];
    var i := 0;
    while i < |msgs|
      invariant i <= |msgs|
      invariant merged == Merged(msgs[..i]) && Alternates(merged)
    {
      var m := msgs[i];
      MergedUpTo(msgs, i);
      PushAlternates(merged, m);
      if merged != [] && merged[|merged| - 1].role == m.role {
        var last := merged[|merged| - 1];
        merged := merged[|merged| - 1 := last.(content := last.content + GAP + m.content)];
      } else {
        merged := merged + [m];
      }
      i := i + 1;
    }
    assert msgs[..i] == msgs;
  }

  predicate Alternates(msgs: seq<Message>) {
    forall i :: 0 <= i < |msgs| - 1 ==> msgs[i].role != msgs[i + 1].role
  }

  // The maximal runs of one role, each as the list of its texts.
  datatype Block = Block(role: Role, texts: seq<string>)

  function RunsPush(runs: seq<Block>, m: Message): seq<Block> {
    if runs != [] && runs[|runs| - 1].role == m.role
    then runs[|runs| - 1 := Block(m.role, runs[|runs| - 1].texts + [m.content])]
    else runs + [Block(m.role, [m.content])]
  }

  function Runs(msgs: seq<Message>): seq<Block> {
    if msgs == [] then [] else RunsPush(Runs(msgs[..|msgs| - 1]), msgs[|msgs| - 1])
  }

  function MessagesOf(role: Role, texts: seq<string>): seq<Message> {
    if texts == [] then [] else MessagesOf(role, texts[..|texts| - 1]) + [Message(role, texts[|texts| - 1])]
  }

  // The messages a list of runs came from.
  function Unpacked(runs: seq<Block>): seq<Message> {
    if runs == [] then []
    else Unpacked(runs[..|runs| - 1]) + MessagesOf(runs[|runs| - 1].role, runs[|runs| - 1].texts)
  }

  function Joined(texts: seq<string>): string {
    if texts == [] then ""
    else if |texts| == 1 then texts[0]
    else Joined(texts[..|texts| - 1]) + GAP + texts[|texts| - 1]
  }

  ghost predicate JoinsRuns(merged: seq<Message>, runs: seq<Block>) {
    && |merged| == |runs|
    && (forall i :: 0 <= i < |runs| ==> runs[i].texts != [] && merged[i] == Message(runs[i].role, Joined(runs[i].texts)))
    && (forall i :: 0 <= i < |runs| - 1 ==> runs[i].role != runs[i + 1].role)
  }

  lemma UnpackedPush(runs: seq<Block>, b: Block)
    ensures Unpacked(runs + [b]) == Unpacked(runs) + MessagesOf(b.role, b.texts)
  {
    assert (runs + [b])[..|runs|] == runs;
  }

  lemma OneMoreText(role: Role, texts: seq<string>, text: string)
    ensures MessagesOf(role, texts + [text]) == MessagesOf(role, texts) + [Message(role, text)]
    ensures texts != [] ==> Joined(texts + [text]) == Joined(texts) + GAP + text
  {
    assert (texts + [text])[..|texts|] == texts;
  }

  lemma UnpackedRunsPush(runs: seq<Block>, m: Message)
    ensures Unpacked(RunsPush(runs, m)) == Unpacked(runs) + [m]
  {
    if runs != [] && runs[|runs| - 1].role == m.role {
      var front, texts := runs[..|runs| - 1], runs[|runs| - 1].texts;
      OneMoreText(m.role, texts, m.content);
      UnpackedPush(front, Block(m.role, texts + [m.content]));
      assert RunsPush(runs, m) == front + [Block(m.role, texts + [m.content])];
      assert Unpacked(runs) == Unpacked(front) + MessagesOf(m.role, texts);
    } else {
      UnpackedPush(runs, Block(m.role, [m.content]));
      OneMoreText(m.role, [], m.content);
      assert [] + [m.content] == [m.content];
    }
  }

  lemma JoinsRunsPush(merged: seq<Message>, runs: seq<Block>, m: Message)
    requires JoinsRuns(merged, runs)
    ensures JoinsRuns(Push(merged, m), RunsPush(runs, m))
  {
    if runs != [] && runs[|runs| - 1].role == m.role {
      OneMoreText(m.role, runs[|runs| - 1].texts, m.content);
    }
  }

  lemma {:induction false} RunsUnpack(msgs: seq<Message>)
    ensures Unpacked(Runs(msgs)) == msgs
    decreases |msgs|
  {
    if msgs != [] {
      var front, m := msgs[..|msgs| - 1], msgs[|msgs| - 1];
      RunsUnpack(front);
      RunsStep(Runs(front), m, front);
      assert msgs == front + [m];
    }
  }

  lemma RunsStep(runs: seq<Block>, m: Message, front: seq<Message>)
    requires Unpacked(runs) == front
    ensures Unpacked(RunsPush(runs, m)) == front + [m]
  {
    UnpackedRunsPush(runs, m);
  }

  lemma {:induction false} RunsJoin(msgs: seq<Message>)
    ensures JoinsRuns(Merged(msgs), Runs(msgs))
    decreases |msgs|
  {
    if msgs != [] {
      var front, m := msgs[..|msgs| - 1], msgs[|msgs| - 1];
      RunsJoin(front);
      JoinsRunsPush(Merged(front), Runs(front), m);
    }
  }

  /** Merging loses, invents and reorders nothing: it joins the texts of each maximal run of one role, and the runs are the list itself. */
  lemma MergingKeepsEveryText(msgs: seq<Message>)
    ensures Unpacked(Runs(msgs)) == msgs
    ensures JoinsRuns(Merged(msgs), Runs(msgs))
  {
    RunsUnpack(msgs);
    RunsJoin(msgs);
  }

  lemma PushAlternates(merged: seq<Message>, m: Message)
    requires Alternates(merged)
    ensures Alternates(Push(merged, m)) && |Push(merged, m)| > 0 && Push(merged, m)[|Push(merged, m)| - 1].role == m.role
    ensures Push(merged, m)[0].role == if merged == [] then m.role else merged[0].role
  {
  }

  lemma MergedPush(msgs: seq<Message>, m: Message)
    ensures Merged(msgs + [m]) == Push(Merged(msgs), m)
  {
    assert (msgs + [m])[..|msgs|] == msgs;
  }

  lemma MergedUpTo(msgs: seq<Message>, i: nat)
    requires i < |msgs|
    ensures Merged(msgs[..i + 1]) == Push(Merged(msgs[..i]), msgs[i])
  {
    MergedPush(msgs[..i], msgs[i]);
    assert msgs[..i + 1] == msgs[..i] + [msgs[i]];
  }

  lemma {:induction false} MergedAlternates(msgs: seq<Message>)
    ensures Alternates(Merged(msgs))
    ensures msgs != [] ==> |Merged(msgs)| > 0
    ensures msgs != [] ==> Merged(msgs)[0].role == msgs[0].role && Merged(msgs)[|Merged(msgs)| - 1].role == msgs[|msgs| - 1].role
    decreases |msgs|
  {
    if msgs != [] {
      MergedAlternates(msgs[..|msgs| - 1]);
      PushAlternates(Merged(msgs[..|msgs| - 1]), msgs[|msgs| - 1]);
    }
  }

  lemma {:induction false} AlternatingStays(msgs: seq<Message>)
    requires Alternates(msgs)
    ensures Merged(msgs) == msgs
    decreases |msgs|
  {
    if msgs != [] {
      AlternatingStays(msgs[..|msgs| - 1]);
    }
  }

  /** Merging twice is merging once, and a list is left alone exactly when it alternates already. */
  lemma MergingIsIdempotent(msgs: seq<Message>)
    ensures Merged(Merged(msgs)) == Merged(msgs)
    ensures Merged(msgs) == msgs <==> Alternates(msgs)
  {
    MergedAlternates(msgs);
    AlternatingStays(Merged(msgs));
    if Alternates(msgs) {
      AlternatingStays(msgs);
    }
  }

  // --- what is sent ---

  function WithoutLeadingAssistant(msgs: seq<Message>): seq<Message> {
    if msgs != [] && msgs[0].role.Assistant? then WithoutLeadingAssistant(msgs[1..]) else msgs
  }

  method LoadHistory(rows: seq<Row>, limit: int) returns (history: seq<Message>)
    requires limit > 0 ==> |rows| <= limit
    ensures history == if limit <= 0 then [] else Merged(RestoredAll(InOrder(rows)))
    ensures Alternates(history)
  {
    if limit <= 0 {
      return [];
    }
    history := MergeConsecutive(RestoredAll(InOrder(rows)));
  }

  // The messages after the system message.
  method FirstMessages(rows: seq<Row>, limit: int, message: string) returns (sent: seq<Message>)
    requires limit > 0 ==> |rows| <= limit
    ensures sent == Sent(if limit <= 0 then [] else RestoredAll(InOrder(rows)), message)
  {
    var history := LoadHistory(rows, limit);
    ghost var loaded := history;
    while history != [] && history[0].role.Assistant?
      invariant WithoutLeadingAssistant(history) == WithoutLeadingAssistant(loaded)
    {
      history := history[1..];
    }
    assert Merged([]) == [];
    sent := MergeConsecutive(history + [Message(User, message)]);
  }

  function Sent(stored: seq<Message>, message: string): seq<Message> {
    Merged(WithoutLeadingAssistant(Merged(stored)) + [Message(User, message)])
  }

  lemma {:induction false} DroppedStartsWithUser(msgs: seq<Message>)
    ensures var rest := WithoutLeadingAssistant(msgs);
      && (rest != [] ==> rest[0].role.User?)
      && |rest| <= |msgs| && rest == msgs[|msgs| - |rest|..]
      && (forall i :: 0 <= i < |msgs| - |rest| ==> msgs[i].role.Assistant?)
    decreases |msgs|
  {
    if msgs != [] && msgs[0].role.Assistant? {
      DroppedStartsWithUser(msgs[1..]);
      var rest := WithoutLeadingAssistant(msgs);
      assert msgs == [msgs[0]] + msgs[1..];
      forall i | 0 <= i < |msgs| - |rest|
        ensures msgs[i].role.Assistant?
      {
        if i > 0 {
          assert msgs[i] == msgs[1..][i - 1];
        }
      }
    }
  }

  /** Whatever is stored: the roles alternate, the first and the last message are the user's, and the last ends with the new message. */
  lemma ConversationIsWellFormed(stored: seq<Message>, message: string)
    ensures var sent := Sent(stored, message);
      && |sent| > 0 && Alternates(sent)
      && sent[0].role.User? && sent[|sent| - 1].role.User?
      && EndsWith(sent[|sent| - 1].content, message)
  {
    var rest := WithoutLeadingAssistant(Merged(stored));
    DroppedStartsWithUser(Merged(stored));
    var all := rest + [Message(User, message)];
    MergedAlternates(all);
    assert all[..|rest|] == rest;
    assert Merged(all) == Push(Merged(rest), Message(User, message));
  }

  // Merging in two stages, as the history and its boundary to the new message are, is merging once.
  lemma {:induction false} MergedTail(a: seq<Message>, b: seq<Message>)
    ensures Merged(Merged(a) + b) == Merged(a + b)
    decreases |b|
  {
    if b == [] {
      assert Merged(a) + b == Merged(a) && a + b == a;
      MergingIsIdempotent(a);
    } else {
      var front, last := b[..|b| - 1], b[|b| - 1];
      assert b == front + [last];
      MergedTail(a, front);
      SameWithOneMore(Merged(a), a, front, last);
    }
  }

  lemma SameWithOneMore(x: seq<Message>, y: seq<Message>, front: seq<Message>, last: Message)
    requires Merged(x + front) == Merged(y + front)
    ensures Merged(x + (front + [last])) == Merged(y + (front + [last]))
  {
    Regrouped(x, front, last);
    Regrouped(y, front, last);
    SameAfterPush(x + front, y + front, last);
  }

  lemma Regrouped(x: seq<Message>, front: seq<Message>, last: Message)
    ensures x + (front + [last]) == (x + front) + [last]
  {
  }

  lemma SameAfterPush(x: seq<Message>, y: seq<Message>, m: Message)
    requires Merged(x) == Merged(y)
    ensures Merged(x + [m]) == Merged(y + [m])
  {
    MergedPush(x, m);
    MergedPush(y, m);
  }

  lemma {:induction false} LeadingRunMerges(msgs: seq<Message>)
    requires WithoutLeadingAssistant(msgs) == []
    ensures |Merged(msgs)| <= 1 && forall m :: m in Merged(msgs) ==> m.role.Assistant?
    decreases |msgs|
  {
    if msgs != [] {
      DroppedStartsWithUser(msgs);
      var front := msgs[..|msgs| - 1];
      forall i | 0 <= i < |front|
        ensures front[i].role.Assistant?
      {
        assert front[i] == msgs[i];
      }
      AllAssistantDropped(front);
      LeadingRunMerges(front);
    }
  }

  lemma {:induction false} AllAssistantDropped(msgs: seq<Message>)
    requires forall i :: 0 <= i < |msgs| ==> msgs[i].role.Assistant?
    ensures WithoutLeadingAssistant(msgs) == []
    decreases |msgs|
  {
    if msgs != [] {
      AllAssistantDropped(msgs[1..]);
    }
  }

  // Dropping the leading assistant messages after merging is dropping the leading rows before it.
  lemma {:induction false} DropCommutesWithMerge(msgs: seq<Message>)
    ensures WithoutLeadingAssistant(Merged(msgs)) == Merged(WithoutLeadingAssistant(msgs))
    decreases |msgs|
  {
    if msgs != [] {
      var front := msgs[..|msgs| - 1];
      var m := msgs[|msgs| - 1];
      DropCommutesWithMerge(front);
      DroppedLast(msgs);
      MergedAlternates(front);
      DroppedPush(Merged(front), m);
      var rest := WithoutLeadingAssistant(front);
      DroppedStartsWithUser(front);
      if rest != [] {
        assert (rest + [m])[..|rest|] == rest;
        MergedAlternates(rest);
      } else {
        LeadingRunMerges(front);
      }
    }
  }

  lemma {:induction false} DroppedLast(msgs: seq<Message>)
    requires msgs != []
    ensures var rest := WithoutLeadingAssistant(msgs[..|msgs| - 1]);
      WithoutLeadingAssistant(msgs) == if rest == [] then (if msgs[|msgs| - 1].role.Assistant? then [] else [msgs[|msgs| - 1]]) else rest + [msgs[|msgs| - 1]]
    decreases |msgs|
  {
    if |msgs| > 1 && msgs[0].role.Assistant? {
      assert msgs[1..][..|msgs| - 2] == msgs[..|msgs| - 1][1..];
      DroppedLast(msgs[1..]);
    } else if |msgs| > 1 {
      assert msgs == msgs[..|msgs| - 1] + [msgs[|msgs| - 1]];
    }
  }

  lemma DroppedPush(merged: seq<Message>, m: Message)
    requires Alternates(merged)
    ensures var rest := WithoutLeadingAssistant(merged);
      WithoutLeadingAssistant(Push(merged, m)) == if rest == [] then (if m.role.Assistant? then [] else [m]) else Push(rest, m)
  {
  }

  /** So what is sent is one merge: of the stored messages from the first user row on, and the new message. */
  lemma SentIsOneMerge(stored: seq<Message>, message: string)
    ensures Sent(stored, message) == Merged(WithoutLeadingAssistant(stored) + [Message(User, message)])
  {
    DropCommutesWithMerge(stored);
    MergedTail(WithoutLeadingAssistant(stored), [Message(User, message)]);
  }

  // --- who is heard ---

  // Somewhere in a message of this role the text stands whole.
  ghost predicate HeardAs(sent: seq<Message>, role: Role, text: string) {
    exists i, at :: 0 <= i < |sent| && sent[i].role == role && At(sent[i].content, text, at)
  }

  lemma LastIsHeard(merged: seq<Message>, m: Message, text: string)
    requires EndsWith(m.content, text)
    ensures HeardAs(Push(merged, m), m.role, text)
  {
    var last := Push(merged, m)[|Push(merged, m)| - 1];
    EndStands(last.content, m.content, text);
  }

  lemma StillHeard(merged: seq<Message>, m: Message, role: Role, text: string)
    requires HeardAs(merged, role, text)
    ensures HeardAs(Push(merged, m), role, text)
  {
    var i, at :| 0 <= i < |merged| && merged[i].role == role && At(merged[i].content, text, at);
    StandsInLonger(merged[i].content, GAP + m.content, text, at);
    assert merged[i].content + (GAP + m.content) == merged[i].content + GAP + m.content;
    assert Push(merged, m)[i].role == role && At(Push(merged, m)[i].content, text, at);
  }

  lemma StandsInLonger(content: string, more: string, text: string, at: int)
    requires At(content, text, at)
    ensures At(content + more, text, at)
  {
    assert (content + more)[at..at + |text|] == content[at..at + |text|];
  }

  // What ends a text that ends a longer one stands in the longer one.
  lemma EndStands(whole: string, part: string, text: string)
    requires EndsWith(whole, part) && EndsWith(part, text)
    ensures At(whole, text, |whole| - |text|)
  {
    assert whole[|whole| - |text|..] == whole[|whole| - |part|..][|part| - |text|..];
  }

  lemma {:induction false} HeardInMerge(msgs: seq<Message>, k: nat)
    requires k < |msgs|
    ensures HeardAs(Merged(msgs), msgs[k].role, msgs[k].content)
    decreases |msgs|
  {
    var front, m := msgs[..|msgs| - 1], msgs[|msgs| - 1];
    if k < |front| {
      HeardInMerge(front, k);
      StillHeard(Merged(front), m, msgs[k].role, msgs[k].content);
    } else {
      LastIsHeard(Merged(front), m, m.content);
    }
  }

  // From the first message of the user on, all stored messages are heard.
  lemma EveryMessageIsHeard(stored: seq<Message>, message: string, j: nat, k: nat)
    requires j <= k < |stored| && stored[j].role.User?
    ensures HeardAs(Sent(stored, message), stored[k].role, stored[k].content)
  {
    var rest := WithoutLeadingAssistant(stored);
    DroppedStartsWithUser(stored);
    var d := |stored| - |rest|;
    assert rest[k - d] == stored[k];
    HeardInMerge(rest + [Message(User, message)], k - d);
    SentIsOneMerge(stored, message);
  }

  // The stored rows that are sent: all from the first one that is not the orchestrator's.
  predicate IsSent(rows: seq<Row>, k: nat) {
    k < |rows| && exists j | 0 <= j <= k :: !rows[j].author.ByOrchestrator?
  }

  /**
   Everything said is heard from the right side. From the first row on that is not the orchestrator's,
   what users and events said stands word for word in a message of the user, and where the
   orchestrator spoke its marker stands in a message of the assistant.
   */
  lemma EveryRowIsHeard(rows: seq<Row>, message: string, k: nat)
    requires IsSent(rows, k)
    ensures var sent := Sent(RestoredAll(rows), message);
      && (!rows[k].author.ByOrchestrator? ==> HeardAs(sent, User, rows[k].content))
      && (rows[k].author.ByOrchestrator? ==> HeardAs(sent, Assistant, rows[k].marker))
  {
    var j: nat :| j <= k && !rows[j].author.ByOrchestrator?;
    EveryMessageIsHeard(RestoredAll(rows), message, j, k);
  }
}
