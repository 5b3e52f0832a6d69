/**
 Reassembling a streamed model response (backend/app/services/orchestrator.py, `_collect_stream` and
 `_parse_tool_calls`) against the same response received whole (`complete`). Reading arguments as
 JSON is a partial function `json` that nothing is assumed about. An absent text and an empty one
 are told apart nowhere in that code, so both are the empty string here.
 */
module LlmStream {
  import opened Common

  datatype Tokens = Tokens(input: int, output: int, cacheRead: int, cacheWrite: int)
  const NO_TOKENS := Tokens(0, 0, 0, 0)

  datatype ToolCall<A> = ToolCall(id: string, name: string, args: A)
  datatype Response<A> = Response(calls: seq<ToolCall<A>>, content: string, tokens: Tokens)
  datatype ParseError = BadArguments | TruncatedBeforeAnyCall

  // --- a call as received, and parsing a list of them ---

  datatype RawCall = RawCall(id: string, name: string, arguments: string)

  function ArgsOf<A>(c: RawCall, json: string -> Option<A>): Option<A> {
    json(if c.arguments == "" then "{}" else c.arguments)
  }

  // The calls whose arguments can be read, in order.
  function Readable<A>(raw: seq<RawCall>, json: string -> Option<A>): seq<ToolCall<A>> {
    if raw == [] then []
    else
      var last := raw[|raw| - 1];
      Readable(raw[..|raw| - 1], json)
      + (if ArgsOf(last, json).Some? then [ToolCall(last.id, last.name, ArgsOf(last, json).value)] else [])
  }

  ghost predicate AllReadable<A>(raw: seq<RawCall>, json: string -> Option<A>) {
    forall i :: 0 <= i < |raw| ==> ArgsOf(raw[i], json).Some?
  }

  ghost function Parsed<A>(raw: seq<RawCall>, truncated: bool, json: string -> Option<A>): Result<seq<ToolCall<A>>, ParseError> {
    if !truncated && !AllReadable(raw, json) then Failure(BadArguments)
    else if truncated && raw != [] && Readable(raw, json) == [] then Failure(TruncatedBeforeAnyCall)
    else Success(Readable(raw, json))
  }

  method ParseToolCalls<A>(raw: seq<RawCall>, truncated: bool, json: string -> Option<A>) returns (res: Result<seq<ToolCall<A>>, ParseError>)
    ensures res == Parsed(raw, truncated, json)
  {
    var calls := [];
    var i := 0;
    while i < |raw|
      invariant i <= |raw|
      invariant calls == Readable(raw[..i], json)
      invariant !truncated ==> AllReadable(raw[..i], json)
    {
      var args := ArgsOf(raw[i], json);
      assert raw[..i + 1][..i] == raw[..i];
      if args.Some? {
        calls := calls + [ToolCall(raw[i].id, raw[i].name, args.value)];
      } else if !truncated {
        assert !AllReadable(raw, json);
        return Failure(BadArguments);
      }
      i := i + 1;
    }
    assert raw[..i] == raw;
    if calls == [] && raw != [] && truncated {
      return Failure(TruncatedBeforeAnyCall);
    }
    return Success(calls);
  }

  lemma {:induction false} AllReadableCount<A>(raw: seq<RawCall>, json: string -> Option<A>)
    ensures |Readable(raw, json)| <= |raw|
    ensures |Readable(raw, json)| == |raw| <==> AllReadable(raw, json)
    ensures AllReadable(raw, json) ==> forall i :: 0 <= i < |raw| ==>
      Readable(raw, json)[i] == ToolCall(raw[i].id, raw[i].name, ArgsOf(raw[i], json).value)
    decreases |raw|
  {
    if raw != [] {
      AllReadableCount(raw[..|raw| - 1], json);
      assert AllReadable(raw, json) <==> AllReadable(raw[..|raw| - 1], json) && ArgsOf(raw[|raw| - 1], json).Some?;
    }
  }

  /** No call is lost silently: parsing yields fewer calls only from a truncated response, and no calls only from none. */
  lemma ParsingLosesNothing<A>(raw: seq<RawCall>, truncated: bool, json: string -> Option<A>)
    ensures var res := Parsed(raw, truncated, json);
      && (res.Success? && |res.value| < |raw| ==> truncated)
      && (res.Success? && res.value == [] ==> raw == [])
      && (res == Failure(BadArguments) <==> !truncated && !AllReadable(raw, json))
  {
    AllReadableCount(raw, json);
  }

  /** A response cut off in the arguments of its last call yields exactly the calls before it, if there are any. */
  lemma OnlyTheCutCallIsDropped<A>(raw: seq<RawCall>, cut: RawCall, json: string -> Option<A>)
    requires AllReadable(raw, json) && ArgsOf(cut, json).None?
    ensures Parsed(raw + [cut], true, json) == if raw == [] then Failure(TruncatedBeforeAnyCall) else Parsed(raw, false, json)
  {
    AllReadableCount(raw, json);
    assert (raw + [cut])[..|raw|] == raw;
    assert Readable(raw + [cut], json) == Readable(raw, json);
  }

  // The calls with an empty object written out where no arguments came.
  function WithArguments(raw: seq<RawCall>): seq<RawCall> {
    if raw == [] then []
    else
      var last := raw[|raw| - 1];
      WithArguments(raw[..|raw| - 1]) + [if last.arguments == "" then last.(arguments := "{}") else last]
  }

  lemma {:induction false} SameReadings<A>(raw: seq<RawCall>, json: string -> Option<A>)
    ensures |WithArguments(raw)| == |raw| && Readable(WithArguments(raw), json) == Readable(raw, json)
    ensures AllReadable(WithArguments(raw), json) <==> AllReadable(raw, json)
    decreases |raw|
  {
    if raw != [] {
      SameReadings(raw[..|raw| - 1], json);
      var front := WithArguments(raw[..|raw| - 1]);
      assert WithArguments(raw)[..|front|] == front;
      AllReadableCount(raw, json);
      AllReadableCount(WithArguments(raw), json);
    }
  }

  /**
   A call without arguments is a call with none: it reads as the empty object. Every other call that
   is kept has its own id and name and what its own arguments read as.
   */
  lemma NoArgumentsIsTheEmptyObject<A>(raw: seq<RawCall>, truncated: bool, json: string -> Option<A>)
    ensures Parsed(raw, truncated, json) == Parsed(WithArguments(raw), truncated, json)
    ensures Parsed(raw, truncated, json).Success? ==> forall k :: 0 <= k < |Parsed(raw, truncated, json).value| ==>
      ReadFrom(Parsed(raw, truncated, json).value[k], WithArguments(raw), json)
  {
    SameReadings(raw, json);
    ArgumentsAreWritten(raw);
    ReadableFromWritten(WithArguments(raw), json);
  }

  ghost predicate ReadFrom<A>(c: ToolCall<A>, raw: seq<RawCall>, json: string -> Option<A>) {
    exists i :: 0 <= i < |raw| && raw[i].id == c.id && raw[i].name == c.name && json(raw[i].arguments) == Some(c.args)
  }

  predicate Written(raw: seq<RawCall>) {
    forall i :: 0 <= i < |raw| ==> raw[i].arguments != ""
  }

  lemma {:induction false} ArgumentsAreWritten(raw: seq<RawCall>)
    ensures Written(WithArguments(raw))
    decreases |raw|
  {
    if raw != [] {
      ArgumentsAreWritten(raw[..|raw| - 1]);
    }
  }

  lemma {:induction false} ReadableFromWritten<A>(raw: seq<RawCall>, json: string -> Option<A>)
    requires Written(raw)
    ensures forall k :: 0 <= k < |Readable(raw, json)| ==> ReadFrom(Readable(raw, json)[k], raw, json)
    decreases |raw|
  {
    if raw != [] {
      var front := raw[..|raw| - 1];
      ReadableFromWritten(front, json);
      forall k | 0 <= k < |Readable(raw, json)|
        ensures ReadFrom(Readable(raw, json)[k], raw, json)
      {
        if k < |Readable(front, json)| {
          var i :| 0 <= i < |front| && front[i].id == Readable(front, json)[k].id && front[i].name == Readable(front, json)[k].name
            && json(front[i].arguments) == Some(Readable(front, json)[k].args);
          assert raw[i] == front[i];
        }
      }
    }
  }

  // Calls if there are any, otherwise the text.
  ghost function Respond<A>(raw: seq<RawCall>, finish: string, content: string, tokens: Tokens, json: string -> Option<A>): Result<Response<A>, ParseError> {
    var calls := Parsed(raw, finish == "length", json);
    if calls.Failure? then Failure(calls.error)
    else Success(Response(calls.value, if calls.value == [] then content else "", tokens))
  }

  // --- the response received whole ---

  datatype Whole = Whole(calls: seq<RawCall>, content: string, finish: string, tokens: Tokens)

  ghost function Completed<A>(w: Whole, json: string -> Option<A>): Result<Response<A>, ParseError> {
    if w.calls == [] then Success(Response([], w.content, w.tokens))
    else
      var calls := Parsed(w.calls, w.finish == "length", json);
      if calls.Failure? then Failure(calls.error)
      else if calls.value != [] then Success(Response(calls.value, "", w.tokens))
      else Success(Response([], w.content, w.tokens))
  }

  method Complete<A>(w: Whole, json: string -> Option<A>) returns (res: Result<Response<A>, ParseError>)
    ensures res == Completed(w, json)
  {
    if w.calls != [] {
      var calls := ParseToolCalls(w.calls, w.finish == "length", json);
      if calls.Failure? {
        return Failure(calls.error);
      }
      if calls.value != [] {
        return Success(Response(calls.value, "", w.tokens));
      }
    }
    return Success(Response([], w.content, w.tokens));
  }

  // --- the stream ---

  datatype Fragment = Fragment(index: nat, id: string, name: string, args: string)
  datatype Chunk = Chunk(tokens: Option<Tokens>, finish: string, content: string, calls: seq<Fragment>)

  datatype Slot = Slot(id: string, name: string, args: string)
  const NEW_SLOT := Slot("", "", "")

  function Absorb(s: Slot, f: Fragment): Slot {
    Slot(if f.id != "" then f.id else s.id, if f.name != "" then f.name else s.name, s.args + f.args)
  }

  function SlotAt(slots: map<nat, Slot>, i: nat): Slot {
    if i in slots then slots[i] else NEW_SLOT
  }

  predicate Rising(xs: seq<nat>) {
    forall i, j :: 0 <= i < j < |xs| ==> xs[i] < xs[j]
  }

  // The smallest first.
  function Sorted(s: set<nat>): (xs: seq<nat>)
    ensures Rising(xs) && forall x :: x in xs <==> x in s
    decreases |s|
  {
    if s == {} then []
    else
      var m := Min(s);
      var rest := Sorted(s - {m});
      assert forall i :: 0 <= i < |rest| ==> rest[i] in s - {m};
      [m] + rest
  }

  function Min(s: set<nat>): (m: nat)
    requires s != {}
    ensures m in s && forall x :: x in s ==> m <= x
  {
    MinExists(s);
    var m :| m in s && forall x :: x in s ==> m <= x;
    m
  }

  lemma {:induction false} MinExists(s: set<nat>)
    requires s != {}
    ensures exists m :: m in s && forall x :: x in s ==> m <= x
    decreases |s|
  {
    var y :| y in s;
    var rest := s - {y};
    assert forall x :: x in s && x != y ==> x in rest;
    if rest == {} {
      LeastOfTwo(s, y, y);
    } else {
      MinExists(rest);
      var m :| m in rest && forall x :: x in rest ==> m <= x;
      LeastOfTwo(s, y, m);
    }
  }

  lemma LeastOfTwo(s: set<nat>, y: nat, m: nat)
    requires y in s && m in s && forall x :: x in s && x != y ==> m <= x
    ensures exists least :: least in s && forall x :: x in s ==> least <= x
  {
    var least := if m < y then m else y;
    assert least in s && forall x :: x in s ==> least <= x;
  }

  function Named(slots: map<nat, Slot>, order: seq<nat>): seq<RawCall> {
    if order == [] then []
    else
      var s := SlotAt(slots, order[|order| - 1]);
      Named(slots, order[..|order| - 1]) + (if s.name != "" then [RawCall(s.id, s.name, s.args)] else [])
  }

  // What chunks add up to: all fragments and all text in order, the last finish reason and the last count.
  datatype Flow = Flow(calls: seq<Fragment>, content: string, finish: string, tokens: Option<Tokens>)
  const NOTHING := Flow([], "", "", None)

  function Then(a: Flow, b: Flow): Flow {
    Flow(a.calls + b.calls, a.content + b.content, if b.finish != "" then b.finish else a.finish,
         if b.tokens.Some? then b.tokens else a.tokens)
  }

  function OfChunk(c: Chunk): Flow {
    Flow(c.calls, c.content, c.finish, c.tokens)
  }

  function FlowOf(chunks: seq<Chunk>): Flow {
    if chunks == [] then NOTHING else Then(FlowOf(chunks[..|chunks| - 1]), OfChunk(chunks[|chunks| - 1]))
  }

  function Slots(fs: seq<Fragment>): map<nat, Slot> {
    if fs == [] then map[]
    else
      var before := Slots(fs[..|fs| - 1]);
      var f := fs[|fs| - 1];
      before[f.index := Absorb(SlotAt(before, f.index), f)]
  }

  ghost function CollectedFlow<A>(flow: Flow, json: string -> Option<A>): Result<Response<A>, ParseError> {
    var slots := Slots(flow.calls);
    Respond(Named(slots, Sorted(slots.Keys)), flow.finish, flow.content, flow.tokens.GetOr(NO_TOKENS), json)
  }

  ghost function Collected<A>(chunks: seq<Chunk>, json: string -> Option<A>): Result<Response<A>, ParseError> {
    CollectedFlow(FlowOf(chunks), json)
  }

  method CollectStream<A>(chunks: seq<Chunk>, json: string -> Option<A>) returns (res: Result<Response<A>, ParseError>)
    ensures res == Collected(chunks, json)
  {
    var content := "";
    var slots: map<nat, Slot> := map[];
    var finish := "";
    var tokens: Option<Tokens> := None;
    ghost var flow := NOTHING;
    var i := 0;
    while i < |chunks|
      invariant i <= |chunks|
      invariant flow == FlowOf(chunks[..i])
      invariant content == flow.content && finish == flow.finish && tokens == flow.tokens
      invariant slots == Slots(flow.calls)
    {
      var ch := chunks[i];
      if ch.tokens.Some? {
        tokens := ch.tokens;
      }
      if ch.finish != "" {
        finish := ch.finish;
      }
      content := content + ch.content;
      slots := AbsorbCalls(slots, ch.calls, flow.calls);
      FlowUpTo(chunks, i);
      flow := Then(flow, OfChunk(ch));
      i := i + 1;
    }
    assert chunks[..i] == chunks;
    var raw := Named(slots, Sorted(slots.Keys));
    var calls := ParseToolCalls(raw, finish == "length", json);
    if calls.Failure? {
      return Failure(calls.error);
    }
    return Success(Response(calls.value, if calls.value == [] then content else "", tokens.GetOr(NO_TOKENS)));
  }

  lemma FlowUpTo(chunks: seq<Chunk>, i: nat)
    requires i < |chunks|
    ensures FlowOf(chunks[..i + 1]) == Then(FlowOf(chunks[..i]), OfChunk(chunks[i]))
  {
    FlowPush(chunks[..i], chunks[i]);
    assert chunks[..i + 1] == chunks[..i] + [chunks[i]];
  }

  lemma FlowPush(chunks: seq<Chunk>, c: Chunk)
    ensures FlowOf(chunks + [c]) == Then(FlowOf(chunks), OfChunk(c))
  {
    assert (chunks + [c])[..|chunks|] == chunks;
  }

  method AbsorbCalls(before: map<nat, Slot>, calls: seq<Fragment>, ghost seen: seq<Fragment>) returns (slots: map<nat, Slot>)
    requires before == Slots(seen)
    ensures slots == Slots(seen + calls)
  {
    slots := before;
    assert seen + calls[..0] == seen;
    var k := 0;
    while k < |calls|
      invariant k <= |calls|
      invariant slots == Slots(seen + calls[..k])
    {
      var f := calls[k];
      SlotsUpTo(seen, calls, k);
      slots := slots[f.index := Absorb(SlotAt(slots, f.index), f)];
      k := k + 1;
    }
    assert calls[..k] == calls;
  }

  lemma SlotsUpTo(seen: seq<Fragment>, calls: seq<Fragment>, k: nat)
    requires k < |calls|
    ensures var before := Slots(seen + calls[..k]);
      Slots(seen + calls[..k + 1]) == before[calls[k].index := Absorb(SlotAt(before, calls[k].index), calls[k])]
  {
    SlotsPush(seen + calls[..k], calls[k]);
    assert seen + calls[..k + 1] == (seen + calls[..k]) + [calls[k]];
  }

  lemma SlotsPush(fs: seq<Fragment>, f: Fragment)
    ensures Slots(fs + [f]) == Slots(fs)[f.index := Absorb(SlotAt(Slots(fs), f.index), f)]
  {
    assert (fs + [f])[..|fs|] == fs;
  }

  // --- what a stream spells, index by index ---

  datatype Spelling = Spelling(some: bool, id: string, name: string, args: string)
  const BLANK := Spelling(false, "", "", "")

  function Followed(a: Spelling, b: Spelling): Spelling {
    Spelling(a.some || b.some, if b.id != "" then b.id else a.id, if b.name != "" then b.name else a.name, a.args + b.args)
  }

  function OfFragment(f: Fragment, i: nat): Spelling {
    if f.index == i then Spelling(true, f.id, f.name, f.args) else BLANK
  }

  function Spelled(fs: seq<Fragment>, i: nat): Spelling {
    if fs == [] then BLANK else Followed(Spelled(fs[..|fs| - 1], i), OfFragment(fs[|fs| - 1], i))
  }

  lemma {:induction false} SlotsSpell(fs: seq<Fragment>, i: nat)
    ensures var sp := Spelled(fs, i); (i in Slots(fs) <==> sp.some) && SlotAt(Slots(fs), i) == Slot(sp.id, sp.name, sp.args)
    decreases |fs|
  {
    if fs != [] {
      SlotsSpell(fs[..|fs| - 1], i);
    }
  }

  // The stream is the response w cut into pieces: at rising indices one call each, whose name, id
  // and arguments come in any number of pieces; texts and pieces of different calls may interleave.
  ghost predicate Cuts(flow: Flow, at: seq<nat>, w: Whole) {
    && |at| == |w.calls| && Rising(at)
    && (forall i: nat :: Spelled(flow.calls, i).some <==> i in at)
    && (forall k :: 0 <= k < |at| ==>
          Spelled(flow.calls, at[k]) == Spelling(true, w.calls[k].id, w.calls[k].name, w.calls[k].arguments))
    && flow.content == w.content && flow.finish == w.finish && flow.tokens.GetOr(NO_TOKENS) == w.tokens
  }

  // A call without a name is dropped by the stream; received whole it would be kept.
  function WithNames(calls: seq<RawCall>): seq<RawCall> {
    if calls == [] then []
    else WithNames(calls[..|calls| - 1]) + (if calls[|calls| - 1].name != "" then [calls[|calls| - 1]] else [])
  }

  lemma {:induction false} RisingIsUnique(xs: seq<nat>, ys: seq<nat>)
    requires Rising(xs) && Rising(ys) && forall x :: x in xs <==> x in ys
    ensures xs == ys
    decreases |xs|
  {
    if xs == [] {
      if ys != [] {
        HasMember(ys);
      }
    } else {
      assert xs[0] in ys && ys[0] in xs;
      assert xs[0] == ys[0];
      TailMembers(xs);
      TailMembers(ys);
      RisingIsUnique(xs[1..], ys[1..]);
      assert xs == [xs[0]] + xs[1..] && ys == [ys[0]] + ys[1..];
    }
  }

  lemma HasMember(xs: seq<nat>)
    requires xs != []
    ensures exists x :: x in xs
  {
    assert xs[0] in xs;
  }

  lemma TailMembers(xs: seq<nat>)
    requires Rising(xs) && xs != []
    ensures Rising(xs[1..]) && forall x :: x in xs[1..] <==> x in xs && x != xs[0]
  {
    assert xs == [xs[0]] + xs[1..];
  }

  lemma {:induction false} NamedCalls(slots: map<nat, Slot>, at: seq<nat>, calls: seq<RawCall>)
    requires |at| == |calls|
    requires forall k :: 0 <= k < |at| ==>
      var s := SlotAt(slots, at[k]); RawCall(s.id, s.name, s.args) == calls[k]
    ensures Named(slots, at) == WithNames(calls)
    decreases |at|
  {
    if at != [] {
      NamedCalls(slots, at[..|at| - 1], calls[..|calls| - 1]);
    }
  }

  lemma CompletedResponds<A>(w: Whole, json: string -> Option<A>)
    ensures Completed(w, json) == Respond(w.calls, w.finish, w.content, w.tokens, json)
  {
    AllReadableCount(w.calls, json);
  }

  /**
   What comes of a response: its token counts always; its calls alone if it has any; its whole text if
   it has none; and nothing else, so a text next to calls is dropped.
   */
  lemma ResponsesKeepTextOrCalls<A>(w: Whole, json: string -> Option<A>)
    ensures Completed(w, json).Success? ==>
      var r := Completed(w, json).value;
      && r.tokens == w.tokens
      && (w.calls == [] <==> r.calls == []) && r.content == (if w.calls == [] then w.content else "")
    ensures Completed(w, json).Failure? <==> w.calls != [] && (if w.finish == "length" then forall c :: c in w.calls ==> ArgsOf(c, json).None? else !AllReadable(w.calls, json))
  {
    AllReadableCount(w.calls, json);
    NoneReadable(w.calls, json);
  }

  lemma {:induction false} NoneReadable<A>(raw: seq<RawCall>, json: string -> Option<A>)
    ensures Readable(raw, json) == [] <==> forall c :: c in raw ==> ArgsOf(c, json).None?
    decreases |raw|
  {
    if raw != [] {
      NoneReadable(raw[..|raw| - 1], json);
      assert raw == raw[..|raw| - 1] + [raw[|raw| - 1]];
    }
  }

  /**
   However a response is cut into chunks, the stream gives what the whole response gives (without
   calls that have no name): the same calls or the same text, the same failure on arguments cut off
   at the length limit, and the same token counts.
   */
  lemma StreamEqualsWhole<A>(chunks: seq<Chunk>, at: seq<nat>, w: Whole, json: string -> Option<A>)
    requires Cuts(FlowOf(chunks), at, w)
    ensures Collected(chunks, json) == Completed(w.(calls := WithNames(w.calls)), json)
    ensures (forall k :: 0 <= k < |w.calls| ==> w.calls[k].name != "") ==> Collected(chunks, json) == Completed(w, json)
  {
    CutsName(FlowOf(chunks), at, w);
    CompletedResponds(w.(calls := WithNames(w.calls)), json);
    if forall k :: 0 <= k < |w.calls| ==> w.calls[k].name != "" {
      AllNamed(w.calls);
    }
  }

  lemma CutsName(flow: Flow, at: seq<nat>, w: Whole)
    requires Cuts(flow, at, w)
    ensures var slots := Slots(flow.calls); Named(slots, Sorted(slots.Keys)) == WithNames(w.calls)
  {
    var slots := Slots(flow.calls);
    forall i: nat
      ensures i in slots <==> i in at
    {
      SlotsSpell(flow.calls, i);
    }
    forall k | 0 <= k < |at|
      ensures SlotAt(slots, at[k]) == Slot(w.calls[k].id, w.calls[k].name, w.calls[k].arguments)
    {
      SlotsSpell(flow.calls, at[k]);
    }
    RisingIsUnique(Sorted(slots.Keys), at);
    NamedCalls(slots, at, w.calls);
  }

  lemma {:induction false} AllNamed(calls: seq<RawCall>)
    requires forall k :: 0 <= k < |calls| ==> calls[k].name != ""
    ensures WithNames(calls) == calls
    decreases |calls|
  {
    if calls != [] {
      AllNamed(calls[..|calls| - 1]);
    }
  }

  // --- every way of cutting ---

  // One fragment per call, at its place in the list.
  function WholeFragments(calls: seq<RawCall>): (fs: seq<Fragment>)
    ensures |fs| == |calls|
    ensures forall i :: 0 <= i < |calls| ==> fs[i] == Fragment(i, calls[i].id, calls[i].name, calls[i].arguments)
  {
    seq(|calls|, i requires 0 <= i < |calls| => Fragment(i, calls[i].id, calls[i].name, calls[i].arguments))
  }

  function WholeChunk(w: Whole): Chunk {
    Chunk(Some(w.tokens), w.finish, w.content, WholeFragments(w.calls))
  }

  // A chunk becomes two that add up to it: at any point of its text and of its calls, with the finish
  // reason and the token count in either of them.
  ghost predicate SplitsChunk(c: Chunk, cut: seq<Chunk>) {
    |cut| == 2 && Then(OfChunk(cut[0]), OfChunk(cut[1])) == OfChunk(c)
  }

  // The arguments of a fragment become two, anywhere.
  function Split(f: Fragment, n: nat): seq<Fragment>
    requires n <= |f.args|
  {
    [f.(args := f.args[..n]), Fragment(f.index, "", "", f.args[n..])]
  }

  ghost predicate SplitsArguments(c: Chunk, cut: seq<Chunk>, k: nat, n: nat) {
    && k < |c.calls| && n <= |c.calls[k].args|
    && cut == [c.(calls := c.calls[..k] + Split(c.calls[k], n) + c.calls[k + 1..])]
  }

  // Neighbouring fragments of two calls change places.
  ghost predicate Interleaves(c: Chunk, cut: seq<Chunk>, k: nat) {
    && k + 1 < |c.calls| && c.calls[k].index != c.calls[k + 1].index
    && cut == [c.(calls := c.calls[..k] + [c.calls[k + 1], c.calls[k]] + c.calls[k + 2..])]
  }

  ghost predicate CutAt(chunks: seq<Chunk>, cut: seq<Chunk>, i: nat, piece: seq<Chunk>) {
    && i < |chunks|
    && cut == chunks[..i] + piece + chunks[i + 1..]
    && (SplitsChunk(chunks[i], piece)
        || (exists k: nat, n: nat :: SplitsArguments(chunks[i], piece, k, n))
        || (exists k: nat :: Interleaves(chunks[i], piece, k)))
  }

  ghost predicate OneCut(chunks: seq<Chunk>, cut: seq<Chunk>) {
    exists i: nat, piece: seq<Chunk> :: CutAt(chunks, cut, i, piece)
  }

  ghost predicate SameCalls(fs: seq<Fragment>, gs: seq<Fragment>) {
    forall i: nat :: Spelled(fs, i) == Spelled(gs, i)
  }

  ghost predicate SameFlow(a: Flow, b: Flow) {
    SameCalls(a.calls, b.calls) && a.content == b.content && a.finish == b.finish && a.tokens == b.tokens
  }

  lemma SpelledPush(fs: seq<Fragment>, f: Fragment, i: nat)
    ensures Spelled(fs + [f], i) == Followed(Spelled(fs, i), OfFragment(f, i))
  {
    assert (fs + [f])[..|fs|] == fs;
  }

  lemma FollowedAssociates(a: Spelling, b: Spelling, c: Spelling)
    ensures Followed(Followed(a, b), c) == Followed(a, Followed(b, c))
    ensures Followed(a, BLANK) == Followed(BLANK, a) == a
  {
    assert a.args + b.args + c.args == a.args + (b.args + c.args);
    assert a.args + "" == "" + a.args == a.args;
  }

  lemma {:induction false} SpelledAppend(fs: seq<Fragment>, gs: seq<Fragment>, i: nat)
    ensures Spelled(fs + gs, i) == Followed(Spelled(fs, i), Spelled(gs, i))
    decreases |gs|
  {
    if gs == [] {
      assert fs + gs == fs;
      FollowedAssociates(Spelled(fs, i), BLANK, BLANK);
    } else {
      var front, last := gs[..|gs| - 1], gs[|gs| - 1];
      SpelledAppend(fs, front, i);
      SpelledStep(fs, front, last, i);
      assert gs == front + [last];
    }
  }

  lemma SpelledStep(fs: seq<Fragment>, front: seq<Fragment>, last: Fragment, i: nat)
    requires Spelled(fs + front, i) == Followed(Spelled(fs, i), Spelled(front, i))
    ensures Spelled(fs + (front + [last]), i) == Followed(Spelled(fs, i), Spelled(front + [last], i))
  {
    SpelledPush(fs + front, last, i);
    SpelledPush(front, last, i);
    FollowedAssociates(Spelled(fs, i), Spelled(front, i), OfFragment(last, i));
    assert fs + (front + [last]) == (fs + front) + [last];
  }

  lemma ThenAssociates(a: Flow, b: Flow, c: Flow)
    ensures Then(Then(a, b), c) == Then(a, Then(b, c))
  {
    assert a.calls + b.calls + c.calls == a.calls + (b.calls + c.calls);
    assert a.content + b.content + c.content == a.content + (b.content + c.content);
  }

  lemma {:induction false} FlowAppend(a: seq<Chunk>, b: seq<Chunk>)
    ensures FlowOf(a + b) == Then(FlowOf(a), FlowOf(b))
    decreases |b|
  {
    if b == [] {
      assert a + b == a;
    } else {
      var front, last := b[..|b| - 1], b[|b| - 1];
      FlowAppend(a, front);
      FlowStep(a, front, last);
      assert b == front + [last];
    }
  }

  lemma FlowStep(a: seq<Chunk>, front: seq<Chunk>, last: Chunk)
    requires FlowOf(a + front) == Then(FlowOf(a), FlowOf(front))
    ensures FlowOf(a + (front + [last])) == Then(FlowOf(a), FlowOf(front + [last]))
  {
    FlowPush(a + front, last);
    FlowPush(front, last);
    ThenAssociates(FlowOf(a), FlowOf(front), OfChunk(last));
    assert a + (front + [last]) == (a + front) + [last];
  }

  lemma SameInContext(pre: seq<Fragment>, fs: seq<Fragment>, gs: seq<Fragment>, post: seq<Fragment>)
    requires SameCalls(fs, gs)
    ensures SameCalls(pre + fs + post, pre + gs + post)
  {
    forall i: nat
      ensures Spelled(pre + fs + post, i) == Spelled(pre + gs + post, i)
    {
      SpelledAppend(pre, fs, i);
      SpelledAppend(pre + fs, post, i);
      SpelledAppend(pre, gs, i);
      SpelledAppend(pre + gs, post, i);
    }
  }

  lemma OneFragment(f: Fragment, i: nat)
    ensures Spelled([f], i) == OfFragment(f, i)
  {
    SpelledPush([], f, i);
    assert [] + [f] == [f];
  }

  lemma TwoFragments(f: Fragment, g: Fragment, i: nat)
    ensures Spelled([f, g], i) == Followed(OfFragment(f, i), OfFragment(g, i))
  {
    OneFragment(f, i);
    SpelledPush([f], g, i);
    assert [f] + [g] == [f, g];
  }

  lemma SplitSpells(f: Fragment, n: nat, i: nat)
    requires n <= |f.args|
    ensures Spelled(Split(f, n), i) == OfFragment(f, i)
  {
    TwoFragments(Split(f, n)[0], Split(f, n)[1], i);
    assert f.args == f.args[..n] + f.args[n..];
    assert "" + "" == "";
  }

  lemma SplitSame(f: Fragment, n: nat)
    requires n <= |f.args|
    ensures SameCalls([f], Split(f, n))
  {
    forall i: nat
      ensures Spelled([f], i) == Spelled(Split(f, n), i)
    {
      OneFragment(f, i);
      SplitSpells(f, n, i);
    }
  }

  lemma SwapSame(f: Fragment, g: Fragment)
    requires f.index != g.index
    ensures SameCalls([f, g], [g, f])
  {
    forall i: nat
      ensures Spelled([f, g], i) == Spelled([g, f], i)
    {
      TwoFragments(f, g, i);
      TwoFragments(g, f, i);
    }
  }

  lemma OneChunk(c: Chunk)
    ensures FlowOf([c]) == OfChunk(c)
  {
    FlowPush([], c);
    assert [] + [c] == [c];
  }

  lemma ChunkSplitSame(c: Chunk, piece: seq<Chunk>)
    requires SplitsChunk(c, piece)
    ensures FlowOf(piece) == OfChunk(c)
  {
    OneChunk(piece[0]);
    OneChunk(piece[1]);
    FlowAppend([piece[0]], [piece[1]]);
    assert piece == [piece[0]] + [piece[1]];
  }

  lemma ArgumentsSplitSame(c: Chunk, piece: seq<Chunk>, k: nat, n: nat)
    requires SplitsArguments(c, piece, k, n)
    ensures SameFlow(OfChunk(c), FlowOf(piece))
  {
    OneChunk(piece[0]);
    SplitSame(c.calls[k], n);
    SameInContext(c.calls[..k], [c.calls[k]], Split(c.calls[k], n), c.calls[k + 1..]);
    assert c.calls == c.calls[..k] + [c.calls[k]] + c.calls[k + 1..];
  }

  lemma InterleavedSame(c: Chunk, piece: seq<Chunk>, k: nat)
    requires Interleaves(c, piece, k)
    ensures SameFlow(OfChunk(c), FlowOf(piece))
  {
    OneChunk(piece[0]);
    SwapSame(c.calls[k], c.calls[k + 1]);
    SameInContext(c.calls[..k], [c.calls[k], c.calls[k + 1]], [c.calls[k + 1], c.calls[k]], c.calls[k + 2..]);
    assert c.calls == c.calls[..k] + [c.calls[k], c.calls[k + 1]] + c.calls[k + 2..];
  }

  lemma OneCutSame(chunks: seq<Chunk>, cut: seq<Chunk>)
    requires OneCut(chunks, cut)
    ensures SameFlow(FlowOf(chunks), FlowOf(cut))
  {
    var i: nat, piece: seq<Chunk> :| CutAt(chunks, cut, i, piece);
    var c := chunks[i];
    if k: nat, n: nat :| SplitsArguments(c, piece, k, n) {
      ArgumentsSplitSame(c, piece, k, n);
    } else if k: nat :| Interleaves(c, piece, k) {
      InterleavedSame(c, piece, k);
    } else {
      ChunkSplitSame(c, piece);
    }
    PieceInPlace(chunks[..i], c, piece, chunks[i + 1..]);
    assert chunks == chunks[..i] + [c] + chunks[i + 1..];
  }

  lemma PieceInPlace(pre: seq<Chunk>, c: Chunk, piece: seq<Chunk>, post: seq<Chunk>)
    requires SameFlow(OfChunk(c), FlowOf(piece))
    ensures SameFlow(FlowOf(pre + [c] + post), FlowOf(pre + piece + post))
  {
    OneChunk(c);
    FlowAppend(pre, [c]);
    FlowAppend(pre + [c], post);
    FlowAppend(pre, piece);
    FlowAppend(pre + piece, post);
    SameInContext(FlowOf(pre).calls, c.calls, FlowOf(piece).calls, FlowOf(post).calls);
  }

  lemma {:induction false} Elsewhere(fs: seq<Fragment>, i: nat)
    requires forall k :: 0 <= k < |fs| ==> fs[k].index != i
    ensures Spelled(fs, i) == BLANK
    decreases |fs|
  {
    if fs != [] {
      Elsewhere(fs[..|fs| - 1], i);
    }
  }

  lemma WholeFragment(fs: seq<Fragment>, i: nat)
    requires forall k :: 0 <= k < |fs| ==> fs[k].index == k
    ensures Spelled(fs, i) == if i < |fs| then OfFragment(fs[i], i) else BLANK
  {
    if i < |fs| {
      AloneAt(fs[..i], fs[i], fs[i + 1..], i);
      assert fs == fs[..i] + [fs[i]] + fs[i + 1..];
    } else {
      Elsewhere(fs, i);
    }
  }

  lemma AloneAt(pre: seq<Fragment>, f: Fragment, post: seq<Fragment>, i: nat)
    requires forall k :: 0 <= k < |pre| ==> pre[k].index != i
    requires forall k :: 0 <= k < |post| ==> post[k].index != i
    ensures Spelled(pre + [f] + post, i) == OfFragment(f, i)
  {
    Elsewhere(pre, i);
    Elsewhere(post, i);
    SpelledPush(pre, f, i);
    SpelledAppend(pre + [f], post, i);
    FollowedAssociates(OfFragment(f, i), BLANK, BLANK);
  }

  function Indices(n: nat): (at: seq<nat>)
    ensures |at| == n && Rising(at) && forall i :: 0 <= i < n ==> at[i] == i
    ensures forall i: nat :: i in at <==> i < n
  {
    if n == 0 then [] else Indices(n - 1) + [n - 1]
  }

  lemma WholeSpells(calls: seq<RawCall>, i: nat)
    ensures var sp := Spelled(WholeFragments(calls), i);
      sp == if i < |calls| then Spelling(true, calls[i].id, calls[i].name, calls[i].arguments) else BLANK
  {
    WholeFragment(WholeFragments(calls), i);
  }

  lemma WholeChunkFlow(w: Whole)
    ensures Cuts(FlowOf([WholeChunk(w)]), Indices(|w.calls|), w)
  {
    OneChunk(WholeChunk(w));
    SpelledInOrder(OfChunk(WholeChunk(w)), Indices(|w.calls|), w);
  }

  lemma SpelledInOrder(flow: Flow, at: seq<nat>, w: Whole)
    requires flow.calls == WholeFragments(w.calls)
    requires flow.content == w.content && flow.finish == w.finish && flow.tokens == Some(w.tokens)
    requires |at| == |w.calls| && Rising(at) && (forall k :: 0 <= k < |at| ==> at[k] == k) && (forall i: nat :: i in at <==> i < |w.calls|)
    ensures Cuts(flow, at, w)
  {
    forall i: nat
      ensures Spelled(flow.calls, i).some <==> i in at
    {
      WholeSpells(w.calls, i);
    }
    forall k | 0 <= k < |at|
      ensures Spelled(flow.calls, at[k]) == Spelling(true, w.calls[k].id, w.calls[k].name, w.calls[k].arguments)
    {
      WholeSpells(w.calls, k);
    }
  }

  lemma {:induction false} CutsStayCuts(stages: seq<seq<Chunk>>, w: Whole)
    requires |stages| > 0 && stages[0] == [WholeChunk(w)]
    requires forall i :: 0 <= i < |stages| - 1 ==> OneCut(stages[i], stages[i + 1])
    ensures Cuts(FlowOf(stages[|stages| - 1]), Indices(|w.calls|), w)
    decreases |stages|
  {
    if |stages| == 1 {
      WholeChunkFlow(w);
    } else {
      var front := stages[..|stages| - 1];
      CutsStayCuts(front, w);
      assert OneCut(stages[|stages| - 2], stages[|stages| - 1]);
      OneCutSame(stages[|stages| - 2], stages[|stages| - 1]);
    }
  }

  /**
   Cut a response as often as you like, splitting chunks, splitting arguments anywhere and letting
   the pieces of different calls overtake each other: what is collected is the response itself.
   */
  lemma AnyCuttingIsCollected<A>(stages: seq<seq<Chunk>>, w: Whole, json: string -> Option<A>)
    requires |stages| > 0 && stages[0] == [WholeChunk(w)]
    requires forall i :: 0 <= i < |stages| - 1 ==> OneCut(stages[i], stages[i + 1])
    requires forall k :: 0 <= k < |w.calls| ==> w.calls[k].name != ""
    ensures Collected(stages[|stages| - 1], json) == Completed(w, json)
  {
    CutsStayCuts(stages, w);
    StreamEqualsWhole(stages[|stages| - 1], Indices(|w.calls|), w, json);
  }
}
