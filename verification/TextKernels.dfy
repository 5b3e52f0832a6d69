/**
 Small text operations: masking secrets in logs (`redact`, backend/app/services/deploy_service.py),
 exact-snippet editing (the `edit_file` tool, backend/app/services/dev_runner.py) and the budgeted
 project context of a prompt (`_context_block`, backend/app/services/prompt.py).
 */
module TextKernels {
  import opened Common
  import opened Strings
  import opened Utf8

  // --- redact ---

  const MASK := "•••"

  // No mask character at either end and no whole mask inside: such a secret cannot overlap an
  // inserted mask.
  predicate ClearOfMask(s: string) {
    s != "" && s[0] != '•' && s[|s| - 1] != '•' && !Contains(s, MASK)
  }

  function Masked(text: string, secret: string): string {
    if |secret| >= 4 then ReplaceAll(text, secret, MASK) else text
  }

  function Redacted(text: string, secrets: seq<string>): string {
    if secrets == [] then text else Masked(Redacted(text, secrets[..|secrets| - 1]), secrets[|secrets| - 1])
  }

  method Redact(text: string, secrets: seq<string>) returns (out: string)
    ensures out == Redacted(text, secrets)
    ensures forall v :: v in secrets && |v| >= 4 && ClearOfMask(v) ==> !Contains(out, v)
  {
    out := text;
    var i := 0;
    while i < |secrets|
      invariant i <= |secrets|
      invariant out == Redacted(text, secrets[..i])
    {
      assert secrets[..i + 1][..i] == secrets[..i];
      if |secrets[i]| >= 4 {
        out := ReplaceAll(out, secrets[i], MASK);
      }
      i := i + 1;
    }
    assert secrets[..i] == secrets;
    forall v | v in secrets && |v| >= 4 && ClearOfMask(v)
      ensures !Contains(out, v)
    {
      SecretsAreGone(text, secrets, v);
    }
  }

  lemma BeginsWith(c: char, rest: string, u: string)
    requires u != ""
    ensures At([c] + rest, u, 0) <==> u[0] == c && At(rest, u[1..], 0)
  {
    if |u| <= 1 + |rest| {
      assert ([c] + rest)[0..|u|] == [c] + rest[0..|u| - 1];
      assert u == [u[0]] + u[1..];
    }
  }

  lemma ContainsInSuffix(t: string, v: string, n: nat)
    requires n <= |t| && Contains(t[n..], v)
    ensures Contains(t, v)
  {
    var i :| 0 <= i <= |t[n..]| - |v| && At(t[n..], v, i);
    assert t[n + i..n + i + |v|] == t[n..][i..i + |v|];
    assert At(t, v, n + i);
  }

  // A beginning of the masked text that neither ends in nor contains the mask is a beginning of the text.
  lemma {:induction false} BeginningIsOld(t: string, w: string, u: string)
    requires w != "" && (u != "" ==> u[|u| - 1] != '•') && !Contains(u, MASK) && At(ReplaceAll(t, w, MASK), u, 0)
    ensures At(t, u, 0)
    decreases |u|
  {
    if u == "" || t == "" {
    } else if At(t, w, 0) {
      NotAMaskBeginning(ReplaceAll(t[|w|..], w, MASK), u);
    } else {
      assert t == [t[0]] + t[1..];
      BeginsWith(t[0], ReplaceAll(t[1..], w, MASK), u);
      if Contains(u[1..], MASK) {
        ContainsInSuffix(u, MASK, 1);
      }
      BeginningIsOld(t[1..], w, u[1..]);
      BeginsWith(t[0], t[1..], u);
    }
  }

  // A text that begins with a mask, cut off anywhere, ends in the mask or contains it.
  lemma NotAMaskBeginning(rest: string, u: string)
    requires u != "" && At(MASK + rest, u, 0)
    ensures u[|u| - 1] == '•' || Contains(u, MASK)
  {
    assert forall k :: 0 <= k < |u| ==> u[k] == (MASK + rest)[..|u|][k] == (MASK + rest)[k];
    if |u| >= |MASK| {
      assert u[0..|MASK|] == MASK;
      assert At(u, MASK, 0);
    }
  }

  lemma OccursBehind(front: string, rest: string, v: string, i: nat)
    requires At(front + rest, v, i) && i >= |front|
    ensures At(rest, v, i - |front|)
  {
    assert rest[i - |front|..i - |front| + |v|] == (front + rest)[i..i + |v|];
  }

  lemma NotInTheMask(rest: string, v: string, i: nat)
    requires v != "" && v[0] != '•' && At(MASK + rest, v, i)
    ensures i >= |MASK|
  {
    assert (MASK + rest)[i] == (MASK + rest)[i..i + |v|][0] == v[0];
    assert forall k :: 0 <= k < |MASK| ==> (MASK + rest)[k] == '•';
  }

  // What is clear of the mask and stands in the masked text was in the text; and the masked secret itself is nowhere.
  lemma {:induction false} MaskingAddsNothing(t: string, w: string, v: string, i: nat)
    requires w != "" && ClearOfMask(v) && At(ReplaceAll(t, w, MASK), v, i)
    ensures Contains(t, v) && v != w
    decreases |t|
  {
    if t != "" && At(t, w, 0) {
      var rest := ReplaceAll(t[|w|..], w, MASK);
      NotInTheMask(rest, v, i);
      OccursBehind(MASK, rest, v, i);
      MaskingAddsNothing(t[|w|..], w, v, i - |MASK|);
      ContainsInSuffix(t, v, |w|);
    } else if t != "" && i > 0 {
      OccursBehind([t[0]], ReplaceAll(t[1..], w, MASK), v, i);
      MaskingAddsNothing(t[1..], w, v, i - 1);
      ContainsInSuffix(t, v, 1);
    } else if t != "" {
      BeginningIsOld(t, w, v);
    }
  }

  lemma AbsentStaysAbsent(t: string, w: string, v: string)
    requires ClearOfMask(v) && ((v == w && |w| >= 4) || !Contains(t, v))
    ensures !Contains(Masked(t, w), v)
  {
    if |w| >= 4 && Contains(Masked(t, w), v) {
      var i: nat :| At(Masked(t, w), v, i);
      MaskingAddsNothing(t, w, v, i);
    }
  }

  /**
   After redaction no secret of four characters or more is left, however many secrets there are, in
   whatever order and however they overlap, as long as the secret is clear of the mask.
   */
  lemma {:induction false} SecretsAreGone(text: string, secrets: seq<string>, v: string)
    requires v in secrets && |v| >= 4 && ClearOfMask(v)
    ensures !Contains(Redacted(text, secrets), v)
    decreases |secrets|
  {
    var front := secrets[..|secrets| - 1];
    var last := secrets[|secrets| - 1];
    assert secrets == front + [last];
    if v != last {
      SecretsAreGone(text, front, v);
    }
    AbsentStaysAbsent(Redacted(text, front), last, v);
  }

  lemma OneSecret(text: string, v: string)
    ensures Redacted(text, [v]) == Masked(text, v)
  {
    var one: seq<string> := [v];
    assert one[..0] == [];
  }

  /** Redaction changes nothing else: a text in which none of the secrets of four characters or more stands is left as it is. */
  lemma {:induction false} RedactLeavesTheRest(text: string, secrets: seq<string>)
    requires forall v :: v in secrets && |v| >= 4 ==> !Contains(text, v)
    ensures Redacted(text, secrets) == text
    decreases |secrets|
  {
    if secrets != [] {
      var front, last := secrets[..|secrets| - 1], secrets[|secrets| - 1];
      assert secrets == front + [last];
      RedactLeavesTheRest(text, front);
      if |last| >= 4 {
        NothingToReplace(text, last, MASK);
      }
    }
  }

  lemma {:induction false} NothingToReplace(s: string, p: string, r: string)
    requires p != "" && !Contains(s, p)
    ensures ReplaceAll(s, p, r) == s
    decreases |s|
  {
    if s != "" {
      assert !At(s, p, 0);
      if Contains(s[1..], p) {
        ContainsInSuffix(s, p, 1);
      }
      NothingToReplace(s[1..], p, r);
      assert s == [s[0]] + s[1..];
    }
  }

  ghost predicate AlwaysGone(v: string) {
    forall text: string :: !Contains(Redacted(text, [v]), v)
  }

  ghost predicate IsFirst(s: string, p: string, i: int) {
    At(s, p, i) && forall j :: 0 <= j < i ==> !At(s, p, j)
  }

  // Replacing a text whose first occurrence is at i.
  lemma {:induction false} ReplacedFromFirst(s: string, p: string, r: string, i: nat)
    requires p != "" && IsFirst(s, p, i)
    ensures ReplaceAll(s, p, r) == s[..i] + r + ReplaceAll(s[i + |p|..], p, r)
    decreases |s|
  {
    if i == 0 {
      assert s[..0] + r == r;
    } else {
      FirstOneLater(s, p, i);
      ReplacedFromFirst(s[1..], p, r, i - 1);
      assert s[1..][i - 1 + |p|..] == s[i + |p|..] && [s[0]] + s[1..][..i - 1] == s[..i];
      assert [s[0]] + (s[1..][..i - 1] + r + ReplaceAll(s[i + |p|..], p, r)) == s[..i] + r + ReplaceAll(s[i + |p|..], p, r);
    }
  }

  lemma FirstOneLater(s: string, p: string, i: nat)
    requires i > 0 && IsFirst(s, p, i)
    ensures s != "" && IsFirst(s[1..], p, i - 1)
  {
    AtShift(s, p, i);
    forall j | 0 <= j < i - 1
      ensures !At(s[1..], p, j)
    {
      AtShift(s, p, j + 1);
    }
  }

  lemma {:induction false} TooShortToReplace(s: string, p: string, r: string)
    requires |s| < |p|
    ensures ReplaceAll(s, p, r) == s
    decreases |s|
  {
    if s != "" {
      TooShortToReplace(s[1..], p, r);
    }
  }

  // With its one occurrence at the end of x, the text x + v + y turns into x, a mask and y.
  lemma Remainder(x: string, v: string, y: string)
    requires |v| >= 4 && |y| < |v| && IsFirst(x + v + y, v, |x|)
    ensures Redacted(x + v + y, [v]) == x + MASK + y
  {
    var text := x + v + y;
    OneSecret(text, v);
    ReplacedFromFirst(text, v, MASK, |x|);
    assert text[..|x|] == x && text[|x| + |v|..] == y;
    TooShortToReplace(y, v, MASK);
  }

  lemma OccurrenceEnds(text: string, v: string, i: nat)
    requires v != "" && At(text, v, i)
    ensures text[i] == v[0] && text[i + |v| - 1] == v[|v| - 1]
  {
    assert text[i..i + |v|][0] == text[i] && text[i..i + |v|][|v| - 1] == text[i + |v| - 1];
  }

  // v begins with a mask character: v and then v without it.
  lemma LeaksInFront(v: string)
    requires |v| >= 4 && v[0] == '•'
    ensures !AlwaysGone(v)
  {
    var y := v[1..];
    assert ("" + v + y)[0..|v|] == v;
    Remainder("", v, y);
    var out := "" + MASK + y;
    assert out[2..2 + |v|] == v;
    assert At(out, v, 2);
  }

  // v ends with one: v without it and then v. An earlier occurrence would put v's last character first.
  lemma LeaksBehind(v: string)
    requires |v| >= 4 && v[0] != '•' && v[|v| - 1] == '•'
    ensures !AlwaysGone(v)
  {
    var x := v[..|v| - 1];
    var text := x + v + "";
    assert text[|x|..|x| + |v|] == v;
    assert forall j :: 0 <= j < |x| ==> text[j] == v[j] && text[j + |x|] == v[j];
    forall i | 0 <= i < |x|
      ensures !At(text, v, i)
    {
      if At(text, v, i) {
        OccurrenceEnds(text, v, i);
      }
    }
    Remainder(x, v, "");
    var out := x + MASK + "";
    assert out[0..|v|] == x + "•" == v;
    assert At(out, v, 0);
  }

  // An occurrence of v in front of the marked one puts v's first mask earlier in v.
  lemma MaskMoved(x: string, v: string, y: string, i: nat)
    requires At(v, MASK, |x|) && i < |x| && At(x + v + y, v, i)
    ensures At(v, MASK, i)
  {
    var text := x + v + y;
    assert text[i + |x|..i + |x| + |MASK|] == text[i..i + |v|][|x|..|x| + |MASK|] == MASK;
    assert text[i + |x|..i + |x| + |MASK|] == v[i..i + |MASK|];
  }

  // v has a whole mask inside: what is before the first one, v, and what is behind it.
  lemma LeaksInside(v: string)
    requires |v| >= 4 && v[0] != '•' && Contains(v, MASK)
    ensures !AlwaysGone(v)
  {
    var m: nat :| m <= |v| - |MASK| && At(v, MASK, m);
    var k := FirstAt(v, MASK, m);
    var x, y := v[..k], v[k + |MASK|..];
    var text := x + v + y;
    assert v == x + MASK + y;
    assert text[|x|..|x| + |v|] == v;
    forall i | 0 <= i < |x|
      ensures !At(text, v, i)
    {
      if At(text, v, i) {
        MaskMoved(x, v, y, i);
      }
    }
    Remainder(x, v, y);
    assert At(v, v, 0);
  }

  /**
   A secret is masked in every text exactly when it has four characters or more, no mask character
   at either end and no whole mask inside.
   */
  lemma GoneExactlyWhen(v: string)
    ensures AlwaysGone(v) <==> |v| >= 4 && ClearOfMask(v)
  {
    if |v| < 4 {
      OneSecret(v, v);
      assert At(v, v, 0);
    } else if ClearOfMask(v) {
      forall text: string
        ensures !Contains(Redacted(text, [v]), v)
      {
        SecretsAreGone(text, [v], v);
      }
    } else if v[0] == '•' {
      LeaksInFront(v);
    } else if v[|v| - 1] == '•' {
      LeaksBehind(v);
    } else {
      LeaksInside(v);
    }
  }

  /** One secret that comes back through the mask, and one that does not although it has a mask character in it. */
  lemma MaskCharactersCanLeak()
    ensures !AlwaysGone("abc•") && AlwaysGone("a•bcd")
  {
    GoneExactlyWhen("abc•");
    GoneExactlyWhen("a•bcd");
    forall i | 0 <= i <= 2
      ensures !At("a•bcd", MASK, i)
    {
      if At("a•bcd", MASK, i) {
        OccurrenceEnds("a•bcd", MASK, i);
      }
    }
  }

  // --- replacement and counting ---

  // The text between the occurrences that replacement finds.
  function Pieces(s: string, p: string): seq<string>
    requires p != ""
    decreases |s|
  {
    if s == "" then [""]
    else if At(s, p, 0) then [""] + Pieces(s[|p|..], p)
    else
      var rest := Pieces(s[1..], p);
      if rest == [] then [[s[0]]] else [[s[0]] + rest[0]] + rest[1..]
  }

  function Glued(pieces: seq<string>, p: string): string {
    if pieces == [] then ""
    else if |pieces| == 1 then pieces[0]
    else pieces[0] + p + Glued(pieces[1..], p)
  }

  lemma {:induction false} GluedIsReplaced(s: string, p: string, r: string)
    requires p != ""
    ensures Pieces(s, p) != [] && Glued(Pieces(s, p), r) == ReplaceAll(s, p, r)
    decreases |s|
  {
    if s == "" {
    } else if At(s, p, 0) {
      GluedIsReplaced(s[|p|..], p, r);
      GlueEmpty(Pieces(s[|p|..], p), r);
    } else {
      GluedIsReplaced(s[1..], p, r);
      GlueLonger(s[0], Pieces(s[1..], p), r);
    }
  }

  lemma GlueEmpty(pieces: seq<string>, p: string)
    requires pieces != []
    ensures Glued([""] + pieces, p) == p + Glued(pieces, p)
  {
    assert ([""] + pieces)[1..] == pieces;
    assert "" + p == p;
  }

  lemma {:induction false} ReplacedByItself(s: string, p: string)
    requires p != ""
    ensures ReplaceAll(s, p, p) == s && |Pieces(s, p)| == Count(s, p) + 1
    decreases |s|
  {
    if s == "" {
    } else if At(s, p, 0) {
      ReplacedByItself(s[|p|..], p);
      assert s == p + s[|p|..];
    } else {
      ReplacedByItself(s[1..], p);
      assert s == [s[0]] + s[1..];
    }
  }

  /** Replacing everywhere cuts the text at the counted occurrences and glues it together again with the new text. */
  lemma ReplacementCutsAndGlues(s: string, p: string, r: string)
    requires p != ""
    ensures Glued(Pieces(s, p), p) == s
    ensures Glued(Pieces(s, p), r) == ReplaceAll(s, p, r)
    ensures |Pieces(s, p)| == Count(s, p) + 1
  {
    GluedIsReplaced(s, p, p);
    GluedIsReplaced(s, p, r);
    ReplacedByItself(s, p);
  }

  lemma GlueLonger(c: char, pieces: seq<string>, p: string)
    requires pieces != []
    ensures Glued([[c] + pieces[0]] + pieces[1..], p) == [c] + Glued(pieces, p)
  {
    var longer := [[c] + pieces[0]] + pieces[1..];
    assert longer[1..] == pieces[1..];
    if |pieces| > 1 {
      assert ([c] + pieces[0]) + p + Glued(pieces[1..], p) == [c] + (pieces[0] + p + Glued(pieces[1..], p));
    }
  }

  lemma {:induction false} CountZero(s: string, p: string)
    requires p != ""
    ensures Count(s, p) == 0 <==> !Contains(s, p)
    decreases |s|
  {
    if s != "" {
      if At(s, p, 0) {
        assert Contains(s, p);
      } else {
        CountZero(s[1..], p);
        if Contains(s, p) {
          var i :| 0 <= i <= |s| - |p| && At(s, p, i);
          assert s[1..][i - 1..i - 1 + |p|] == s[i..i + |p|];
          assert At(s[1..], p, i - 1);
        } else if Contains(s[1..], p) {
          ContainsInSuffix(s, p, 1);
        }
      }
    }
  }

  lemma {:induction false} FirstOnly(s: string, p: string, r: string, i: nat)
    requires p != "" && At(s, p, i) && forall j :: 0 <= j < i ==> !At(s, p, j)
    ensures Replace(s, p, r, 1) == s[..i] + r + s[i + |p|..]
    decreases |s|
  {
    if i == 0 {
      assert Replace(s[|p|..], p, r, 0) == s[|p|..];
      assert s[..0] == "";
    } else {
      assert s[1..][i - 1..i - 1 + |p|] == s[i..i + |p|];
      forall j | 0 <= j < i - 1
        ensures !At(s[1..], p, j)
      {
        if At(s[1..], p, j) {
          assert s[1..][j..j + |p|] == s[j + 1..j + 1 + |p|];
          assert At(s, p, j + 1);
        }
      }
      FirstOnly(s[1..], p, r, i - 1);
      assert s[1..][..i - 1] == s[1..i] && s[1..][i - 1 + |p|..] == s[i + |p|..];
      assert [s[0]] + (s[1..i] + r + s[i + |p|..]) == s[..i] + r + s[i + |p|..];
    }
  }

  // --- edit_file ---

  datatype EditError = CannotRead | OldStringRequired | NotFound | Ambiguous(count: nat)

  function Edited(text: string, old_: string, new_: string, all: bool): Result<(string, nat), EditError> {
    if old_ == "" then Failure(OldStringRequired)
    else if Count(text, old_) == 0 then Failure(NotFound)
    else if Count(text, old_) > 1 && !all then Failure(Ambiguous(Count(text, old_)))
    else if all then Success((ReplaceAll(text, old_, new_), Count(text, old_)))
    else Success((Replace(text, old_, new_, 1), 1))
  }

  class Sandbox {
    var files: map<string, seq<Byte>>

    constructor ()
      ensures files == map[]
    {
      files := map[];
    }

    method EditFile(path: string, old_: string, new_: string, all: bool) returns (res: Result<nat, EditError>)
      modifies this
      ensures path !in old(files) ==> res == Failure(CannotRead) && files == old(files)
      ensures path in old(files) ==>
                match Edited(Mended(old(files)[path]), old_, new_, all)
                case Failure(e) => res == Failure(e) && files == old(files)
                case Success(done) => res == Success(done.1) && files == old(files)[path := Encoded(done.0)]
    {
      if path !in files {
        return Failure(CannotRead);
      }
      var text := Mended(files[path]);
      if old_ == "" {
        return Failure(OldStringRequired);
      }
      var count := Count(text, old_);
      if count == 0 {
        return Failure(NotFound);
      }
      if count > 1 && !all {
        return Failure(Ambiguous(count));
      }
      var updated := if all then ReplaceAll(text, old_, new_) else Replace(text, old_, new_, 1);
      files := files[path := Encoded(updated)];
      return Success(if all then count else 1);
    }
  }

  // Exactly one place where the snippet stands, overlapping ones counted.
  ghost predicate OneOccurrence(s: string, p: string) {
    exists i :: At(s, p, i) && forall j :: At(s, p, j) ==> j == i
  }

  // A proper beginning that is also an end: such a snippet can overlap itself.
  ghost predicate Bordered(p: string) {
    exists k :: 0 < k < |p| && p[..k] == p[|p| - k..]
  }

  lemma OverlapIsBorder(s: string, p: string, i: int)
    requires At(s, p, 0) && At(s, p, i) && 0 < i < |p|
    ensures Bordered(p)
  {
    var k := |p| - i;
    assert p[..k] == s[i..i + |p|][..k] == s[i..|p|];
    assert p[|p| - k..] == s[..|p|][i..] == s[i..|p|];
  }

  lemma {:induction false} CountOne(s: string, p: string)
    requires p != "" && !Bordered(p)
    ensures Count(s, p) == 1 <==> OneOccurrence(s, p)
    decreases |s|
  {
    if s != "" {
      if At(s, p, 0) {
        CountZero(s[|p|..], p);
        FirstIsOnly(s, p);
      } else {
        CountOne(s[1..], p);
        OneShifted(s, p);
      }
    }
  }

  lemma FirstIsOnly(s: string, p: string)
    requires p != "" && !Bordered(p) && At(s, p, 0)
    ensures OneOccurrence(s, p) <==> !Contains(s[|p|..], p)
  {
    var tail := s[|p|..];
    if Contains(tail, p) {
      var i :| 0 <= i <= |tail| - |p| && At(tail, p, i);
      assert tail[i..i + |p|] == s[i + |p|..i + |p| + |p|];
      assert At(s, p, i + |p|);
    } else {
      forall j | At(s, p, j)
        ensures j == 0
      {
        if 0 < j < |p| {
          OverlapIsBorder(s, p, j);
        } else if j >= |p| {
          assert tail[j - |p|..j - |p| + |p|] == s[j..j + |p|];
          assert At(tail, p, j - |p|);
        }
      }
    }
  }

  lemma AtShift(s: string, p: string, i: int)
    requires s != "" && i >= 1
    ensures At(s, p, i) <==> At(s[1..], p, i - 1)
  {
    if i + |p| <= |s| {
      assert s[1..][i - 1..i - 1 + |p|] == s[i..i + |p|];
    }
  }

  lemma OneShifted(s: string, p: string)
    requires s != "" && !At(s, p, 0)
    ensures OneOccurrence(s, p) <==> OneOccurrence(s[1..], p)
  {
    forall i | i >= 1
      ensures At(s, p, i) <==> At(s[1..], p, i - 1)
    {
      AtShift(s, p, i);
    }
    if OneOccurrence(s, p) {
      var i :| At(s, p, i) && forall j :: At(s, p, j) ==> j == i;
      forall j | At(s[1..], p, j)
        ensures j == i - 1
      {
        AtShift(s, p, j + 1);
      }
    }
    if OneOccurrence(s[1..], p) {
      var i :| At(s[1..], p, i) && forall j :: At(s[1..], p, j) ==> j == i;
      AtShift(s, p, i + 1);
      forall j | At(s, p, j)
        ensures j == i + 1
      {
        AtShift(s, p, j);
      }
    }
  }

  // What the tool's description promises: without `all`, the snippet stands in exactly one place.
  ghost predicate KeepsItsPromise(old_: string) {
    forall text: string, new_: string :: Edited(text, old_, new_, false).Success? ==> OneOccurrence(text, old_)
  }

  lemma SingleEditCounts(text: string, old_: string, new_: string)
    requires old_ != ""
    ensures Edited(text, old_, new_, false).Success? <==> Count(text, old_) == 1
  {
  }

  lemma UnborderedKeepsPromise(old_: string)
    requires old_ != "" && !Bordered(old_)
    ensures KeepsItsPromise(old_)
  {
    forall text: string, new_: string | Edited(text, old_, new_, false).Success?
      ensures OneOccurrence(text, old_)
    {
      SingleEditCounts(text, old_, new_);
      CountOne(text, old_);
    }
  }

  lemma BorderedBreaksPromise(old_: string, k: nat)
    requires 0 < k < |old_| && old_[..k] == old_[|old_| - k..]
    ensures !KeepsItsPromise(old_)
  {
    var text := OverlappingPair(old_, k);
    SingleEditCounts(text, old_, "");
  }

  /**
   The promise that a snippet stands exactly once is kept for every file exactly when the snippet
   cannot overlap itself, because occurrences are counted without overlaps.
   */
  lemma ExactlyOnceHoldsWhen(old_: string)
    requires old_ != ""
    ensures KeepsItsPromise(old_) <==> !Bordered(old_)
  {
    if Bordered(old_) {
      var k :| 0 < k < |old_| && old_[..k] == old_[|old_| - k..];
      BorderedBreaksPromise(old_, k);
    } else {
      UnborderedKeepsPromise(old_);
    }
  }

  lemma OverlappingPair(p: string, k: nat) returns (text: string)
    requires 0 < k < |p| && p[..k] == p[|p| - k..]
    ensures Count(text, p) == 1 && !OneOccurrence(text, p)
  {
    text := p + p[k..];
    assert text[..|p|] == p && text[|p|..] == p[k..];
    CountZero(p[k..], p);
    assert Count(text, p) == 1;
    SecondPlace(p, k);
  }

  lemma SecondPlace(p: string, k: nat)
    requires 0 < k < |p| && p[..k] == p[|p| - k..]
    ensures At(p + p[k..], p, 0) && At(p + p[k..], p, |p| - k)
  {
    var text := p + p[k..];
    assert text[..|p|] == p;
    assert text[|p| - k..|p| - k + |p|] == p[|p| - k..] + p[k..];
    assert p == p[..k] + p[k..];
  }

  /** A successful edit of one place replaces the first occurrence and leaves the rest of the file alone. */
  lemma EditChangesOnePlace(text: string, old_: string, new_: string)
    requires Edited(text, old_, new_, false).Success?
    ensures exists i :: IsFirst(text, old_, i) && Edited(text, old_, new_, false).value.0 == text[..i] + new_ + text[i + |old_|..]
  {
    CountZero(text, old_);
    var k: nat :| k <= |text| - |old_| && At(text, old_, k);
    var i := FirstAt(text, old_, k);
    FirstOnly(text, old_, new_, i);
  }

  lemma {:induction false} EncodedJoins(a: string, b: string)
    ensures Encoded(a + b) == Encoded(a) + Encoded(b)
    decreases |a|
  {
    if a == "" {
      assert a + b == b;
    } else {
      EncodedJoins(a[1..], b);
      assert (a + b)[1..] == a[1..] + b;
    }
  }

  lemma EncodedThree(a: string, b: string, c: string)
    ensures Encoded(a + b + c) == Encoded(a) + Encoded(b) + Encoded(c)
  {
    EncodedJoins(a, b);
    EncodedJoins(a + b, c);
  }

  /**
   What a single edit writes is the bytes of the text before the snippet, of the new text, and of the
   text behind it; and all bytes outside the snippet are as they were exactly when the file could be
   decoded. Otherwise the edit also replaces what could not.
   */
  lemma EditKeepsOtherBytesIff(data: seq<Byte>, old_: string, new_: string) returns (x: string, y: string)
    requires Edited(Mended(data), old_, new_, false).Success?
    ensures Encoded(Edited(Mended(data), old_, new_, false).value.0) == Encoded(x) + Encoded(new_) + Encoded(y)
    ensures Mended(data) == x + old_ + y && IsFirst(Mended(data), old_, |x|)
    ensures data == Encoded(x) + Encoded(old_) + Encoded(y) <==> Decoded(data).Some?
  {
    var text := Mended(data);
    EditChangesOnePlace(text, old_, new_);
    var i :| IsFirst(text, old_, i) && Edited(text, old_, new_, false).value.0 == text[..i] + new_ + text[i + |old_|..];
    x, y := text[..i], text[i + |old_|..];
    assert text == x + old_ + y;
    EncodedThree(x, old_, y);
    EncodedThree(x, new_, y);
    MendingIsHarmlessIff(data);
  }

  lemma {:induction false} FirstAt(s: string, p: string, k: nat) returns (i: nat)
    requires At(s, p, k)
    ensures At(s, p, i) && forall j :: 0 <= j < i ==> !At(s, p, j)
    decreases k
  {
    if j: nat :| j < k && At(s, p, j) {
      i := FirstAt(s, p, j);
    } else {
      i := k;
    }
  }

  /**
   An edit of all places cuts the file at every counted occurrence and joins the pieces with the new
   text; it fails exactly when there is no snippet or none stands in the file, and reports their number.
   */
  lemma EditAllReplacesEveryPlace(text: string, old_: string, new_: string)
    ensures Edited(text, old_, new_, true).Success? <==> old_ != "" && Contains(text, old_)
    ensures Edited(text, old_, new_, true).Success? ==>
      Edited(text, old_, new_, true).value == (Glued(Pieces(text, old_), new_), |Pieces(text, old_)| - 1)
  {
    if old_ != "" {
      CountZero(text, old_);
      ReplacementCutsAndGlues(text, old_, new_);
    }
  }

  /** A refused edit says why: nothing to look for, nowhere to be found, or how many places there are. */
  lemma EditErrorsTellWhy(text: string, old_: string, new_: string, all: bool)
    ensures Edited(text, old_, new_, all) == Failure(OldStringRequired) <==> old_ == ""
    ensures Edited(text, old_, new_, all) == Failure(NotFound) <==> old_ != "" && !Contains(text, old_)
    ensures forall n :: Edited(text, old_, new_, all) == Failure(Ambiguous(n)) <==> old_ != "" && !all && n == |Pieces(text, old_)| - 1 && n > 1
  {
    if old_ != "" {
      CountZero(text, old_);
      ReplacementCutsAndGlues(text, old_, new_);
    }
  }

  // --- the budgeted project context ---

  datatype ContextFile = ContextFile(filename: string, extracted: Option<string>)
  datatype Part = Part(filename: string, chunk: string)

  function TextOf(f: ContextFile): string {
    Stripped(f.extracted.GetOr(""))
  }

  // The stripped texts, oldest first.
  function Texts(files: seq<ContextFile>): (texts: seq<string>)
    ensures |texts| == |files| && forall i :: 0 <= i < |files| ==> texts[i] == TextOf(files[i])
  {
    seq(|files|, i requires 0 <= i < |files| => TextOf(files[i]))
  }

  function Concat(texts: seq<string>): string {
    if texts == [] then "" else Concat(texts[..|texts| - 1]) + texts[|texts| - 1]
  }

  function Chunks(parts: seq<Part>): string {
    if parts == [] then "" else Chunks(parts[..|parts| - 1]) + parts[|parts| - 1].chunk
  }

  function Rendered(parts: seq<Part>): string {
    if parts == [] then ""
    else
      var last := "## " + parts[|parts| - 1].filename + "\n" + parts[|parts| - 1].chunk;
      if |parts| == 1 then last else Rendered(parts[..|parts| - 1]) + "\n\n" + last
  }

  lemma ChunksPush(parts: seq<Part>, part: Part)
    ensures Chunks(parts + [part]) == Chunks(parts) + part.chunk
  {
    assert (parts + [part])[..|parts|] == parts;
  }

  // Text i of the list stands behind all the ones before it.
  lemma {:induction false} PartIsRendered(parts: seq<Part>, k: nat)
    requires k < |parts|
    ensures Contains(Rendered(parts), "## " + parts[k].filename + "\n" + parts[k].chunk)
    decreases |parts|
  {
    var front, last := parts[..|parts| - 1], parts[|parts| - 1];
    var own := "## " + last.filename + "\n" + last.chunk;
    if k < |front| {
      PartIsRendered(front, k);
      StillStands(Rendered(front), "\n\n" + own, "## " + parts[k].filename + "\n" + parts[k].chunk);
      assert Rendered(front) + ("\n\n" + own) == Rendered(front) + "\n\n" + own;
    } else {
      var before := if |parts| == 1 then "" else Rendered(front) + "\n\n";
      assert Rendered(parts) == before + own;
      StandsAtEnd(before, own);
    }
  }

  lemma StillStands(front: string, behind: string, p: string)
    requires Contains(front, p)
    ensures Contains(front + behind, p)
  {
    var i :| 0 <= i <= |front| - |p| && At(front, p, i);
    assert (front + behind)[i..i + |p|] == front[i..i + |p|];
    assert At(front + behind, p, i);
  }

  lemma StandsAtEnd(front: string, p: string)
    ensures Contains(front + p, p)
  {
    assert (front + p)[|front|..|front| + |p|] == p;
    assert At(front + p, p, |front|);
  }

  // One more piece within a budget: the prefix of the longer text.
  lemma PrefixGrows(before: string, text: string, budget: int)
    ensures Prefix(before + text, budget) == Prefix(before, budget) + Prefix(text, budget - |Prefix(before, budget)|)
  {
  }

  lemma OneMoreText(texts: seq<string>, i: nat, budget: int)
    requires i < |texts|
    ensures var had := Prefix(Concat(texts[..i]), budget);
      Prefix(Concat(texts[..i + 1]), budget) == had + Prefix(texts[i], budget - |had|)
  {
    assert texts[..i + 1][..i] == texts[..i];
    PrefixGrows(Concat(texts[..i]), texts[i], budget);
  }

  lemma {:induction false} PrefixStops(texts: seq<string>, i: nat, budget: int)
    requires i <= |texts| && budget <= |Prefix(Concat(texts[..i]), budget)|
    ensures Prefix(Concat(texts), budget) == Prefix(Concat(texts[..i]), budget)
    decreases |texts| - i
  {
    if i == |texts| {
      assert texts[..i] == texts;
    } else {
      OneMoreText(texts, i, budget);
      PrefixStops(texts, i + 1, budget);
    }
  }

  /**
   The chunks of the context block, put together, are exactly the first 4·budget characters of all
   texts, oldest first; no chunk is empty, and each stands in the block under the name of the file it
   is the beginning of. `from` tells which files those are.
   */
  method ContextBlock(files: seq<ContextFile>, tokenBudget: int) returns (block: string, parts: seq<Part>, ghost from: seq<nat>)
    ensures Chunks(parts) == Prefix(Concat(Texts(files)), 4 * tokenBudget)
    ensures forall k :: 0 <= k < |parts| ==> parts[k].chunk != ""
    ensures TakenFrom(files, Texts(files), parts, from)
    ensures block == Rendered(parts)
    ensures forall k :: 0 <= k < |parts| ==> Contains(block, "## " + files[from[k]].filename + "\n" + parts[k].chunk)
  {
    parts, from := TakeChunks(files, Texts(files), tokenBudget * 4);
    block := Rendered(parts);
    forall k | 0 <= k < |parts|
      ensures Contains(block, "## " + files[from[k]].filename + "\n" + parts[k].chunk)
    {
      PartIsRendered(parts, k);
    }
  }

  // The parts name their files, in the order of the list, and all but the last are whole.
  ghost predicate TakenFrom(files: seq<ContextFile>, texts: seq<string>, parts: seq<Part>, from: seq<nat>) {
    && |from| == |parts| && |texts| == |files|
    && (forall j, k :: 0 <= j < k < |from| ==> from[j] < from[k])
    && (forall k :: 0 <= k < |parts| ==>
          from[k] < |files| && parts[k].filename == files[from[k]].filename && parts[k].chunk <= texts[from[k]])
    && (forall k :: 0 <= k < |parts| - 1 ==> parts[k].chunk == texts[from[k]])
  }

  // So far from files before i; `whole` if the last part is one too.
  ghost predicate TakenBefore(files: seq<ContextFile>, texts: seq<string>, parts: seq<Part>, from: seq<nat>, i: nat, whole: bool) {
    && TakenFrom(files, texts, parts, from) && (forall k :: 0 <= k < |from| ==> from[k] < i)
    && (whole && |parts| > 0 ==> parts[|parts| - 1].chunk == texts[from[|parts| - 1]])
  }

  lemma OneMoreTaken(files: seq<ContextFile>, texts: seq<string>, parts: seq<Part>, from: seq<nat>, i: nat, chunk: string)
    requires TakenBefore(files, texts, parts, from, i, true) && i < |files| && chunk <= texts[i]
    ensures TakenBefore(files, texts, parts + [Part(files[i].filename, chunk)], from + [i], i + 1, chunk == texts[i])
  {
  }

  // What the loop has after the first i files.
  ghost predicate Midway(files: seq<ContextFile>, texts: seq<string>, budget: int, parts: seq<Part>, from: seq<nat>, i: nat, used: int) {
    && i <= |texts| && used == |Chunks(parts)|
    && Chunks(parts) == Prefix(Concat(texts[..i]), budget)
    && (forall k :: 0 <= k < |parts| ==> parts[k].chunk != "")
    && TakenBefore(files, texts, parts, from, i, used < budget)
  }

  lemma PrefixOf(s: string, n: int)
    ensures Prefix(s, n) <= s && |Prefix(s, n)| <= |s| && (|Prefix(s, n)| < n ==> Prefix(s, n) == s)
    ensures n > 0 && s != "" ==> Prefix(s, n) != ""
  {
  }

  lemma EmptySkipped(files: seq<ContextFile>, texts: seq<string>, budget: int, parts: seq<Part>, from: seq<nat>, i: nat, used: int)
    requires Midway(files, texts, budget, parts, from, i, used) && i < |texts| && texts[i] == ""
    ensures Midway(files, texts, budget, parts, from, i + 1, used)
  {
    OneMoreText(texts, i, budget);
    assert Chunks(parts) + "" == Chunks(parts);
  }

  lemma ChunkTaken(files: seq<ContextFile>, texts: seq<string>, budget: int, parts: seq<Part>, from: seq<nat>, i: nat, used: int)
    requires Midway(files, texts, budget, parts, from, i, used) && i < |texts| && texts[i] != "" && used < budget
    ensures var chunk := Prefix(texts[i], budget - used);
      Midway(files, texts, budget, parts + [Part(files[i].filename, chunk)], from + [i], i + 1, used + |chunk|)
  {
    var chunk := Prefix(texts[i], budget - used);
    OneMoreText(texts, i, budget);
    ChunksPush(parts, Part(files[i].filename, chunk));
    PrefixOf(texts[i], budget - used);
    OneMoreTaken(files, texts, parts, from, i, chunk);
  }

  lemma TakingEnds(files: seq<ContextFile>, texts: seq<string>, budget: int, parts: seq<Part>, from: seq<nat>, i: nat, used: int)
    requires Midway(files, texts, budget, parts, from, i, used) && (used >= budget || i == |texts|)
    ensures TakenFrom(files, texts, parts, from) && Chunks(parts) == Prefix(Concat(texts), budget)
    ensures forall k :: 0 <= k < |parts| ==> parts[k].chunk != ""
  {
    if i == |texts| {
      assert texts[..i] == texts;
    } else {
      PrefixStops(texts, i, budget);
    }
  }

  // The loop over the files, given their stripped texts.
  method TakeChunks(files: seq<ContextFile>, texts: seq<string>, budget: int) returns (parts: seq<Part>, ghost from: seq<nat>)
    requires |files| == |texts|
    ensures TakenFrom(files, texts, parts, from)
    ensures Chunks(parts) == Prefix(Concat(texts), budget)
    ensures forall k :: 0 <= k < |parts| ==> parts[k].chunk != ""
  {
    var used := 0;
    parts, from := [], [];
    var i := 0;
    while i < |texts|
      invariant Midway(files, texts, budget, parts, from, i, used)
    {
      if texts[i] != "" {
        var remaining := budget - used;
        if remaining <= 0 {
          TakingEnds(files, texts, budget, parts, from, i, used);
          return;
        }
        var chunk := Prefix(texts[i], remaining);
        ChunkTaken(files, texts, budget, parts, from, i, used);
        parts, from := parts + [Part(files[i].filename, chunk)], from + [i];
        used := used + |chunk|;
      } else {
        EmptySkipped(files, texts, budget, parts, from, i, used);
      }
      i := i + 1;
    }
    TakingEnds(files, texts, budget, parts, from, i, used);
  }
}
