/** The string operations of the host language that the text code relies on: strip, replace, count, split off a prefix. */
module Strings {
  // The characters that `str.strip` removes.
  predicate IsSpace(c: char) {
    || '\t' <= c <= '\r' || '\U{1C}' <= c <= ' ' || c == '\U{85}' || c == '\U{A0}' || c == '\U{1680}'
    || '\U{2000}' <= c <= '\U{200A}' || c == '\U{2028}' || c == '\U{2029}' || c == '\U{202F}' || c == '\U{205F}' || c == '\U{3000}'
  }

  predicate IsBlank(s: string) {
    forall i :: 0 <= i < |s| ==> IsSpace(s[i])
  }

  function TrimmedLeft(s: string): (t: string)
    ensures t == "" || !IsSpace(t[0])
    ensures |t| <= |s| && t == s[|s| - |t|..]
  {
    if s != "" && IsSpace(s[0]) then TrimmedLeft(s[1..]) else s
  }

  function TrimmedRight(s: string): (t: string)
    ensures t == "" || !IsSpace(t[|t| - 1])
    ensures |t| <= |s| && t == s[..|t|]
  {
    if s != "" && IsSpace(s[|s| - 1]) then TrimmedRight(s[..|s| - 1]) else s
  }

  function Stripped(s: string): string {
    TrimmedRight(TrimmedLeft(s))
  }

  lemma {:induction false} LeftIsSpace(s: string, i: nat)
    requires i < |s| - |TrimmedLeft(s)|
    ensures IsSpace(s[i])
    decreases i
  {
    if i > 0 {
      LeftIsSpace(s[1..], i - 1);
    }
  }

  lemma {:induction false} RightIsSpace(s: string, i: nat)
    requires |TrimmedRight(s)| <= i < |s|
    ensures IsSpace(s[i])
    decreases |s|
  {
    if i < |s| - 1 {
      RightIsSpace(s[..|s| - 1], i);
    }
  }

  /** Stripping takes space away from both ends, all of it, and nothing else. */
  lemma StrippedIsTheMiddle(s: string) returns (lo: nat)
    ensures lo + |Stripped(s)| <= |s| && Stripped(s) == s[lo..lo + |Stripped(s)|]
    ensures forall i :: 0 <= i < lo || lo + |Stripped(s)| <= i < |s| ==> IsSpace(s[i])
    ensures Stripped(s) != "" ==> !IsSpace(Stripped(s)[0]) && !IsSpace(Stripped(s)[|Stripped(s)| - 1])
  {
    var left := TrimmedLeft(s);
    lo := |s| - |left|;
    assert left == s[lo..];
    forall i | 0 <= i < lo || lo + |Stripped(s)| <= i < |s|
      ensures IsSpace(s[i])
    {
      if i < lo {
        LeftIsSpace(s, i);
      } else {
        RightIsSpace(left, i - lo);
      }
    }
  }

  function Prefix(s: string, n: int): string {
    if n <= 0 then "" else if n >= |s| then s else s[..n]
  }

  predicate EndsWith(s: string, end: string) {
    |end| <= |s| && s[|s| - |end|..] == end
  }

  // --- occurrences, replacement and counting ---

  predicate At(s: string, p: string, i: int) {
    0 <= i <= |s| - |p| && s[i..i + |p|] == p
  }

  predicate Contains(s: string, p: string) {
    exists i | 0 <= i <= |s| - |p| :: At(s, p, i)
  }

  // Leftmost occurrences first, going on behind each one; at most `limit` of them unless it is negative.
  function Replace(s: string, p: string, r: string, limit: int): string
    requires p != ""
    decreases |s|
  {
    if s == "" || limit == 0 then s
    else if At(s, p, 0) then r + Replace(s[|p|..], p, r, if limit > 0 then limit - 1 else limit)
    else [s[0]] + Replace(s[1..], p, r, limit)
  }

  function ReplaceAll(s: string, p: string, r: string): string
    requires p != ""
  {
    Replace(s, p, r, -1)
  }

  // How many occurrences that replacement finds; overlapping ones are not counted.
  function Count(s: string, p: string): nat
    requires p != ""
    decreases |s|
  {
    if s == "" then 0
    else if At(s, p, 0) then 1 + Count(s[|p|..], p)
    else Count(s[1..], p)
  }
}
