/**
 UTF-8: encoding, and decoding as the host language does it, strictly or with every undecodable part
 replaced. The decoder is written from the table of well-formed byte sequences (section 3.9 of the
 Unicode Standard), not from the encoder.
 */
module Utf8 {
  import opened Common

  type Byte = b: int | 0 <= b < 256

  function EncodedChar(c: char): (bytes: seq<Byte>)
    ensures 1 <= |bytes| <= 4
  {
    var n := c as int;
    if n < 0x80 then [n]
    else if n < 0x800 then [0xC0 + n / 64, 0x80 + n % 64]
    else if n < 0x10000 then [0xE0 + n / 4096, 0x80 + n / 64 % 64, 0x80 + n % 64]
    else [0xF0 + n / 262144, 0x80 + n / 4096 % 64, 0x80 + n / 64 % 64, 0x80 + n % 64]
  }

  function Encoded(s: string): seq<Byte> {
    if s == "" then [] else EncodedChar(s[0]) + Encoded(s[1..])
  }

  // --- decoding ---

  // How many bytes a lead byte announces; 0 for a byte that leads nothing.
  function Announced(lead: Byte): nat {
    if lead <= 0x7F then 1
    else if 0xC2 <= lead <= 0xDF then 2
    else if 0xE0 <= lead <= 0xEF then 3
    else if 0xF0 <= lead <= 0xF4 then 4
    else 0
  }

  // The byte behind the lead is restricted where longer forms than needed, surrogates or numbers
  // beyond the last code point would begin.
  predicate SecondFits(lead: Byte, b: Byte) {
    if lead == 0xE0 then 0xA0 <= b <= 0xBF
    else if lead == 0xED then 0x80 <= b <= 0x9F
    else if lead == 0xF0 then 0x90 <= b <= 0xBF
    else if lead == 0xF4 then 0x80 <= b <= 0x8F
    else 0x80 <= b <= 0xBF
  }

  predicate Trails(b: Byte) {
    0x80 <= b <= 0xBF
  }

  // How many bytes at the front fit together, up to a whole sequence; at least one.
  function Fitting(bytes: seq<Byte>): (n: nat)
    requires bytes != []
    ensures 1 <= n <= |bytes| && n <= 4
  {
    var want := Announced(bytes[0]);
    if want <= 1 || |bytes| == 1 || !SecondFits(bytes[0], bytes[1]) then 1
    else if want == 2 || |bytes| == 2 || !Trails(bytes[2]) then 2
    else if want == 3 || |bytes| == 3 || !Trails(bytes[3]) then 3
    else 4
  }

  predicate Whole(bytes: seq<Byte>)
    requires bytes != []
  {
    Fitting(bytes) == Announced(bytes[0])
  }

  function CodePoint(bytes: seq<Byte>): (n: int)
    requires bytes != [] && Whole(bytes)
    ensures 0 <= n < 0xD800 || 0xE000 <= n < 0x11_0000
  {
    var lead: int := bytes[0];
    if Fitting(bytes) == 1 then lead
    else
      var second := bytes[1] as int - 0x80;
      if Fitting(bytes) == 2 then (lead - 0xC0) * 64 + second
      else
        var third := bytes[2] as int - 0x80;
        if Fitting(bytes) == 3 then (lead - 0xE0) * 4096 + second * 64 + third
        else (lead - 0xF0) * 262144 + second * 4096 + third * 64 + (bytes[3] as int - 0x80)
  }

  // The text, or nothing if some part cannot be decoded.
  function Decoded(bytes: seq<Byte>): Option<string> {
    if bytes == [] then Some("")
    else if !Whole(bytes) then None
    else
      var rest := Decoded(bytes[Fitting(bytes)..]);
      if rest.None? then None else Some([CodePoint(bytes) as char] + rest.value)
  }

  const REPLACEMENT := '\U{FFFD}'

  function FirstChar(bytes: seq<Byte>): char
    requires bytes != []
  {
    if Whole(bytes) then CodePoint(bytes) as char else REPLACEMENT
  }

  // Every part that fits together but is not whole becomes one replacement character.
  function Mended(bytes: seq<Byte>): string {
    if bytes == [] then ""
    else [FirstChar(bytes)] + Mended(bytes[Fitting(bytes)..])
  }

  // --- decoding undoes encoding, and nothing else decodes ---

  // Digits in base 64.
  lemma TwoDigits(n: int, a: int, b: int)
    requires 0 <= b < 64
    ensures n == a * 64 + b <==> n / 64 == a && n % 64 == b
  {
  }

  lemma ThreeDigits(n: int, a: int, b: int, c: int)
    requires 0 <= b < 64 && 0 <= c < 64
    ensures n == a * 4096 + b * 64 + c <==> n / 4096 == a && n / 64 % 64 == b && n % 64 == c
  {
    TwoDigits(n, a * 64 + b, c);
    TwoDigits(n / 64, a, b);
    assert n / 64 / 64 == n / 4096;
  }

  lemma FourDigits(n: int, a: int, b: int, c: int, d: int)
    requires 0 <= b < 64 && 0 <= c < 64 && 0 <= d < 64
    ensures n == a * 262144 + b * 4096 + c * 64 + d <==> n / 262144 == a && n / 4096 % 64 == b && n / 64 % 64 == c && n % 64 == d
  {
    TwoDigits(n, a * 4096 + b * 64 + c, d);
    ThreeDigits(n / 64, a, b, c);
    assert n / 64 / 4096 == n / 262144 && n / 64 / 64 == n / 4096;
  }

  lemma EncodedCharIsWhole(c: char, rest: seq<Byte>)
    ensures var bytes := EncodedChar(c) + rest;
      Whole(bytes) && Fitting(bytes) == |EncodedChar(c)| && CodePoint(bytes) == c as int
  {
    var n := c as int;
    if n < 0x80 {
    } else if n < 0x800 {
      TwoDigits(n, n / 64, n % 64);
    } else if n < 0x10000 {
      ThreeDigits(n, n / 4096, n / 64 % 64, n % 64);
    } else {
      FourDigits(n, n / 262144, n / 4096 % 64, n / 64 % 64, n % 64);
    }
  }

  lemma WholeIsEncoded(bytes: seq<Byte>)
    requires bytes != [] && Whole(bytes)
    ensures EncodedChar(CodePoint(bytes) as char) == bytes[..Fitting(bytes)]
  {
    var n := CodePoint(bytes);
    if Fitting(bytes) == 2 {
      TwoDigits(n, bytes[0] as int - 0xC0, bytes[1] as int - 0x80);
    } else if Fitting(bytes) == 3 {
      ThreeDigits(n, bytes[0] as int - 0xE0, bytes[1] as int - 0x80, bytes[2] as int - 0x80);
    } else if Fitting(bytes) == 4 {
      FourDigits(n, bytes[0] as int - 0xF0, bytes[1] as int - 0x80, bytes[2] as int - 0x80, bytes[3] as int - 0x80);
    }
  }

  lemma {:induction false} DecodedOfEncoded(s: string)
    ensures Decoded(Encoded(s)) == Some(s)
    decreases |s|
  {
    if s != "" {
      EncodedCharIsWhole(s[0], Encoded(s[1..]));
      DecodedOfEncoded(s[1..]);
      DecodedInFront(EncodedChar(s[0]), Encoded(s[1..]), s[0], s[1..]);
      assert s == [s[0]] + s[1..];
    }
  }

  lemma DecodedInFront(head: seq<Byte>, rest: seq<Byte>, c: char, text: string)
    requires head != [] && Whole(head + rest) && Fitting(head + rest) == |head| && CodePoint(head + rest) == c as int
    requires Decoded(rest) == Some(text)
    ensures Decoded(head + rest) == Some([c] + text)
  {
    assert (head + rest)[|head|..] == rest;
  }

  lemma {:induction false} EncodedOfDecoded(bytes: seq<Byte>)
    requires Decoded(bytes).Some?
    ensures Encoded(Decoded(bytes).value) == bytes && Mended(bytes) == Decoded(bytes).value
    decreases |bytes|
  {
    if bytes != [] {
      var c, head, rest := SplitFront(bytes);
      EncodedOfDecoded(rest);
    }
  }

  // The first character of decodable bytes, its bytes, and the others.
  lemma SplitFront(bytes: seq<Byte>) returns (c: char, head: seq<Byte>, rest: seq<Byte>)
    requires bytes != [] && Decoded(bytes).Some?
    ensures bytes == head + rest && |rest| < |bytes| && Decoded(rest).Some?
    ensures Decoded(bytes).value == [c] + Decoded(rest).value && Mended(bytes) == [c] + Mended(rest)
    ensures Encoded([c] + Decoded(rest).value) == head + Encoded(Decoded(rest).value)
  {
    var n := Fitting(bytes);
    c, head, rest := CodePoint(bytes) as char, bytes[..n], bytes[n..];
    WholeIsEncoded(bytes);
    EncodedInFront(c, Decoded(rest).value);
  }

  lemma EncodedInFront(c: char, text: string)
    ensures Encoded([c] + text) == EncodedChar(c) + Encoded(text)
  {
    assert ([c] + text)[1..] == text;
  }

  /** The decoder is the exact inverse of the encoder: each text has one encoding, and nothing else decodes. */
  lemma DecodingInvertsEncoding(bytes: seq<Byte>, s: string)
    ensures Decoded(bytes) == Some(s) <==> bytes == Encoded(s)
  {
    DecodedOfEncoded(s);
    if Decoded(bytes) == Some(s) {
      EncodedOfDecoded(bytes);
    }
  }

  /** Decoding with replacement and encoding again gives the bytes back exactly when they could be decoded as they were. */
  lemma MendingIsHarmlessIff(bytes: seq<Byte>)
    ensures Encoded(Mended(bytes)) == bytes <==> Decoded(bytes).Some?
  {
    DecodedOfEncoded(Mended(bytes));
    if Decoded(bytes).Some? {
      EncodedOfDecoded(bytes);
    }
  }

  // --- what replacing leaves alone ---

  lemma Regrouped<T>(a: seq<T>, b: seq<T>, c: seq<T>)
    ensures (a + b) + c == a + (b + c)
  {
  }

  lemma {:induction false} MendedBehind(text: string, bytes: seq<Byte>)
    ensures Mended(Encoded(text) + bytes) == text + Mended(bytes)
    decreases |text|
  {
    if text == "" {
      assert Encoded(text) + bytes == bytes;
    } else {
      MendedBehind(text[1..], bytes);
      Regrouped(EncodedChar(text[0]), Encoded(text[1..]), bytes);
      MendedInFront(text[0], Encoded(text[1..]) + bytes);
      Regrouped([text[0]], text[1..], Mended(bytes));
      assert text == [text[0]] + text[1..];
    }
  }

  lemma MendedInFront(c: char, rest: seq<Byte>)
    ensures Mended(EncodedChar(c) + rest) == [c] + Mended(rest)
  {
    EncodedCharIsWhole(c, rest);
    assert (EncodedChar(c) + rest)[|EncodedChar(c)|..] == rest;
  }

  // Nothing fits together across the beginning of an encoded text.
  lemma FitsBefore(bytes: seq<Byte>, behind: seq<Byte>)
    requires bytes != [] && (behind != [] ==> !Trails(behind[0]))
    ensures Fitting(bytes + behind) == Fitting(bytes) && FirstChar(bytes + behind) == FirstChar(bytes)
  {
    var all := bytes + behind;
    assert forall k :: 0 <= k < |bytes| ==> all[k] == bytes[k];
    assert |bytes| < |all| ==> all[|bytes|] == behind[0];
  }

  lemma LeadsNotTrails(text: string)
    ensures Encoded(text) != [] ==> !Trails(Encoded(text)[0])
  {
    if text != "" {
      EncodedCharIsWhole(text[0], []);
      assert EncodedChar(text[0]) + [] == EncodedChar(text[0]);
    }
  }

  lemma MendedLonger(bytes: seq<Byte>, behind: seq<Byte>)
    requires bytes != [] && (behind != [] ==> !Trails(behind[0]))
    ensures Mended(bytes + behind) == [FirstChar(bytes)] + Mended(bytes[Fitting(bytes)..] + behind)
  {
    FitsBefore(bytes, behind);
    assert (bytes + behind)[Fitting(bytes)..] == bytes[Fitting(bytes)..] + behind;
  }

  lemma {:induction false} MendedBefore(bytes: seq<Byte>, text: string)
    ensures Mended(bytes + Encoded(text)) == Mended(bytes) + text
    decreases |bytes|
  {
    if bytes == [] {
      assert bytes + Encoded(text) == Encoded(text);
      DecodedOfEncoded(text);
      EncodedOfDecoded(Encoded(text));
    } else {
      LeadsNotTrails(text);
      MendedLonger(bytes, Encoded(text));
      MendedBefore(bytes[Fitting(bytes)..], text);
      Regrouped([FirstChar(bytes)], Mended(bytes[Fitting(bytes)..]), text);
    }
  }

  /** Only what cannot be decoded is replaced: encoded texts around it come out as they are. */
  lemma MendingKeepsWhatDecodes(front: string, bytes: seq<Byte>, behind: string)
    ensures Mended(Encoded(front) + bytes + Encoded(behind)) == front + Mended(bytes) + behind
  {
    MendedBehind(front, bytes);
    MendedBefore(Encoded(front) + bytes, behind);
  }
}
