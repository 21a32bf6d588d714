/**
 UTF-8 as in section 3 of RFC 3629. A `char` is a Unicode scalar value, so every string has an encoding; a byte
 sequence is a string's encoding only when every character is in its shortest form and no surrogate occurs.
 */
module Utf8 {
  import opened Prelude

  function EncodeChar(c: char): (b: seq<byte>)
    ensures 1 <= |b| <= 4
    ensures !Continues(b[0]) && forall i :: 1 <= i < |b| ==> Continues(b[i])
  {
    var v := c as int;
    if v < 0x80 then [v]
    else if v < 0x800 then [0xC0 + v / 64, 0x80 + v % 64]
    else if v < 0x1_0000 then [0xE0 + v / 4096, 0x80 + v / 64 % 64, 0x80 + v % 64]
    else [0xF0 + v / 262144, 0x80 + v / 4096 % 64, 0x80 + v / 64 % 64, 0x80 + v % 64]
  }

  function Encode(s: string): seq<byte> {
    if s == "" then [] else EncodeChar(s[0]) + Encode(s[1..])
  }

  /** A continuation octet, 10xxxxxx. */
  predicate Continues(b: byte) {
    0x80 <= b < 0xC0
  }

  /** A scalar value whose shortest form starts at `low`. */
  function Scalar(v: int, low: nat): Option<char> {
    if low <= v && (v < 0xD800 || 0xE000 <= v < 0x11_0000) then Some(v as char) else None
  }

  /** How many octets the first one announces. */
  function Announced(b: byte): nat {
    if b < 0x80 then 1 else if 0xC0 <= b < 0xE0 then 2 else if 0xE0 <= b < 0xF0 then 3
    else if 0xF0 <= b < 0xF8 then 4 else 0
  }

  /** The first character of an octet sequence. */
  function DecodeChar(b: seq<byte>): (c: Option<char>)
    ensures c.Some? ==> b != [] && 1 <= Announced(b[0]) <= |b|
  {
    if b == [] || Announced(b[0]) == 0 || |b| < Announced(b[0]) then None
    else
      match Announced(b[0])
      case 1 => Scalar(b[0], 0)
      case 2 => if Continues(b[1]) then Scalar(Join(Bits(b[0], 0xC0), b[1]), 0x80) else None
      case 3 =>
        if Continues(b[1]) && Continues(b[2]) then Scalar(Join(Join(Bits(b[0], 0xE0), b[1]), b[2]), 0x800) else None
      case _ =>
        if Continues(b[1]) && Continues(b[2]) && Continues(b[3])
        then Scalar(Join(Join(Join(Bits(b[0], 0xF0), b[1]), b[2]), b[3]), 0x1_0000) else None
  }

  /** What an octet says beyond its marker. */
  function Bits(b: byte, marker: int): int {
    b as int - marker
  }

  /** Six more bits. */
  function Join(high: int, b: byte): int {
    high * 64 + Bits(b, 0x80)
  }

  function Decode(b: seq<byte>): Option<string> {
    if b == [] then Some("")
    else
      var c := DecodeChar(b);
      if c.None? then None
      else
        var rest := Decode(b[Announced(b[0])..]);
        if rest.None? then None else Some([c.value] + rest.value)
  }

  lemma Split(high: int, b: byte)
    requires Continues(b)
    ensures Join(high, b) / 64 == high && Join(high, b) % 64 == Bits(b, 0x80)
  {}

  lemma CharRoundTrip(c: char, rest: seq<byte>)
    ensures Announced(EncodeChar(c)[0]) == |EncodeChar(c)|
    ensures DecodeChar(EncodeChar(c) + rest) == Some(c)
  {
    var v := c as int;
    assert v < 0xD800 || 0xE000 <= v < 0x11_0000;
    assert v == v / 64 * 64 + v % 64;
    assert v / 64 == v / 4096 * 64 + v / 64 % 64;
    assert v / 4096 == v / 262144 * 64 + v / 4096 % 64;
  }

  lemma {:induction false} RoundTrip(s: string)
    ensures Decode(Encode(s)) == Some(s)
  {
    if s != "" {
      var e := EncodeChar(s[0]);
      CharRoundTrip(s[0], Encode(s[1..]));
      RoundTrip(s[1..]);
      assert Encode(s)[|e|..] == Encode(s[1..]);
      assert s == [s[0]] + s[1..];
    }
  }

  lemma CharIsShortest(b: seq<byte>)
    requires DecodeChar(b).Some?
    ensures EncodeChar(DecodeChar(b).value) == b[..Announced(b[0])]
  {
    hide Join;
    match Announced(b[0])
    case 1 =>
    case 2 =>
      var h := Bits(b[0], 0xC0);
      Split(h, b[1]);
    case 3 =>
      var h := Bits(b[0], 0xE0);
      Split(h, b[1]);
      Split(Join(h, b[1]), b[2]);
      Quarter(Join(Join(h, b[1]), b[2]));
    case _ =>
      var h := Bits(b[0], 0xF0);
      Split(h, b[1]);
      Split(Join(h, b[1]), b[2]);
      Split(Join(Join(h, b[1]), b[2]), b[3]);
      Quarter(Join(Join(Join(h, b[1]), b[2]), b[3]));
  }

  lemma Quarter(v: int)
    ensures v / 64 / 64 == v / 4096 && v / 64 / 64 / 64 == v / 262144
  {}

  /** The decoder accepts encodings of strings and nothing else. */
  lemma {:induction false} OnlyEncodingsDecode(b: seq<byte>)
    requires Decode(b).Some?
    ensures Encode(Decode(b).value) == b
  {
    if b != [] {
      CharIsShortest(b);
      OnlyEncodingsDecode(b[Announced(b[0])..]);
      var s := Decode(b).value;
      assert s[1..] == Decode(b[Announced(b[0])..]).value;
    }
  }

  lemma {:induction false} EncodeAppend(s: string, t: string)
    ensures Encode(s + t) == Encode(s) + Encode(t)
  {
    if s == "" {
      assert s + t == t;
    } else {
      EncodeAppend(s[1..], t);
      assert (s + t)[1..] == s[1..] + t;
    }
  }

  // ---- cutting at a character

  /** `str::is_char_boundary`: an end of the string, or the first octet of a character. */
  predicate IsCharBoundary(b: seq<byte>, i: nat) {
    i == 0 || i == |b| || (i < |b| && !Continues(b[i]))
  }

  /** `n` characters of `s` fit into `cap` octets, and one more does not. */
  ghost predicate Fits(s: string, n: nat, cap: nat) {
    n <= |s| && |Encode(s[..n])| <= cap && (n < |s| ==> |Encode(s[..n + 1])| > cap)
  }

  /** How many whole characters fit into `cap` octets. */
  function Fitting(s: string, cap: nat): (n: nat)
    ensures n <= |s|
  {
    if s == "" || |EncodeChar(s[0])| > cap then 0 else 1 + Fitting(s[1..], cap - |EncodeChar(s[0])|)
  }

  function Cut(s: string, cap: nat): string {
    s[..Fitting(s, cap)]
  }

  lemma EncodeFirst(s: string, n: nat)
    requires 1 <= n <= |s|
    ensures Encode(s[..n]) == EncodeChar(s[0]) + Encode(s[1..][..n - 1])
  {
    assert s[..n][1..] == s[1..][..n - 1];
  }

  lemma {:induction false} PrefixesGrow(s: string, i: nat, j: nat)
    requires i <= j <= |s|
    ensures |Encode(s[..i])| + (j - i) <= |Encode(s[..j])|
  {
    if i < j {
      PrefixesGrow(s, i, j - 1);
      assert s[..j] == s[..j - 1] + [s[j - 1]];
      EncodeAppend(s[..j - 1], [s[j - 1]]);
    }
  }

  /** The cut is the longest whole-character prefix that fits, and the only one. */
  lemma {:induction false} CutIsLongest(s: string, cap: nat, n: nat)
    ensures Fits(s, n, cap) <==> n == Fitting(s, cap)
  {
    if s != "" {
      var e := |EncodeChar(s[0])|;
      EncodeFirst(s, 1);
      if e <= cap && n >= 1 {
        CutIsLongest(s[1..], cap - e, n - 1);
        if n <= |s| {
          EncodeFirst(s, n);
        }
        if n < |s| {
          EncodeFirst(s, n + 1);
        }
      } else if n >= 1 && n <= |s| {
        PrefixesGrow(s, 1, n);
      }
    }
  }

  lemma BoundaryFirst(s: string, i: nat)
    requires s != "" && i <= |Encode(s)|
    ensures IsCharBoundary(Encode(s), i)
       <==> i == 0 || (i >= |EncodeChar(s[0])| && IsCharBoundary(Encode(s[1..]), i - |EncodeChar(s[0])|))
  {
    var e := |EncodeChar(s[0])|;
    if e <= i < |Encode(s)| {
      assert Encode(s)[i] == Encode(s[1..])[i - e];
      if i == e {
        assert Encode(s[1..]) != [] && s[1..] != "";
        assert Encode(s[1..])[0] == EncodeChar(s[1])[0];
      }
    }
  }

  /** Walking back from the limit to a character boundary finds the end of the cut. */
  lemma {:induction false} LastBoundary(s: string, cap: nat, end: nat)
    requires end <= |Encode(s)| && end <= cap && IsCharBoundary(Encode(s), end)
    requires forall i :: end < i <= |Encode(s)| && i <= cap ==> !IsCharBoundary(Encode(s), i)
    ensures Encode(s)[..end] == Encode(Cut(s, cap))
  {
    if s != "" {
      var e := |EncodeChar(s[0])|;
      BoundaryFirst(s, end);
      BoundaryFirst(s, e);
      if e <= cap {
        forall i | end - e < i <= |Encode(s[1..])| && i <= cap - e ensures !IsCharBoundary(Encode(s[1..]), i) {
          BoundaryFirst(s, i + e);
        }
        LastBoundary(s[1..], cap - e, end - e);
        EncodeFirst(s, Fitting(s, cap));
      }
    }
  }

  predicate Ascii(s: string) {
    forall i :: 0 <= i < |s| ==> s[i] < 128 as char
  }

  /** ASCII text as octets. */
  function Bytes(s: string): (b: seq<byte>)
    requires Ascii(s)
    ensures |b| == |s|
  {
    seq(|s|, i requires 0 <= i < |s| => s[i] as nat)
  }

  lemma {:induction false} AsciiBytes(s: string)
    requires Ascii(s)
    ensures Encode(s) == Bytes(s)
  {
    if s != "" {
      AsciiBytes(s[1..]);
    }
  }

  /** ASCII text of at most `cap` characters is kept whole. */
  lemma {:induction false} AsciiFits(s: string, cap: nat)
    requires |s| <= cap && Ascii(s)
    ensures Cut(s, cap) == s && |Encode(s)| == |s|
  {
    if s != "" {
      AsciiFits(s[1..], cap - 1);
    }
  }
}
