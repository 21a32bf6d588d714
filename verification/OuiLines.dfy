/** The two kinds of hardware-database lines that matter, as text: what a line has to look like, piece by piece. */
module OuiLines {
  import opened Prelude
  import opened Codec
  import opened OuiHwdb

  function UpperOf(c: char): char {
    if 'a' <= c <= 'z' then c - 32 as char else c
  }

  function Upper(s: string): (u: string)
    ensures |u| == |s|
  {
    seq(|s|, i requires 0 <= i < |s| => UpperOf(s[i]))
  }

  function Lower(s: string): (l: string)
    ensures |l| == |s|
  {
    seq(|s|, i requires 0 <= i < |s| => AsciiLower(s[i]))
  }

  predicate Blank(s: string) {
    forall i :: 0 <= i < |s| ==> IsWhitespace(s[i])
  }

  /** An OUI printed as six upper-case digits. */
  function OuiText(x: Oui): (s: string)
    ensures |s| == 6
  {
    HexByte(x.o0) + HexByte(x.o1) + HexByte(x.o2)
  }

  // ---- trimming

  /** What is left at the start is no blank, and only blanks went. */
  lemma {:induction false} TrimStartSplits(s: string) returns (before: string)
    ensures s == before + TrimStart(s) && Blank(before)
    ensures TrimStart(s) == "" || !IsWhitespace(TrimStart(s)[0])
  {
    if s != "" && IsWhitespace(s[0]) {
      var rest := TrimStartSplits(s[1..]);
      before := [s[0]] + rest;
    } else {
      before := "";
    }
  }

  lemma {:induction false} TrimEndSplits(s: string) returns (after: string)
    ensures s == TrimEnd(s) + after && Blank(after)
    ensures TrimEnd(s) == "" || !IsWhitespace(TrimEnd(s)[|TrimEnd(s)| - 1])
  {
    if s != "" && IsWhitespace(s[|s| - 1]) {
      var rest := TrimEndSplits(s[..|s| - 1]);
      after := rest + [s[|s| - 1]];
    } else {
      after := "";
    }
  }

  lemma {:induction false} TrimStartOf(before: string, s: string)
    requires Blank(before) && (s == "" || !IsWhitespace(s[0]))
    ensures TrimStart(before + s) == s
  {
    if before == "" {
      assert before + s == s;
    } else {
      assert (before + s)[1..] == before[1..] + s;
      TrimStartOf(before[1..], s);
    }
  }

  lemma {:induction false} TrimEndOf(s: string, after: string)
    requires Blank(after) && (s == "" || !IsWhitespace(s[|s| - 1]))
    ensures TrimEnd(s + after) == s
  {
    if after == "" {
      assert s + after == s;
    } else {
      assert (s + after)[..|s + after| - 1] == s + after[..|after| - 1];
      TrimEndOf(s, after[..|after| - 1]);
    }
  }

  // ---- digits

  lemma DigitIff(c: char, d: nat)
    requires d < 16
    ensures HexValue(c) == Some(d) <==> UpperOf(c) == HexDigit(d)
  {}

  lemma ByteIff(c: char, d: char, b: byte)
    ensures (HexValue(c).Some? && HexValue(d).Some? && 16 * (HexValue(c).value % 16) + HexValue(d).value % 16 == b)
       <==> [UpperOf(c), UpperOf(d)] == HexByte(b)
  {
    DigitIff(c, b / 16);
    DigitIff(d, b % 16);
    HexIsSmall(c);
    HexIsSmall(d);
    hide HexValue, UpperOf, HexDigit;
    if HexValue(c).Some? && HexValue(d).Some? {
      DigitsOf(HexValue(c).value, HexValue(d).value, b);
    }
    assert [UpperOf(c), UpperOf(d)][0] == UpperOf(c) && [UpperOf(c), UpperOf(d)][1] == UpperOf(d);
    assert HexByte(b)[0] == HexDigit(b / 16) && HexByte(b)[1] == HexDigit(b % 16);
  }

  lemma DigitsOf(u: nat, v: nat, b: byte)
    requires u < 16 && v < 16
    ensures 16 * (u % 16) + v % 16 == b <==> u == b / 16 && v == b % 16
  {}

  lemma HexIsSmall(c: char)
    ensures HexValue(c).Some? ==> HexValue(c).value < 16
  {}

  /** Digits are read as an OUI exactly when they are that OUI printed, in either case of the letters. */
  lemma HexOuiIff(digits: string, x: Oui)
    ensures HexOui(digits) == Some(x) <==> Upper(digits) == OuiText(x)
  {
    if |digits| == 6 {
      ByteIff(digits[0], digits[1], x.o0);
      ByteIff(digits[2], digits[3], x.o1);
      ByteIff(digits[4], digits[5], x.o2);
      hide HexByte, HexValue, UpperOf;
      ThreePairs(Upper(digits), HexByte(x.o0), HexByte(x.o1), HexByte(x.o2));
      PairsRead(digits, x);
    }
  }

  lemma ThreePairs(u: string, a: string, b: string, c: string)
    requires |u| == 6 && |a| == |b| == |c| == 2
    ensures u == a + b + c <==> u[0..2] == a && u[2..4] == b && u[4..6] == c
  {
    assert (a + b + c)[0..2] == a && (a + b + c)[2..4] == b && (a + b + c)[4..6] == c;
    assert u == u[0..2] + u[2..4] + u[4..6];
  }

  predicate PairIs(c: char, d: char, b: byte) {
    HexValue(c).Some? && HexValue(d).Some? && 16 * (HexValue(c).value % 16) + HexValue(d).value % 16 == b
  }

  lemma PairsRead(digits: string, x: Oui)
    requires |digits| == 6
    ensures HexOui(digits) == Some(x)
       <==> PairIs(digits[0], digits[1], x.o0) && PairIs(digits[2], digits[3], x.o1)
            && PairIs(digits[4], digits[5], x.o2)
    ensures Upper(digits)[0..2] == [UpperOf(digits[0]), UpperOf(digits[1])]
    ensures Upper(digits)[2..4] == [UpperOf(digits[2]), UpperOf(digits[3])]
    ensures Upper(digits)[4..6] == [UpperOf(digits[4]), UpperOf(digits[5])]
  {
    hide HexValue, UpperOf;
  }

  // ---- match lines

  /** `line` is `OUI:`, six digits, a star, and blanks. */
  ghost predicate SpellsOui(line: string, digits: string, blanks: string) {
    line == MATCH_PREFIX + digits + "*" + blanks && Blank(blanks)
  }

  /** A line matches a whole OUI exactly when it is the key, that OUI in digits, the star, and at most blanks. */
  lemma WholeOuiIff(line: string, x: Oui)
    ensures WholeOui(line) == Some(x)
       <==> (exists digits, blanks :: SpellsOui(line, digits, blanks) && Upper(digits) == OuiText(x))
  {
    hide HexOui, OuiText, IsWhitespace, Upper;
    if WholeOui(line) == Some(x) {
      var pattern := line[|MATCH_PREFIX|..];
      var blanks := TrimEndSplits(pattern);
      var digits := StripStar(TrimEnd(pattern)).value;
      HexOuiIff(digits, x);
      assert TrimEnd(pattern) == digits + "*";
      assert line == MATCH_PREFIX + pattern;
      assert SpellsOui(line, digits, blanks);
    }
    if exists digits, blanks :: SpellsOui(line, digits, blanks) && Upper(digits) == OuiText(x) {
      var digits, blanks :| SpellsOui(line, digits, blanks) && Upper(digits) == OuiText(x);
      assert line[|MATCH_PREFIX|..] == (digits + "*") + blanks;
      StarIsNoBlank();
      TrimEndOf(digits + "*", blanks);
      assert StripStar(digits + "*") == Some(digits);
      HexOuiIff(digits, x);
    }
  }

  lemma StarIsNoBlank()
    ensures !IsWhitespace('*') && !IsWhitespace('I') && !IsWhitespace('O') && !IsWhitespace('=')
  {}

  // ---- vendor lines

  /** `name` between blanks. */
  ghost predicate Padded(s: string, before: string, name: string, after: string) {
    s == before + name + after && Blank(before) && Blank(after)
  }

  lemma LowerOf(a: string, b: string)
    ensures EqIgnoreAsciiCase(a, b) <==> Lower(a) == Lower(b)
  {
    if Lower(a) == Lower(b) {
      forall i | 0 <= i < |a| ensures AsciiLower(a[i]) == AsciiLower(b[i]) {
        assert Lower(a)[i] == Lower(b)[i];
      }
    }
  }

  lemma AppleInLower()
    ensures Lower(APPLE_VENDOR) == "apple, inc."
  {}

  lemma LowerKeepsBlank(c: char)
    ensures IsWhitespace(AsciiLower(c)) <==> IsWhitespace(c)
  {}

  /** A vendor is Apple exactly when it is `Apple, Inc.` in any letter case, with any blanks around. */
  lemma AppleVendorIff(vendor: string)
    ensures IsAppleVendor(vendor)
       <==> (exists before, name, after :: Padded(vendor, before, name, after) && Lower(name) == "apple, inc.")
  {
    hide IsWhitespace, Lower, EqIgnoreAsciiCase;
    AppleInLower();
    if IsAppleVendor(vendor) {
      var after := TrimEndSplits(vendor);
      var before := TrimStartSplits(TrimEnd(vendor));
      var name := Trim(vendor);
      LowerOf(name, APPLE_VENDOR);
      assert vendor == before + name + after;
      assert Padded(vendor, before, name, after);
    }
    if exists before, name, after :: Padded(vendor, before, name, after) && Lower(name) == "apple, inc." {
      var before, name, after :| Padded(vendor, before, name, after) && Lower(name) == "apple, inc.";
      AppleHasNoBlankEnds(name);
      assert vendor == (before + name) + after;
      assert (before + name)[|before + name| - 1] == name[|name| - 1];
      TrimEndOf(before + name, after);
      TrimStartOf(before, name);
      LowerOf(name, APPLE_VENDOR);
    }
  }

  lemma AppleHasNoBlankEnds(name: string)
    requires Lower(name) == "apple, inc."
    ensures |name| == 11 && !IsWhitespace(name[0]) && !IsWhitespace(name[10])
  {
    assert Lower(name)[0] == 'a' && Lower(name)[10] == '.';
    LowerKeepsBlank(name[0]);
    LowerKeepsBlank(name[10]);
  }

  /** `line` is at least one blank, the vendor key, and the vendor's name between blanks. */
  ghost predicate SpellsVendor(line: string, indent: string, before: string, name: string, after: string) {
    line == indent + VENDOR_PREFIX + before + name + after
    && indent != "" && Blank(indent) && Blank(before) && Blank(after)
  }

  /** A line names Apple exactly when it is an indented vendor property with Apple's name, in any case, padded. */
  lemma NamesAppleIff(line: string)
    ensures NamesApple(line)
       <==> (exists indent, before, name, after ::
               SpellsVendor(line, indent, before, name, after) && Lower(name) == "apple, inc.")
  {
    hide IsWhitespace, Lower, IsAppleVendor;
    StarIsNoBlank();
    if NamesApple(line) {
      var indent := TrimStartSplits(line);
      var vendor := StripPrefix(TrimStart(line), VENDOR_PREFIX).value;
      AppleVendorIff(vendor);
      var before, name, after :| Padded(vendor, before, name, after) && Lower(name) == "apple, inc.";
      assert TrimStart(line) == VENDOR_PREFIX + vendor;
      assert SpellsVendor(line, indent, before, name, after) by {
        assert indent != "" by { Indented(line, indent); }
        Grouped(indent, VENDOR_PREFIX, before, name, after);
      }
    }
    if exists indent, before, name, after ::
         SpellsVendor(line, indent, before, name, after) && Lower(name) == "apple, inc." {
      var indent, before, name, after :|
        SpellsVendor(line, indent, before, name, after) && Lower(name) == "apple, inc.";
      var vendor := before + name + after;
      assert Padded(vendor, before, name, after);
      AppleVendorIff(vendor);
      Grouped(indent, VENDOR_PREFIX, before, name, after);
      TrimStartOf(indent, VENDOR_PREFIX + vendor);
      assert StripPrefix(VENDOR_PREFIX + vendor, VENDOR_PREFIX) == Some(vendor);
      assert line[0] == indent[0];
      assert Trim(line) != "" by { KeepsText(indent, VENDOR_PREFIX + vendor, line); }
    }
  }

  lemma Indented(line: string, indent: string)
    requires IsProperty(line) && line == indent + TrimStart(line)
    requires TrimStart(line) == "" || !IsWhitespace(TrimStart(line)[0])
    ensures indent != ""
  {
    hide IsWhitespace;
  }

  lemma Grouped(a: string, b: string, c: string, d: string, e: string)
    ensures a + b + c + d + e == a + (b + (c + d + e))
  {}

  /** Trimming leaves no text empty. */
  lemma KeepsText(indent: string, text: string, line: string)
    requires line == indent + text && text != "" && !IsWhitespace(text[0])
    ensures Trim(line) != ""
  {
    hide IsWhitespace;
    var after := TrimEndSplits(line);
    var before := TrimStartSplits(TrimEnd(line));
    assert line == before + Trim(line) + after;
    assert line[|indent|] == text[0];
  }
}
