/** Apple's address prefixes, read in one pass from the systemd hardware database. */
module OuiHwdb {
  import opened Prelude

  const APPLE_VENDOR: string := "Apple, Inc."
  const MATCH_PREFIX: string := "OUI:"
  const VENDOR_PREFIX: string := "ID_OUI_FROM_DATABASE="

  // ---- text

  /** The White_Space property of Unicode. */
  predicate IsWhitespace(c: char) {
    var v := c as int;
    9 <= v <= 13 || v == 32 || v == 0x85 || v == 0xA0 || v == 0x1680 || 0x2000 <= v <= 0x200A
    || v == 0x2028 || v == 0x2029 || v == 0x202F || v == 0x205F || v == 0x3000
  }

  function TrimStart(s: string): string {
    if s != "" && IsWhitespace(s[0]) then TrimStart(s[1..]) else s
  }

  function TrimEnd(s: string): string {
    if s != "" && IsWhitespace(s[|s| - 1]) then TrimEnd(s[..|s| - 1]) else s
  }

  function Trim(s: string): string {
    TrimStart(TrimEnd(s))
  }

  function StripPrefix(s: string, prefix: string): Option<string> {
    if prefix <= s then Some(s[|prefix|..]) else None
  }

  function StripStar(s: string): Option<string> {
    if s != "" && s[|s| - 1] == '*' then Some(s[..|s| - 1]) else None
  }

  function AsciiLower(c: char): char {
    if 'A' <= c <= 'Z' then c + 32 as char else c
  }

  predicate EqIgnoreAsciiCase(a: string, b: string) {
    |a| == |b| && forall i :: 0 <= i < |a| ==> AsciiLower(a[i]) == AsciiLower(b[i])
  }

  predicate IsAppleVendor(vendor: string) {
    EqIgnoreAsciiCase(Trim(vendor), APPLE_VENDOR)
  }

  function HexValue(c: char): Option<nat> {
    if '0' <= c <= '9' then Some(c as nat - '0' as nat)
    else if 'a' <= c <= 'f' then Some(c as nat - 'a' as nat + 10)
    else if 'A' <= c <= 'F' then Some(c as nat - 'A' as nat + 10)
    else None
  }

  /** An OUI from its six digits, none missing and none more. */
  function HexOui(digits: string): Option<Oui> {
    if |digits| != 6 || exists i :: 0 <= i < 6 && HexValue(digits[i]).None? then None
    else
      var d := (i: int) requires 0 <= i < 6 => HexValue(digits[i]).value % 16;
      Some(Oui(16 * d(0) + d(1), 16 * d(2) + d(3), 16 * d(4) + d(5)))
  }

  // ---- the kinds of lines

  predicate IsMatch(line: string) {
    MATCH_PREFIX <= line
  }

  /** The OUI of a match line for a whole OUI; longer prefixes have none. */
  function WholeOui(line: string): Option<Oui> {
    if !IsMatch(line) then None
    else
      var pattern := StripStar(TrimEnd(line[|MATCH_PREFIX|..]));
      if pattern.None? then None else HexOui(pattern.value)
  }

  predicate IsProperty(line: string) {
    !IsMatch(line) && Trim(line) != "" && line != "" && IsWhitespace(line[0])
  }

  predicate NamesApple(line: string) {
    IsProperty(line)
    && var vendor := StripPrefix(TrimStart(line), VENDOR_PREFIX);
       vendor.Some? && IsAppleVendor(vendor.value)
  }

  // ---- what the file says

  /** After the match line `i` for `x` come only match lines up to `j`, then only properties up to `n`. */
  ghost predicate Covers(lines: seq<string>, x: Oui, i: nat, j: nat, n: nat) {
    i < j <= n <= |lines| && WholeOui(lines[i]) == Some(x)
    && (forall m :: i < m < j ==> IsMatch(lines[m]))
    && (forall m :: j <= m < n ==> IsProperty(lines[m]))
  }

  /** Property line `k` applies to the match line `i` for `x`. */
  ghost predicate Applies(lines: seq<string>, x: Oui, i: nat, j: nat, k: nat) {
    k < |lines| && IsProperty(lines[k]) && Covers(lines, x, i, j, k)
  }

  ghost predicate Current(lines: seq<string>, x: Oui, n: nat) {
    exists i: nat, j: nat :: Covers(lines, x, i, j, n)
  }

  /** A record lists `x` and one of the first `n` lines names Apple as its vendor. */
  ghost predicate Listed(lines: seq<string>, x: Oui, n: nat) {
    exists i: nat, j: nat, k: nat :: Applies(lines, x, i, j, k) && k < n && NamesApple(lines[k])
  }

  /** Whether a record stays open for `x` past a line, given that it was `open` before. */
  predicate Continues(line: string, afterProperty: bool, x: Oui, open: bool) {
    (IsProperty(line) && open)
    || (IsMatch(line) && (WholeOui(line) == Some(x) || (open && !afterProperty)))
  }

  /** Of the match lines before `n`, those still open after line `n`. */
  lemma NextCurrent(lines: seq<string>, x: Oui, n: nat)
    requires n < |lines|
    ensures Current(lines, x, n + 1)
       <==> Continues(lines[n], n > 0 && IsProperty(lines[n - 1]), x, Current(lines, x, n))
  {
    hide WholeOui, IsProperty, IsMatch;
    assert IsProperty(lines[n]) ==> !IsMatch(lines[n]) by { Disjoint(lines[n]); }
    if Current(lines, x, n + 1) {
      var i: nat, j: nat :| Covers(lines, x, i, j, n + 1);
      if IsProperty(lines[n]) {
        if i == n {
          Disjoint(lines[n]);
        } else {
          assert Covers(lines, x, i, j, n);
        }
      } else if i == n {
        Disjoint(lines[n]);
      } else {
        assert Covers(lines, x, i, n, n);
        Disjoint(lines[n - 1]);
      }
    }
    if Current(lines, x, n) {
      var i: nat, j: nat :| Covers(lines, x, i, j, n);
      if IsProperty(lines[n]) {
        assert Covers(lines, x, i, j, n + 1);
      } else if IsMatch(lines[n]) && !(n > 0 && IsProperty(lines[n - 1])) {
        assert Covers(lines, x, i, n + 1, n + 1);
      }
    }
    if WholeOui(lines[n]) == Some(x) {
      assert Covers(lines, x, n, n + 1, n + 1);
    }
  }

  lemma Disjoint(line: string)
    ensures IsProperty(line) ==> !IsMatch(line)
    ensures WholeOui(line).Some? ==> IsMatch(line)
  {}

  lemma NextListed(lines: seq<string>, x: Oui, n: nat)
    requires n < |lines|
    ensures Listed(lines, x, n + 1) <==> Listed(lines, x, n) || (NamesApple(lines[n]) && Current(lines, x, n))
  {
    hide WholeOui, IsProperty, IsMatch, NamesApple;
    if Listed(lines, x, n + 1) {
      var i: nat, j: nat, k: nat :| Applies(lines, x, i, j, k) && k < n + 1 && NamesApple(lines[k]);
      if k == n {
        assert Covers(lines, x, i, j, n);
      }
    }
    if Listed(lines, x, n) {
      var i: nat, j: nat, k: nat :| Applies(lines, x, i, j, k) && k < n && NamesApple(lines[k]);
      assert Applies(lines, x, i, j, k) && k < n + 1;
    }
    if NamesApple(lines[n]) && Current(lines, x, n) {
      var i: nat, j: nat :| Covers(lines, x, i, j, n);
      AppleIsProperty(lines[n]);
      assert Applies(lines, x, i, j, n);
    }
  }

  lemma AppleIsProperty(line: string)
    ensures NamesApple(line) ==> IsProperty(line)
  {}

  /**
   One pass over the lines finds exactly the OUIs that some record lists and assigns to Apple: a whole-OUI match
   line, then only match lines, then only properties, up to one that names Apple.
   */
  method ParseHwdb(lines: seq<string>) returns (found: set<Oui>)
    ensures forall x: Oui :: x in found <==> Listed(lines, x, |lines|)
  {
    hide WholeOui, IsProperty, IsMatch, NamesApple, Current, Listed, TrimStart, IsAppleVendor;
    found := {};
    var matches: seq<Oui> := [];
    var inProperties := false;
    var n := 0;
    forall x: Oui ensures !Current(lines, x, 0) && !Listed(lines, x, 0) {
      NothingYet(lines, x);
    }
    while n < |lines|
      invariant n <= |lines|
      invariant forall x: Oui :: x in matches <==> Current(lines, x, n)
      invariant inProperties == (n > 0 && IsProperty(lines[n - 1]))
      invariant forall x: Oui :: x in found <==> Listed(lines, x, n)
    {
      var line := lines[n];
      ghost var next := n + 1;
      forall x: Oui ensures Current(lines, x, next) <==> Continues(line, inProperties, x, Current(lines, x, n)) {
        NextCurrent(lines, x, n);
      }
      forall x: Oui
        ensures Listed(lines, x, next) <==> Listed(lines, x, n) || (NamesApple(line) && Current(lines, x, n))
      {
        NextListed(lines, x, n);
      }
      Disjoint(line);
      AppleIsProperty(line);
      if IsMatch(line) {
        if inProperties {
          matches := [];
          inProperties := false;
        }
        var oui := WholeOui(line);
        if oui.Some? {
          matches := matches + [oui.value];
        }
      } else if IsProperty(line) {
        inProperties := true;
        if NamesApple(line) {
          found := found + set x | x in matches;
        }
      } else {
        matches := [];
        inProperties := false;
      }
      n := n + 1;
    }
  }

  lemma NothingYet(lines: seq<string>, x: Oui)
    ensures !Current(lines, x, 0) && !Listed(lines, x, 0)
  {}
}
