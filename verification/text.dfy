/**
 * The few pieces of Python's `str` and `int` behaviour that the validators and
 * payload builders rely on: `str.isspace`, `str.strip`, `str.startswith`,
 * the `in` substring test, `str.lower` and `int(s, 16)`.
 */
module Text {
  import opened Options

  /** `str.isspace` for one character: every character Python treats as whitespace. */
  predicate IsSpace(c: char) {
    || c == ' '
    || '\t' <= c <= '\r'
    || '\U{1c}' <= c <= '\U{1f}'
    || c == '\U{85}' || c == '\U{a0}' || c == '\U{1680}'
    || '\U{2000}' <= c <= '\U{200a}'
    || c == '\U{2028}' || c == '\U{2029}' || c == '\U{202f}' || c == '\U{205f}' || c == '\U{3000}'
  }

  /** A character `int()` leaves alone and then rejects, though `str.isspace` accepts it: the ASCII separators. */
  predicate IsSeparator(c: char) {
    '\U{1c}' <= c <= '\U{1f}'
  }

  /**
   * The two whitespace sets in play: `str.strip` drops every `str.isspace`
   * character, while `int()` first turns non-ASCII whitespace into spaces and
   * then skips only ASCII whitespace, so the ASCII separators are not skipped.
   */
  datatype Whitespace = StrWhitespace | IntWhitespace

  predicate IsSpaceIn(ws: Whitespace, c: char) {
    IsSpace(c) && (ws == StrWhitespace || !IsSeparator(c))
  }

  ghost predicate AllSpace(ws: Whitespace, s: string) {
    forall i :: 0 <= i < |s| ==> IsSpaceIn(ws, s[i])
  }

  /** Every character of `s` from index `lo` up to (not including) `hi` is whitespace. */
  ghost predicate SpaceBetween(ws: Whitespace, s: string, lo: int, hi: int) {
    forall i :: 0 <= lo <= i < hi <= |s| ==> IsSpaceIn(ws, s[i])
  }

  /** `s.lstrip()`: drops the leading whitespace and nothing else. */
  function TrimStart(ws: Whitespace, s: string): (r: string)
    ensures |r| <= |s| && r == s[|s| - |r|..]
    ensures SpaceBetween(ws, s, 0, |s| - |r|)
    ensures r == [] || !IsSpaceIn(ws, r[0])
    decreases |s|
  {
    if s != [] && IsSpaceIn(ws, s[0]) then
      var r := TrimStart(ws, s[1..]);
      assert s[1..][|s| - 1 - |r|..] == s[|s| - |r|..];
      r
    else s
  }

  /** `s.rstrip()`: drops the trailing whitespace and nothing else. */
  function TrimEnd(ws: Whitespace, s: string): (r: string)
    ensures |r| <= |s| && r == s[..|r|]
    ensures SpaceBetween(ws, s, |r|, |s|)
    ensures r == [] || !IsSpaceIn(ws, r[|r| - 1])
    decreases |s|
  {
    if s != [] && IsSpaceIn(ws, s[|s| - 1]) then
      var r := TrimEnd(ws, s[..|s| - 1]);
      assert s[..|s| - 1][..|r|] == s[..|r|];
      r
    else s
  }

  /** The number of whitespace characters `s` starts with. */
  function LeadingSpace(ws: Whitespace, s: string): (n: nat)
    ensures n <= |s| && SpaceBetween(ws, s, 0, n)
    ensures n < |s| ==> !IsSpaceIn(ws, s[n])
  {
    var t := TrimStart(ws, s);
    assert t != [] ==> s[|s| - |t|] == t[0];
    |s| - |t|
  }

  /** `s.strip()` (for `StrWhitespace`): the infix left once the whitespace at both ends is dropped. */
  function Strip(ws: Whitespace, s: string): (r: string)
    ensures exists i :: OccursAt(s, r, i) && SpaceBetween(ws, s, 0, i) && SpaceBetween(ws, s, i + |r|, |s|)
    ensures r == [] <==> AllSpace(ws, s)
    ensures r != [] ==> !IsSpaceIn(ws, r[0]) && !IsSpaceIn(ws, r[|r| - 1])
  {
    var t := TrimStart(ws, s);
    var r := TrimEnd(ws, t);
    SplitsAt(ws, s, |s| - |t|, t, r);
    r
  }

  /** Strip removes whitespace only: the leading whitespace before the result, whitespace after it. */
  lemma StripDropsOnlySpace(ws: Whitespace, s: string)
    ensures var i := LeadingSpace(ws, s); var r := Strip(ws, s);
              OccursAt(s, r, i) && SpaceBetween(ws, s, 0, i) && SpaceBetween(ws, s, i + |r|, |s|)
  {
    var t := TrimStart(ws, s);
    var r := TrimEnd(ws, t);
    PlacedAt(ws, s, |s| - |t|, t, r);
    assert Strip(ws, s) == r;
    assert LeadingSpace(ws, s) == |s| - |t|;
  }

  /** The prefix `r` of the suffix `t` sits at `k` in `s`, and what follows it in `s` is what follows it in `t`. */
  lemma PlacedAt(ws: Whitespace, s: string, k: nat, t: string, r: string)
    requires k <= |s| && t == s[k..] && |r| <= |t| && r == t[..|r|]
    requires SpaceBetween(ws, t, |r|, |t|)
    ensures OccursAt(s, r, k) && SpaceBetween(ws, s, k + |r|, |s|)
  {
    assert s[k..][..|r|] == s[k..k + |r|];
    forall i | k + |r| <= i < |s|
      ensures IsSpaceIn(ws, s[i])
    {
      assert s[i] == t[i - k];
    }
  }

  /** A string cut into whitespace, a part that neither starts nor ends with whitespace, and whitespace. */
  lemma SplitsAt(ws: Whitespace, s: string, k: nat, t: string, r: string)
    requires k <= |s| && t == s[k..] && |r| <= |t| && r == t[..|r|]
    requires SpaceBetween(ws, s, 0, k) && SpaceBetween(ws, t, |r|, |t|)
    requires t == [] || !IsSpaceIn(ws, t[0])
    requires r == [] || !IsSpaceIn(ws, r[|r| - 1])
    ensures OccursAt(s, r, k) && SpaceBetween(ws, s, k + |r|, |s|)
    ensures exists i :: OccursAt(s, r, i) && SpaceBetween(ws, s, 0, i) && SpaceBetween(ws, s, i + |r|, |s|)
    ensures r == [] <==> AllSpace(ws, s)
    ensures r != [] ==> !IsSpaceIn(ws, r[0]) && !IsSpaceIn(ws, r[|r| - 1])
  {
    PlacedAt(ws, s, k, t, r);
    if r == [] {
      assert t == [];
    } else {
      assert s[k] == t[0] == r[0];
    }
  }

  /** Stripping twice changes nothing more than stripping once. */
  lemma StripIdempotent(ws: Whitespace, s: string)
    ensures Strip(ws, Strip(ws, s)) == Strip(ws, s)
  {
    var r := Strip(ws, s);
    assert TrimStart(ws, r) == r;
    if r != [] {
      assert TrimEnd(ws, r) == r;
    }
  }

  /** `s.startswith(p)`. */
  predicate StartsWith(s: string, p: string) {
    |p| <= |s| && s[..|p|] == p
  }

  /** `sub` occurs in `s` at index `i`. */
  ghost predicate OccursAt(s: string, sub: string, i: int) {
    0 <= i && i + |sub| <= |s| && s[i..i + |sub|] == sub
  }

  /** Python's `sub in s` for strings: a left-to-right scan for an occurrence. */
  function Contains(s: string, sub: string): (r: bool)
    ensures r <==> exists i :: OccursAt(s, sub, i)
    decreases |s|
  {
    if |sub| > |s| then
      false
    else if s[..|sub|] == sub then
      assert OccursAt(s, sub, 0);
      true
    else
      var r := Contains(s[1..], sub);
      OccursShift(s, sub);
      r
  }

  /** An occurrence past index 0 is an occurrence in the tail, one place earlier. */
  lemma OccursShift(s: string, sub: string)
    requires s != []
    requires !OccursAt(s, sub, 0)
    ensures (exists i :: OccursAt(s, sub, i)) <==> (exists i :: OccursAt(s[1..], sub, i))
  {
    if i :| OccursAt(s, sub, i) {
      assert i > 0;
      assert s[1..][i - 1..i - 1 + |sub|] == s[i..i + |sub|];
      assert OccursAt(s[1..], sub, i - 1);
    }
    if j :| OccursAt(s[1..], sub, j) {
      assert s[j + 1..j + 1 + |sub|] == s[1..][j..j + |sub|];
      assert OccursAt(s, sub, j + 1);
    }
  }

  /** `c.lower()` restricted to ASCII letters. */
  function LowerChar(c: char): char {
    if 'A' <= c <= 'Z' then (c as int - 'A' as int + 'a' as int) as char else c
  }

  /** `s.lower()`, with ASCII case mapping. */
  function Lower(s: string): (r: string)
    ensures |r| == |s|
    ensures forall i :: 0 <= i < |s| ==> r[i] == LowerChar(s[i])
  {
    seq(|s|, i requires 0 <= i < |s| => LowerChar(s[i]))
  }

  /** Lower-casing a lower-cased string changes nothing. */
  lemma LowerIdempotent(s: string)
    ensures Lower(Lower(s)) == Lower(s)
  {
  }

  // ----- int(s, 16) -------------------------------------------------------

  predicate IsHexDigit(c: char) {
    '0' <= c <= '9' || 'a' <= c <= 'f' || 'A' <= c <= 'F'
  }

  function HexDigitValue(c: char): (v: nat)
    requires IsHexDigit(c)
    ensures v < 16
  {
    if '0' <= c <= '9' then c as int - '0' as int
    else if 'a' <= c <= 'f' then c as int - 'a' as int + 10
    else c as int - 'A' as int + 10
  }

  /** The value of a string of hex digits, most significant digit first. */
  function DigitsValue(s: string): nat
    requires forall i :: 0 <= i < |s| ==> IsHexDigit(s[i])
  {
    if s == [] then 0 else DigitsValue(s[..|s| - 1]) * 16 + HexDigitValue(s[|s| - 1])
  }

  /** Digits separated by single underscores, starting and ending with a digit (PEP 515). */
  predicate WellGrouped(d: string) {
    && |d| > 0
    && IsHexDigit(d[0])
    && IsHexDigit(d[|d| - 1])
    && forall i :: 0 <= i < |d| ==> IsHexDigit(d[i]) || (d[i] == '_' && i + 1 < |d| && IsHexDigit(d[i + 1]))
  }

  function RemoveUnderscores(d: string): (r: string)
    ensures forall i :: 0 <= i < |r| ==> r[i] != '_'
    ensures (forall i :: 0 <= i < |d| ==> d[i] != '_') ==> r == d
  {
    if d == [] then []
    else (if d[0] == '_' then [] else [d[0]]) + RemoveUnderscores(d[1..])
  }

  /** The digits left once an optional `0x`/`0X` prefix (and one underscore after it) is removed. */
  function HexBody(t: string): string {
    if |t| >= 2 && t[0] == '0' && (t[1] == 'x' || t[1] == 'X') then
      var b := t[2..];
      if b != [] && b[0] == '_' then b[1..] else b
    else
      t
  }

  /** The value of underscore-grouped hex digits, `None` when the grouping is malformed. */
  function GroupedValue(d: string): (v: Option<nat>)
    ensures v.Some? <==> WellGrouped(d)
  {
    if WellGrouped(d) then
      GroupedDigits(d);
      UnderscoresOnlyRemoved(d);
      Some(DigitsValue(RemoveUnderscores(d)))
    else
      None
  }

  /**
   * Python's `int(s, 16)`: surrounding whitespace (the set `int()` skips), an
   * optional sign, an optional `0x` prefix and underscore-grouped hex digits;
   * `None` where Python raises `ValueError`.
   */
  function ParseHex(s: string): (r: Option<int>)
    ensures AllSpace(IntWhitespace, s) ==> r.None?
  {
    ParseSignedHex(Strip(IntWhitespace, s))
  }

  /** `int(t, 16)` for a `t` with no surrounding whitespace. */
  function ParseSignedHex(t: string): (r: Option<int>)
    ensures r.Some? && t != [] && t[0] == '-' ==> r.value <= 0
    ensures r.Some? && (t == [] || t[0] != '-') ==> r.value >= 0
  {
    var negative := t != [] && t[0] == '-';
    var unsigned := if t != [] && (t[0] == '-' || t[0] == '+') then t[1..] else t;
    match GroupedValue(HexBody(unsigned))
    case None => None
    case Some(v) => Some(if negative then -(v as int) else v)
  }

  lemma GroupedDigits(d: string)
    requires WellGrouped(d)
    ensures forall i :: 0 <= i < |d| ==> IsHexDigit(d[i]) || d[i] == '_'
  {
    forall i | 0 <= i < |d|
      ensures IsHexDigit(d[i]) || d[i] == '_'
    {
      assert IsHexDigit(d[i]) || (d[i] == '_' && i + 1 < |d| && IsHexDigit(d[i + 1]));
    }
  }

  lemma UnderscoresOnlyRemoved(d: string)
    requires forall i :: 0 <= i < |d| ==> IsHexDigit(d[i]) || d[i] == '_'
    ensures forall i :: 0 <= i < |RemoveUnderscores(d)| ==> IsHexDigit(RemoveUnderscores(d)[i])
  {
    if d != [] {
      UnderscoresOnlyRemoved(d[1..]);
    }
  }

  function HexChar(v: nat): (c: char)
    requires v < 16
    ensures IsHexDigit(c) && HexDigitValue(c) == v
  {
    "0123456789ABCDEF"[v]
  }

  /** The upper-case hexadecimal spelling of `n`, without prefix or leading zeros. */
  function FormatHex(n: nat): (s: string)
    ensures s != []
    ensures forall i :: 0 <= i < |s| ==> IsHexDigit(s[i])
    decreases n
  {
    if n < 16 then [HexChar(n)] else FormatHex(n / 16) + [HexChar(n % 16)]
  }

  lemma {:induction false} FormatHexValue(n: nat)
    ensures DigitsValue(FormatHex(n)) == n
    decreases n
  {
    var s := FormatHex(n);
    if n >= 16 {
      FormatHexValue(n / 16);
      assert s[..|s| - 1] == FormatHex(n / 16);
    } else {
      assert s[..|s| - 1] == [];
    }
  }

  /** Without whitespace there is nothing to strip. */
  lemma StripNoSpace(s: string)
    requires forall i :: 0 <= i < |s| ==> !IsSpace(s[i])
    ensures Strip(IntWhitespace, s) == s
  {
    assert TrimStart(IntWhitespace, s) == s;
    assert TrimEnd(IntWhitespace, s) == s;
  }

  /** Plain hex digits carry no `0x` prefix to drop. */
  lemma PlainDigitsBody(s: string)
    requires forall i :: 0 <= i < |s| ==> IsHexDigit(s[i])
    ensures HexBody(s) == s
  {
    assert |s| >= 2 ==> IsHexDigit(s[1]);
  }

  /** Plain hex digits form one well-formed group, worth the value of the digits. */
  lemma PlainDigitsValue(s: string)
    requires s != []
    requires forall i :: 0 <= i < |s| ==> IsHexDigit(s[i])
    ensures GroupedValue(s) == Some(DigitsValue(s))
  {
    assert WellGrouped(s);
    assert RemoveUnderscores(s) == s;
  }

  lemma HexDigitsNotSpace(s: string)
    requires forall i :: 0 <= i < |s| ==> IsHexDigit(s[i])
    ensures forall i :: 0 <= i < |s| ==> !IsSpace(s[i])
  {
  }

  /** Without whitespace around it, a string parses as its signed form. */
  lemma ParseUnspaced(s: string)
    requires forall i :: 0 <= i < |s| ==> !IsSpace(s[i])
    ensures ParseHex(s) == ParseSignedHex(s)
  {
    StripNoSpace(s);
  }

  lemma ParseSignedDigits(s: string)
    requires s != []
    requires forall i :: 0 <= i < |s| ==> IsHexDigit(s[i])
    ensures ParseSignedHex(s) == Some(DigitsValue(s))
  {
    PlainDigitsBody(s);
    PlainDigitsValue(s);
    ParseUnsigned(s, DigitsValue(s));
  }

  /** Without a sign, a string reads as the value of its digit groups. */
  lemma ParseUnsigned(t: string, v: nat)
    requires t != [] && t[0] != '-' && t[0] != '+'
    requires GroupedValue(HexBody(t)) == Some(v)
    ensures ParseSignedHex(t) == Some(v)
  {
  }

  /** A string of hex digits parses as the value of its digits. */
  lemma ParseDigits(s: string)
    requires s != []
    requires forall i :: 0 <= i < |s| ==> IsHexDigit(s[i])
    ensures ParseHex(s) == Some(DigitsValue(s))
  {
    HexDigitsNotSpace(s);
    ParseUnspaced(s);
    ParseSignedDigits(s);
  }

  /** Parsing the hex spelling of a number gives the number back. */
  lemma ParseFormatHex(n: nat)
    ensures ParseHex(FormatHex(n)) == Some(n)
  {
    ParseDigits(FormatHex(n));
    FormatHexValue(n);
  }

  /** The hex spelling of `n` is one well-formed group worth `n`. */
  lemma FormatHexGrouped(n: nat)
    ensures GroupedValue(HexBody(FormatHex(n))) == Some(n)
  {
    PlainDigitsBody(FormatHex(n));
    PlainDigitsValue(FormatHex(n));
    FormatHexValue(n);
  }

  /** A minus sign before digits worth `v` reads as `-v`. */
  lemma ParseMinus(t: string, v: nat)
    requires t != [] && t[0] == '-'
    requires GroupedValue(HexBody(t[1..])) == Some(v)
    ensures ParseSignedHex(t) == Some(-(v as int))
  {
  }

  lemma SignedNotSpace(f: string)
    requires forall i :: 0 <= i < |f| ==> IsHexDigit(f[i])
    ensures forall i :: 0 <= i < |"-" + f| ==> !IsSpace(("-" + f)[i])
  {
    HexDigitsNotSpace(f);
    var s := "-" + f;
    forall i | 0 <= i < |s|
      ensures !IsSpace(s[i])
    {
      if i > 0 {
        assert s[i] == f[i - 1];
      }
    }
  }

  /** A minus sign in front of the hex spelling of `n` reads as `-n`. */
  lemma ParseNegatedHex(n: nat)
    ensures ParseHex("-" + FormatHex(n)) == Some(-(n as int))
  {
    var f := FormatHex(n);
    var t := "-" + f;
    assert t[0] == '-' && t[1..] == f;
    FormatHexGrouped(n);
    ParseMinus(t, n);
    SignedNotSpace(f);
    ParseUnspaced(t);
  }

  /** `HexBody` only removes a prefix. */
  lemma HexBodySuffix(u: string)
    ensures |HexBody(u)| <= |u| && HexBody(u) == u[|u| - |HexBody(u)|..]
  {
    if |u| >= 2 && u[0] == '0' && (u[1] == 'x' || u[1] == 'X') {
      var b := u[2..];
      if b != [] && b[0] == '_' {
        assert b[1..] == u[3..];
      }
    }
  }

  /** A signed string that begins or ends with an ASCII separator is not a number. */
  lemma SignedRejectsSeparator(t: string)
    requires t != [] && (IsSeparator(t[0]) || IsSeparator(t[|t| - 1]))
    ensures ParseSignedHex(t).None?
  {
    var u := if t[0] == '-' || t[0] == '+' then t[1..] else t;
    var d := HexBody(u);
    HexBodySuffix(u);
    if IsSeparator(t[0]) {
      assert u == t;
      assert d == u;
      SeparatorNotGrouped(d);
    } else if d != [] {
      assert d[|d| - 1] == u[|u| - 1] == t[|t| - 1];
      SeparatorNotGrouped(d);
    }
    assert GroupedValue(d).None?;
  }

  /** Digits that begin or end with a separator are not well grouped. */
  lemma SeparatorNotGrouped(d: string)
    requires d != [] && (IsSeparator(d[0]) || IsSeparator(d[|d| - 1]))
    ensures !WellGrouped(d)
  {
  }

  /**
   * `int()` does not skip the ASCII separators `str.isspace` accepts, so a
   * string with one at either end is not a number.
   */
  lemma ParseRejectsSeparator(s: string)
    requires s != [] && (IsSeparator(s[0]) || IsSeparator(s[|s| - 1]))
    ensures ParseHex(s).None?
  {
    var r := Strip(IntWhitespace, s);
    var i := LeadingSpace(IntWhitespace, s);
    StripDropsOnlySpace(IntWhitespace, s);
    assert r != [];
    if IsSeparator(s[0]) {
      assert i == 0;
      assert r[0] == s[0];
    } else {
      assert i + |r| == |s|;
      assert r[|r| - 1] == s[|s| - 1];
    }
    SignedRejectsSeparator(r);
  }

  /** `int("\x1cFF", 16)` raises, though `str.strip` would drop the leading separator. */
  lemma SeparatorPaddedHexFails()
    ensures ParseHex("\U{1c}FF").None?
  {
    ParseRejectsSeparator("\U{1c}FF");
  }
}
