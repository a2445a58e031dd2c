/** String helpers with JavaScript's meaning: `trim`, the regular-expression
    class `\S`, the e-mail pattern of the checkout form, ASCII `toLowerCase`,
    `includes`, and the decimal text of an integer in a template literal. */
module Text {
  import Seqs

  /** JavaScript's WhiteSpace and LineTerminator characters: what `trim`
      removes and what `\s` matches (`\S` is its complement). */
  predicate IsSpace(c: char) {
    || c == '\t' || c == '\n' || c == '\U{000B}' || c == '\U{000C}' || c == '\r'
    || c == ' ' || c == '\U{00A0}' || c == '\U{1680}' || ('\U{2000}' <= c <= '\U{200A}')
    || c == '\U{2028}' || c == '\U{2029}' || c == '\U{202F}' || c == '\U{205F}'
    || c == '\U{3000}' || c == '\U{FEFF}'
  }

  /** Every character is white space (true of the empty string). */
  predicate IsBlank(s: string) {
    forall i | 0 <= i < |s| :: IsSpace(s[i])
  }

  /** `s` with its leading white space removed. */
  function TrimStart(s: string): (r: string)
    ensures |r| <= |s|
  {
    if s != [] && IsSpace(s[0]) then TrimStart(s[1..]) else s
  }

  /** `TrimStart` keeps a suffix that does not start with white space and
      drops only white space. */
  lemma {:induction false} TrimStartShape(s: string)
    ensures var r := TrimStart(s);
      && r == s[|s| - |r|..]
      && (r == [] || !IsSpace(r[0]))
      && IsBlank(s[..|s| - |r|])
  {
    if s != [] && IsSpace(s[0]) {
      TrimStartShape(s[1..]);
      var r := TrimStart(s);
      assert s[..|s| - |r|] == [s[0]] + s[1..][..|s| - 1 - |r|];
    }
  }

  /** `s` with its trailing white space removed. */
  function TrimEnd(s: string): (r: string)
    ensures |r| <= |s|
  {
    if s != [] && IsSpace(s[|s| - 1]) then TrimEnd(s[..|s| - 1]) else s
  }

  /** `TrimEnd` keeps a prefix that does not end with white space and drops
      only white space. */
  lemma {:induction false} TrimEndShape(s: string)
    ensures var r := TrimEnd(s);
      && r == s[..|r|]
      && (r == [] || !IsSpace(r[|r| - 1]))
      && IsBlank(s[|r|..])
  {
    if s != [] && IsSpace(s[|s| - 1]) {
      TrimEndShape(s[..|s| - 1]);
      var r := TrimEnd(s);
      assert s[|r|..] == s[..|s| - 1][|r|..] + [s[|s| - 1]];
    }
  }

  /** `String.prototype.trim`. */
  function Trim(s: string): string {
    TrimEnd(TrimStart(s))
  }

  /** `!s.trim()` holds exactly when `s` is all white space. */
  lemma TrimEmptyIffBlank(s: string)
    ensures |Trim(s)| == 0 <==> IsBlank(s)
  {
    TrimStartShape(s);
    TrimEndShape(TrimStart(s));
  }

  // ----- The checkout e-mail pattern -----

  /** No white space in `s[lo..hi]`. */
  predicate NoSpaceIn(s: string, lo: int, hi: int)
    requires 0 <= lo <= hi <= |s|
  {
    forall k | lo <= k < hi :: !IsSpace(s[k])
  }

  /** `/\S+@\S+\.\S+/.test(s)`. The pattern is not anchored: it holds when some
      stretch `s[a..e]` is one or more non-space characters, `@`, one or more
      non-space characters, `.`, and one or more non-space characters. */
  predicate MatchesEmailPattern(s: string) {
    exists a, at, dot, e | 0 <= a < at < dot < e <= |s| :: EmailMatchAt(s, a, at, dot, e)
  }

  /** `s[a..e]` is a match of the e-mail pattern with its `@` at `at` and its
      `.` at `dot`. */
  predicate EmailMatchAt(s: string, a: int, at: int, dot: int, e: int) {
    && 0 <= a < at && at + 1 < dot && dot + 1 < e <= |s|
    && s[at] == '@' && s[dot] == '.'
    && NoSpaceIn(s, a, at) && NoSpaceIn(s, at + 1, dot) && NoSpaceIn(s, dot + 1, e)
  }

  /** The shortest match around an `@` at `at` and a `.` at `dot`: one
      non-space character on each outer side. */
  predicate EmailShapeAt(s: string, at: int, dot: int) {
    && 0 < at && at + 1 < dot && dot + 1 < |s|
    && s[at] == '@' && s[dot] == '.'
    && !IsSpace(s[at - 1]) && NoSpaceIn(s, at + 1, dot) && !IsSpace(s[dot + 1])
  }

  /** The pattern matches exactly when some `@` and `.` have the shortest shape. */
  lemma EmailPatternIff(s: string)
    ensures MatchesEmailPattern(s) <==> exists at, dot :: EmailShapeAt(s, at, dot)
  {
    if MatchesEmailPattern(s) {
      var a: int, at: int, dot: int, e: int :| EmailMatchAt(s, a, at, dot, e);
      assert EmailMatchAt(s, a, at, dot, e);
      assert EmailShapeAt(s, at, dot);
    }
    if exists at, dot :: EmailShapeAt(s, at, dot) {
      var at, dot :| EmailShapeAt(s, at, dot);
      assert EmailMatchAt(s, at - 1, at, dot, dot + 2);
    }
  }

  // ----- Case and substrings -----

  /** ASCII `toLowerCase` of one character. */
  function LowerChar(c: char): char {
    if 'A' <= c <= 'Z' then (c as int + 32) as char else c
  }

  /** `String.prototype.toLowerCase`, restricted to ASCII letters. */
  function ToLower(s: string): (r: string)
    ensures |r| == |s|
    ensures forall i | 0 <= i < |s| :: r[i] == LowerChar(s[i])
  {
    Seqs.Map(s, LowerChar)
  }

  /** `a` and `b` differ at most in the case of ASCII letters. */
  predicate SameUpToCase(a: string, b: string) {
    |a| == |b| && forall i | 0 <= i < |a| :: LowerChar(a[i]) == LowerChar(b[i])
  }

  /** Strings that differ only in letter case lower-case to the same string. */
  lemma SameUpToCaseLower(a: string, b: string)
    requires SameUpToCase(a, b)
    ensures ToLower(a) == ToLower(b)
  {
  }

  /** `hay.includes(needle)`. */
  predicate Includes(hay: string, needle: string) {
    exists i | 0 <= i <= |hay| - |needle| :: OccursAt(hay, needle, i)
  }

  /** `needle` occurs in `hay` starting at index `i`. */
  predicate OccursAt(hay: string, needle: string, i: int) {
    0 <= i <= |hay| - |needle| && hay[i..i + |needle|] == needle
  }

  /** Every string includes the empty string. */
  lemma IncludesEmpty(hay: string)
    ensures Includes(hay, "")
  {
    assert OccursAt(hay, "", 0);
  }

  // ----- Decimal text of an integer -----

  predicate IsDigit(c: char) {
    '0' <= c <= '9'
  }

  function DigitChar(d: int): (c: char)
    requires 0 <= d < 10
    ensures IsDigit(c) && c as int - '0' as int == d
  {
    ('0' as int + d) as char
  }

  /** The decimal digits of `n`, without leading zeros. */
  function NatToString(n: nat): (r: string)
    ensures r != [] && forall i | 0 <= i < |r| :: IsDigit(r[i])
  {
    if n < 10 then [DigitChar(n)] else NatToString(n / 10) + [DigitChar(n % 10)]
  }

  /** An integer in a template literal: a minus sign, then the digits. */
  function IntToString(n: int): (r: string)
    ensures r != []
  {
    if n < 0 then "-" + NatToString(-n) else NatToString(n)
  }

  /** The value of a string of decimal digits. */
  function ParseDigits(s: string): int
    requires forall i | 0 <= i < |s| :: IsDigit(s[i])
  {
    if s == [] then 0
    else ParseDigits(s[..|s| - 1]) * 10 + (s[|s| - 1] as int - '0' as int)
  }

  lemma {:induction false} NatToStringRoundTrip(n: nat)
    ensures ParseDigits(NatToString(n)) == n
  {
    if n >= 10 {
      var r := NatToString(n);
      NatToStringRoundTrip(n / 10);
      assert r[..|r| - 1] == NatToString(n / 10);
    }
  }

  /** Different integers have different decimal texts. */
  lemma IntToStringInjective(a: int, b: int)
    requires IntToString(a) == IntToString(b)
    ensures a == b
  {
    var na, nb := if a < 0 then -a else a, if b < 0 then -b else b;
    NatToStringRoundTrip(na);
    NatToStringRoundTrip(nb);
    assert IntToString(a)[0] == '-' <==> a < 0;
    assert IntToString(b)[0] == '-' <==> b < 0;
    if a < 0 {
      assert IntToString(a)[1..] == NatToString(na);
      assert IntToString(b)[1..] == NatToString(nb);
    }
  }
}
