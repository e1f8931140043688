/**
 * The JavaScript string built-ins the backend and the scripts rely on:
 * `trim`, `startsWith`, `includes`, `toUpperCase`, `join`, `String(n)` for
 * integers, `parseInt`, and the regular-expression word test behind `\b`.
 * A Dafny `char` is a Unicode scalar value, so lengths count code points.
 */
module JsText {
  import opened Wrappers

  /** ECMAScript WhiteSpace and LineTerminator code points: the set `trim` removes. */
  predicate IsWhiteSpace(c: char) {
    c == '\t' || c == '\n' || c == '\U{000B}' || c == '\U{000C}' || c == '\r' || c == ' '
    || c == '\U{00A0}' || c == '\U{1680}' || ('\U{2000}' <= c <= '\U{200A}')
    || c == '\U{2028}' || c == '\U{2029}' || c == '\U{202F}' || c == '\U{205F}'
    || c == '\U{3000}' || c == '\U{FEFF}'
  }

  /** The line terminators, which the regular-expression `.` does not match. */
  predicate IsLineTerminator(c: char) {
    c == '\n' || c == '\r' || c == '\U{2028}' || c == '\U{2029}'
  }

  predicate AllWhiteSpace(s: string) {
    forall i :: 0 <= i < |s| ==> IsWhiteSpace(s[i])
  }

  /** The first index at or after `i` that does not hold white space. */
  function SkipForward(s: string, i: nat): (k: nat)
    requires i <= |s|
    ensures i <= k <= |s|
    ensures forall j :: i <= j < k ==> IsWhiteSpace(s[j])
    ensures k < |s| ==> !IsWhiteSpace(s[k])
    decreases |s| - i
  {
    if i < |s| && IsWhiteSpace(s[i]) then SkipForward(s, i + 1) else i
  }
  /** The last index at or before `j`, down to `lo`, not preceded by white space. */
  function SkipBackward(s: string, lo: nat, j: nat): (k: nat)
    requires lo <= j <= |s|
    ensures lo <= k <= j
    ensures forall m :: k <= m < j ==> IsWhiteSpace(s[m])
    ensures k > lo ==> !IsWhiteSpace(s[k - 1])
    decreases j
  {
    if j > lo && IsWhiteSpace(s[j - 1]) then SkipBackward(s, lo, j - 1) else j
  }
  /** `String.prototype.trimStart`. */
  function TrimStart(s: string): (r: string)
    ensures |r| <= |s| && r == s[|s| - |r|..]
    ensures AllWhiteSpace(s[..|s| - |r|])
    ensures |r| > 0 ==> !IsWhiteSpace(r[0])
  {
    s[SkipForward(s, 0)..]
  }
  /** `String.prototype.trimEnd`. */
  function TrimEnd(s: string): (r: string)
    ensures |r| <= |s| && r == s[..|r|]
    ensures AllWhiteSpace(s[|r|..])
    ensures |r| > 0 ==> !IsWhiteSpace(r[|r| - 1])
  {
    s[..SkipBackward(s, 0, |s|)]
  }
  /** `String.prototype.trim`: the text between the leading and the trailing white space. */
  function Trim(s: string): (r: string)
    ensures exists a, b :: s == a + r + b && AllWhiteSpace(a) && AllWhiteSpace(b)
    ensures |r| > 0 ==> !IsWhiteSpace(r[0]) && !IsWhiteSpace(r[|r| - 1])
    ensures r == "" <==> AllWhiteSpace(s)
  {
    var b := SkipForward(s, 0);
    var e := SkipBackward(s, b, |s|);
    assert s == s[..b] + s[b..e] + s[e..];
    assert AllWhiteSpace(s[..b]);
    assert AllWhiteSpace(s[e..]);
    s[b..e]
  }
  /** `s.startsWith(p)`. */
  predicate StartsWith(s: string, p: string) {
    |p| <= |s| && s[..|p|] == p
  }

  /** `s.includes(p)`: some suffix of `s` starts with `p`. */
  predicate Contains(s: string, p: string)
    decreases |s|
  {
    StartsWith(s, p) || (|s| > 0 && Contains(s[1..], p))
  }

  /** Whatever surrounds it, a text contains every infix of itself. */
  lemma {:induction false} ContainsInfix(a: string, p: string, b: string)
    ensures Contains(a + p + b, p)
    decreases |a|
  {
    if |a| == 0 {
      assert a + p + b == p + b;
      assert (p + b)[..|p|] == p;
    } else {
      assert (a + p + b)[1..] == a[1..] + p + b;
      ContainsInfix(a[1..], p, b);
    }
  }

  /** `toUpperCase` on one character: the ASCII letters, U+017F (long s) and
      U+0131 (dotless i), the only letters whose upper-case form is a single
      ASCII letter; every other character is kept. */
  function UpperChar(c: char): char {
    if 'a' <= c <= 'z' then (c as int - 32) as char
    else if c == '\U{017F}' then 'S'
    else if c == '\U{0131}' then 'I'
    else c
  }

  function ToUpper(s: string): (r: string)
    ensures |r| == |s|
    ensures forall i :: 0 <= i < |s| ==> r[i] == UpperChar(s[i])
  {
    seq(|s|, i requires 0 <= i < |s| => UpperChar(s[i]))
  }

  predicate IsDigit(c: char) {
    '0' <= c <= '9'
  }

  function DigitValue(c: char): (d: nat)
    requires IsDigit(c)
    ensures d < 10
  {
    c as int - '0' as int
  }

  function DigitChar(d: nat): (c: char)
    requires d < 10
    ensures IsDigit(c) && DigitValue(c) == d
  {
    ('0' as int + d) as char
  }

  predicate AllDigits(s: string) {
    forall i :: 0 <= i < |s| ==> IsDigit(s[i])
  }

  /** The value of a string of decimal digits, most significant first. */
  function DigitsValue(s: string): nat
    requires AllDigits(s)
  {
    if |s| == 0 then 0 else DigitsValue(s[..|s| - 1]) * 10 + DigitValue(s[|s| - 1])
  }

  /** The decimal text JavaScript prints for a non-negative integer. */
  function NatToDecimal(n: nat): (r: string)
    ensures |r| >= 1 && AllDigits(r)
    ensures DigitsValue(r) == n
    ensures r[0] == '0' <==> n == 0
    ensures n == 0 ==> r == "0"
  {
    if n < 10 then [DigitChar(n)]
    else
      var p := NatToDecimal(n / 10);
      var r := p + [DigitChar(n % 10)];
      assert r[..|r| - 1] == p;
      r
  }

  /** The decimal text JavaScript prints for an integer (`String(i)`, `${i}`). */
  function IntToDecimal(i: int): (r: string)
    ensures i >= 0 ==> r == NatToDecimal(i)
    ensures i < 0 ==> r == "-" + NatToDecimal(-i)
  {
    if i >= 0 then NatToDecimal(i) else "-" + NatToDecimal(-i)
  }

  /** The most significant decimal digit of a natural number. */
  function Leading(n: nat): (d: nat)
    ensures d < 10
  {
    if n < 10 then n else Leading(n / 10)
  }

  /** The first character of the decimal text is the leading digit. */
  lemma {:induction false} NatToDecimalFirst(n: nat)
    ensures NatToDecimal(n)[0] == DigitChar(Leading(n))
  {
    if n >= 10 {
      NatToDecimalFirst(n / 10);
    }
  }

  /** The leading digit of a three-digit number is its hundreds digit. */
  lemma LeadingOfThreeDigits(n: nat)
    requires 100 <= n < 1000
    ensures Leading(n) == n / 100
  {
    assert Leading(n) == Leading(n / 10);
    assert Leading(n / 10) == Leading(n / 100);
  }

  /** The longest prefix of `s` made of decimal digits. */
  function DecimalPrefix(s: string): (r: string)
    ensures AllDigits(r) && StartsWith(s, r)
    ensures |r| < |s| ==> !IsDigit(s[|r|])
    decreases |s|
  {
    if |s| > 0 && IsDigit(s[0]) then [s[0]] + DecimalPrefix(s[1..]) else ""
  }

  predicate IsHexDigit(c: char) {
    IsDigit(c) || 'a' <= c <= 'f' || 'A' <= c <= 'F'
  }

  function HexDigitValue(c: char): (d: nat)
    requires IsHexDigit(c)
    ensures d < 16
  {
    if IsDigit(c) then DigitValue(c)
    else if 'a' <= c <= 'f' then c as int - 'a' as int + 10
    else c as int - 'A' as int + 10
  }

  /** The longest prefix of `s` made of hexadecimal digits. */
  function HexPrefix(s: string): (r: string)
    ensures forall i :: 0 <= i < |r| ==> IsHexDigit(r[i])
    ensures StartsWith(s, r)
    decreases |s|
  {
    if |s| > 0 && IsHexDigit(s[0]) then [s[0]] + HexPrefix(s[1..]) else ""
  }

  function HexValue(s: string): nat
    requires forall i :: 0 <= i < |s| ==> IsHexDigit(s[i])
  {
    if |s| == 0 then 0 else HexValue(s[..|s| - 1]) * 16 + HexDigitValue(s[|s| - 1])
  }

  /** The magnitude `parseInt` reads after the sign: a `0x`/`0X` prefix selects
      hexadecimal, otherwise the longest run of decimal digits; no digit at all is NaN. */
  function ParseMagnitude(u: string): Option<nat> {
    if |u| >= 2 && u[0] == '0' && (u[1] == 'x' || u[1] == 'X') then
      var h := HexPrefix(u[2..]);
      if |h| == 0 then None else Some(HexValue(h))
    else
      var d := DecimalPrefix(u);
      if |d| == 0 then None else Some(DigitsValue(d))
  }

  /** `parseInt(s)` with no radix; `None` is NaN. */
  function ParseInt(s: string): Option<int> {
    var t := TrimStart(s);
    var signed := |t| > 0 && (t[0] == '-' || t[0] == '+');
    var u := if signed then t[1..] else t;
    match ParseMagnitude(u)
    case None => None
    case Some(m) =>
      var v: int := if signed && t[0] == '-' then -(m as int) else m;
      Some(v)
  }

  /** The longest digit prefix of a string of digits is the whole string. */
  lemma {:induction false} DecimalPrefixOfDigits(s: string)
    requires AllDigits(s)
    ensures DecimalPrefix(s) == s
    decreases |s|
  {
    if |s| > 0 {
      DecimalPrefixOfDigits(s[1..]);
    }
  }

  /** A run of digits with no superfluous leading zero reads back as its value. */
  lemma ParseMagnitudeOfDigits(d: string)
    requires |d| >= 1 && AllDigits(d)
    requires d[0] == '0' ==> |d| == 1
    ensures ParseMagnitude(d) == Some(DigitsValue(d))
  {
    DecimalPrefixOfDigits(d);
  }

  /** A text that does not begin with white space is its own `trimStart`. */
  lemma TrimStartNoLead(s: string)
    requires |s| > 0 && !IsWhiteSpace(s[0])
    ensures TrimStart(s) == s
  {
    assert SkipForward(s, 0) == 0;
  }

  /** `parseInt` of a text with no leading white space or sign is its magnitude. */
  lemma ParseIntUnsigned(s: string, m: nat)
    requires |s| > 0 && !IsWhiteSpace(s[0]) && s[0] != '-' && s[0] != '+'
    requires ParseMagnitude(s) == Some(m)
    ensures ParseInt(s) == Some(m)
  {
    TrimStartNoLead(s);
  }

  /** `parseInt` of a minus sign followed by a magnitude is its negation. */
  lemma ParseIntNegative(d: string, m: nat)
    requires ParseMagnitude(d) == Some(m)
    ensures ParseInt("-" + d) == Some(-(m as int))
  {
    var s := "-" + d;
    assert s[1..] == d;
    TrimStartNoLead(s);
  }

  /** `parseInt(String(i)) === i`: printing an integer and parsing it back is the identity. */
  lemma {:induction false} ParseIntOfDecimal(i: int)
    ensures ParseInt(IntToDecimal(i)) == Some(i)
  {
    if i >= 0 {
      var d := NatToDecimal(i);
      ParseMagnitudeOfDigits(d);
      ParseIntUnsigned(d, i);
    } else {
      var d := NatToDecimal(-i);
      ParseMagnitudeOfDigits(d);
      ParseIntNegative(d, -i);
    }
  }

  /** Characters matched by `\w` in a regular expression without the `u` flag. */
  predicate IsWordChar(c: char) {
    'a' <= c <= 'z' || 'A' <= c <= 'Z' || IsDigit(c) || c == '_'
  }

  /** `xs.join(sep)`. */
  function Join(xs: seq<string>, sep: string): string {
    if |xs| == 0 then ""
    else if |xs| == 1 then xs[0]
    else xs[0] + sep + Join(xs[1..], sep)
  }

  /** `s.split(c)[0]`: the text before the first occurrence of `c`. */
  function BeforeFirst(s: string, c: char): (r: string)
    ensures StartsWith(s, r)
    ensures forall i :: 0 <= i < |r| ==> r[i] != c
    ensures |r| < |s| ==> s[|r|] == c
    decreases |s|
  {
    if |s| == 0 || s[0] == c then "" else [s[0]] + BeforeFirst(s[1..], c)
  }
}
