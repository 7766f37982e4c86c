/**
 * The few string conversions the JavaScript source relies on, written out:
 * `n.toString()` for integers, `parseInt(s)` without a radix,
 * `(cents / 100).toFixed(2)`, and ASCII upper-casing.
 */
module Text {
  import opened Common

  predicate IsDigit(c: char) { '0' <= c <= '9' }

  predicate AllDigits(s: string) {
    forall i :: 0 <= i < |s| ==> IsDigit(s[i])
  }

  function DigitChar(d: nat): (c: char)
    requires d < 10
    ensures IsDigit(c) && DigitValue(c) == d
  {
    (('0' as int) + d) as char
  }

  function DigitValue(c: char): (d: nat)
    requires IsDigit(c)
    ensures d < 10
  {
    (c as int) - ('0' as int)
  }

  /** Decimal rendering of a natural number: `String(n)`. */
  function NatToString(n: nat): (s: string)
    ensures |s| >= 1 && AllDigits(s)
    ensures s[0] == '0' <==> n == 0
    decreases n
  {
    if n < 10 then [DigitChar(n)] else NatToString(n / 10) + [DigitChar(n % 10)]
  }

  /** Decimal rendering of an integer, with a leading '-' when negative. */
  function IntToString(i: int): (s: string)
    ensures |s| >= 1
    ensures i >= 0 ==> s == NatToString(i)
    ensures i < 0 ==> s == "-" + NatToString(-i)
  {
    if i < 0 then "-" + NatToString(-i) else NatToString(i)
  }

  /** The value of a string of decimal digits, most significant first. */
  function DigitsValue(s: string): nat
    requires AllDigits(s)
  {
    if |s| == 0 then 0 else DigitsValue(s[..|s| - 1]) * 10 + DigitValue(s[|s| - 1])
  }

  lemma {:induction false} NatToStringRoundTrip(n: nat)
    ensures DigitsValue(NatToString(n)) == n
    decreases n
  {
    if n >= 10 {
      var s := NatToString(n);
      assert s[..|s| - 1] == NatToString(n / 10);
      NatToStringRoundTrip(n / 10);
    }
  }

  /** Distinct numbers render differently. */
  lemma NatToStringInjective(m: nat, n: nat)
    requires NatToString(m) == NatToString(n)
    ensures m == n
  {
    NatToStringRoundTrip(m);
    NatToStringRoundTrip(n);
  }

  // ---------------------------------------------------------------- parseInt

  /** The white space `parseInt` skips before the number (the Unicode space separators other than U+00A0 are not listed). */
  predicate IsJsSpace(c: char) {
    c == ' ' || c == '\t' || c == '\n' || c == '\r' || c == '\U{000B}' || c == '\U{000C}'
    || c == '\U{00A0}' || c == '\U{FEFF}' || c == '\U{2028}' || c == '\U{2029}'
  }

  function TrimStart(s: string): (t: string)
    ensures |t| <= |s| && t == s[|s| - |t|..]
    ensures |t| > 0 ==> !IsJsSpace(t[0])
  {
    if |s| > 0 && IsJsSpace(s[0]) then TrimStart(s[1..]) else s
  }

  /** Length of the longest prefix of `s` whose characters satisfy `p`. */
  function PrefixLength(s: string, p: char -> bool): (k: nat)
    ensures k <= |s|
    ensures forall i :: 0 <= i < k ==> p(s[i])
    ensures k < |s| ==> !p(s[k])
  {
    if |s| > 0 && p(s[0]) then 1 + PrefixLength(s[1..], p) else 0
  }

  predicate IsHexDigit(c: char) {
    IsDigit(c) || 'a' <= c <= 'f' || 'A' <= c <= 'F'
  }

  function HexDigitValue(c: char): nat
    requires IsHexDigit(c)
  {
    if IsDigit(c) then DigitValue(c)
    else if 'a' <= c <= 'f' then (c as int) - ('a' as int) + 10
    else (c as int) - ('A' as int) + 10
  }

  function HexValue(s: string): nat
    requires forall i :: 0 <= i < |s| ==> IsHexDigit(s[i])
  {
    if |s| == 0 then 0 else HexValue(s[..|s| - 1]) * 16 + HexDigitValue(s[|s| - 1])
  }

  /** The magnitude `parseInt` reads after the sign: a "0x" prefix switches to base 16. */
  function MagnitudePrefix(u: string): Option<nat> {
    if |u| >= 2 && u[0] == '0' && (u[1] == 'x' || u[1] == 'X') then
      var k := PrefixLength(u[2..], IsHexDigit);
      if k == 0 then None else Some(HexValue(u[2..][..k]))
    else
      var k := PrefixLength(u, IsDigit);
      if k == 0 then None else Some(DigitsValue(u[..k]))
  }

  /**
   * `parseInt(s)` with no radix: skip leading white space, read an optional
   * sign, then the longest run of digits; `None` stands for NaN.
   */
  function ParseInt(s: string): (r: Option<int>)
    ensures r.Some? ==> exists k :: 0 <= k < |s| && IsDigit(s[k])
  {
    var t := TrimStart(s);
    var neg := |t| > 0 && t[0] == '-';
    var u := if |t| > 0 && (t[0] == '-' || t[0] == '+') then t[1..] else t;
    match MagnitudePrefix(u)
    case None => None
    case Some(m) =>
      assert |u| > 0 && IsDigit(u[0]);
      assert u[0] == s[|s| - |u|];
      var v: int := m;
      Some(if neg then -v else v)
  }

  /** The decimal rendering of a number parses back to that number. */
  lemma ParseIntOfNatToString(n: nat)
    ensures ParseInt(NatToString(n)) == Some(n)
  {
    var s := NatToString(n);
    assert !IsJsSpace(s[0]) && s[0] != '-' && s[0] != '+';
    assert TrimStart(s) == s;
    DecimalMagnitude(s);
    NatToStringRoundTrip(n);
  }

  /** The same for `userId.toString()` of any integer, negative ones included. */
  lemma ParseIntOfIntToString(i: int)
    ensures ParseInt(IntToString(i)) == Some(i)
  {
    if i >= 0 {
      ParseIntOfNatToString(i);
    } else {
      var s := IntToString(i);
      var d := NatToString(-i);
      assert s[0] == '-' && !IsJsSpace(s[0]);
      assert TrimStart(s) == s;
      assert s[1..] == d;
      DecimalMagnitude(d);
      NatToStringRoundTrip(-i);
    }
  }

  lemma DecimalMagnitude(s: string)
    requires |s| >= 1 && AllDigits(s)
    ensures MagnitudePrefix(s) == Some(DigitsValue(s))
  {
    assert |s| >= 2 ==> IsDigit(s[1]) && s[1] != 'x' && s[1] != 'X';
    PrefixOfDigits(s);
    assert s[..|s|] == s;
  }

  lemma {:induction false} PrefixOfDigits(s: string)
    requires AllDigits(s)
    ensures PrefixLength(s, IsDigit) == |s|
  {
    if |s| > 0 {
      PrefixOfDigits(s[1..]);
    }
  }

  // ------------------------------------------------------------ money texts

  /**
   * `(cents / 100).toFixed(2)`: whole units, a point, two digits. For integer
   * cents below 2^53 the binary division is within half a cent of the exact
   * quotient, so the rounding in `toFixed` yields the exact text.
   */
  function FormatCents(cents: nat): (s: string)
    ensures |s| >= 4 && s[|s| - 3] == '.'
    ensures AllDigits(s[..|s| - 3]) && AllDigits(s[|s| - 2..])
  {
    NatToString(cents / 100) + "." + [DigitChar(cents % 100 / 10), DigitChar(cents % 10)]
  }

  /** Reads a "units.cc" text back as cents; the partner of `FormatCents`. */
  function ParseCents(s: string): Option<nat> {
    if |s| >= 4 && s[|s| - 3] == '.' && AllDigits(s[..|s| - 3]) && AllDigits(s[|s| - 2..]) then
      Some(DigitsValue(s[..|s| - 3]) * 100 + DigitsValue(s[|s| - 2..]))
    else None
  }

  lemma FormatCentsRoundTrip(cents: nat)
    ensures ParseCents(FormatCents(cents)) == Some(cents)
  {
    var s := FormatCents(cents);
    var whole := NatToString(cents / 100);
    var tens, units := cents % 100 / 10, cents % 10;
    var frac := [DigitChar(tens), DigitChar(units)];
    assert s == whole + "." + frac;
    assert s[..|s| - 3] == whole;
    assert s[|s| - 2..] == frac;
    TwoDigitsValue(tens, units);
    NatToStringRoundTrip(cents / 100);
    assert cents == cents / 100 * 100 + tens * 10 + units;
  }

  lemma TwoDigitsValue(tens: nat, units: nat)
    requires tens < 10 && units < 10
    ensures DigitsValue([DigitChar(tens), DigitChar(units)]) == tens * 10 + units
  {
    var frac := [DigitChar(tens), DigitChar(units)];
    var first := frac[..1];
    assert first == [DigitChar(tens)] && first[..0] == [];
    assert DigitsValue(first) == tens;
    assert DigitsValue(frac) == DigitsValue(first) * 10 + units;
  }

  // ------------------------------------------------------------- upper case

  /** `toUpperCase` restricted to ASCII: only 'a'..'z' change. */
  function UpperAscii(c: char): (u: char)
    ensures 'a' <= c <= 'z' ==> 'A' <= u <= 'Z' && u as int == c as int - 32
    ensures !('a' <= c <= 'z') ==> u == c
  {
    if 'a' <= c <= 'z' then ((c as int) - 32) as char else c
  }

  function ToUpperAscii(s: string): (u: string)
    ensures |u| == |s|
    ensures forall i :: 0 <= i < |s| ==> u[i] == UpperAscii(s[i])
  {
    seq(|s|, i requires 0 <= i < |s| => UpperAscii(s[i]))
  }

  /** `s.charAt(0).toUpperCase() + s.slice(1)`. */
  function Capitalize(s: string): (c: string)
    ensures |c| == |s|
    ensures |s| > 0 ==> c[0] == UpperAscii(s[0]) && c[1..] == s[1..]
  {
    if |s| == 0 then "" else [UpperAscii(s[0])] + s[1..]
  }
}
