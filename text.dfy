/** The string conversions Java applies when an `int` or a `boolean` is
    concatenated to a String, together with parsers that invert them. */
module Text {
  import opened Wrappers

  predicate IsDigit(c: char) {
    '0' <= c <= '9'
  }

  predicate AllDigits(s: string) {
    forall i :: 0 <= i < |s| ==> IsDigit(s[i])
  }

  function DigitValue(c: char): (d: nat)
    requires IsDigit(c)
    ensures d < 10
  {
    c as int - '0' as int
  }

  function DigitChar(d: nat): (c: char)
    requires d < 10
    ensures IsDigit(c) && DigitValue(c) == d
  {
    ('0' as int + d) as char
  }

  /** Decimal digits of `n`, most significant first. */
  function NatToString(n: nat): (s: string)
    decreases n
    ensures |s| >= 1 && AllDigits(s)
    ensures s[0] == '0' ==> n == 0  // no leading zeros
  {
    if n < 10 then [DigitChar(n)] else NatToString(n / 10) + [DigitChar(n % 10)]
  }

  /** The number a nonempty string of decimal digits denotes. */
  function DigitsValue(s: string): nat
    requires AllDigits(s)
  {
    if s == [] then 0 else 10 * DigitsValue(s[..|s| - 1]) + DigitValue(s[|s| - 1])
  }

  lemma {:induction false} DigitsValueOfNatToString(n: nat)
    ensures DigitsValue(NatToString(n)) == n
  {
    if n >= 10 {
      var s := NatToString(n);
      DigitsValueOfNatToString(n / 10);
      assert s[..|s| - 1] == NatToString(n / 10);
    }
  }

  /** Java's Integer.toString: a minus sign for negative values, then the digits. */
  function IntToString(i: int): string {
    if i < 0 then "-" + NatToString(-i) else NatToString(i)
  }

  /** Reads back a string produced by IntToString. */
  function ParseInt(s: string): Option<int> {
    if |s| >= 2 && s[0] == '-' && AllDigits(s[1..]) then Some(-(DigitsValue(s[1..]) as int))
    else if |s| >= 1 && AllDigits(s) then Some(DigitsValue(s))
    else None
  }

  lemma IntToStringRoundTrip(i: int)
    ensures ParseInt(IntToString(i)) == Some(i)
  {
    if i < 0 {
      DigitsValueOfNatToString(-i);
      assert IntToString(i)[1..] == NatToString(-i);
    } else {
      DigitsValueOfNatToString(i);
    }
  }

  predicate IsIntChar(c: char) {
    c == '-' || IsDigit(c)
  }

  /** Length of the longest prefix of `s` made of characters IntToString can produce. */
  function IntSpan(s: string): (k: nat)
    ensures k <= |s|
  {
    if s == [] || !IsIntChar(s[0]) then 0 else 1 + IntSpan(s[1..])
  }

  lemma {:induction false} IntSpanOfPrefix(x: string, t: string)
    requires forall i :: 0 <= i < |x| ==> IsIntChar(x[i])
    requires t == [] || !IsIntChar(t[0])
    ensures IntSpan(x + t) == |x|
  {
    if x != [] {
      assert (x + t)[1..] == x[1..] + t;
      IntSpanOfPrefix(x[1..], t);
    } else {
      assert x + t == t;
    }
  }

  /** The text of an int ends exactly where a non-numeric character starts. */
  lemma IntSpanOfIntToString(i: int, t: string)
    requires t == [] || !IsIntChar(t[0])
    ensures IntSpan(IntToString(i) + t) == |IntToString(i)|
  {
    IntSpanOfPrefix(IntToString(i), t);
  }

  /** Java's String.valueOf(boolean). */
  function BoolToString(b: bool): string {
    if b then "true" else "false"
  }

  /** `s` without its prefix `p`, or None when `s` does not start with `p`. */
  function StripPrefix(p: string, s: string): (r: Option<string>)
    ensures r.Some? <==> |p| <= |s| && s[..|p|] == p
    ensures r.Some? ==> s == p + r.value
  {
    if |p| <= |s| && s[..|p|] == p then Some(s[|p|..]) else None
  }

  lemma StripPrefixConcat(p: string, t: string)
    ensures StripPrefix(p, p + t) == Some(t)
  {
  }

  /** Reads a boolean written by BoolToString off the front of `s`. */
  function ParseBool(s: string): Option<(bool, string)> {
    match StripPrefix("true", s)
    case Some(rest) => Some((true, rest))
    case None =>
      match StripPrefix("false", s)
      case Some(rest) => Some((false, rest))
      case None => None
  }

  lemma BoolRoundTrip(b: bool, t: string)
    ensures ParseBool(BoolToString(b) + t) == Some((b, t))
  {
    StripPrefixConcat(BoolToString(b), t);
    if !b {
      assert ("false" + t)[0] == 'f';
    }
  }
}
