/** How the engine's numbers turn into text: JavaScript's `String(x)` for integers and for
    values that are a whole number of tenths (hours are rounded to one decimal). */
module Numerals {
  import opened Wrappers

  predicate IsDigit(c: char) {
    '0' <= c <= '9'
  }

  predicate AllDigits(s: string) {
    forall i :: 0 <= i < |s| ==> IsDigit(s[i])
  }

  function DigitChar(d: nat): (c: char)
    requires d < 10
    ensures IsDigit(c)
  {
    ('0' as int + d) as char
  }

  function DigitValue(c: char): (d: nat)
    requires IsDigit(c)
    ensures d < 10
  {
    c as int - '0' as int
  }

  function Abs(x: int): nat {
    if x < 0 then -x else x
  }

  /** Decimal digits of `n`, most significant first, with no leading zero. */
  function Digits(n: nat): (r: string)
    ensures |r| >= 1 && AllDigits(r)
    ensures r[0] == '0' ==> r == "0"
    decreases n
  {
    if n < 10 then [DigitChar(n)] else Digits(n / 10) + [DigitChar(n % 10)]
  }

  /** The number a string of decimal digits denotes. */
  function DigitsValue(s: string): nat
    requires AllDigits(s)
  {
    if |s| == 0 then 0 else 10 * DigitsValue(s[..|s| - 1]) + DigitValue(s[|s| - 1])
  }

  lemma {:induction false} DigitsRoundTrip(n: nat)
    ensures DigitsValue(Digits(n)) == n
    decreases n
  {
    if n >= 10 {
      DigitsRoundTrip(n / 10);
      var r := Digits(n);
      assert r[..|r| - 1] == Digits(n / 10);
    }
  }

  /** The characters a printed number is made of. */
  predicate IsNumeralChar(c: char) {
    IsDigit(c) || c == '.' || c == '-'
  }

  predicate AllNumeral(s: string) {
    forall i :: 0 <= i < |s| ==> IsNumeralChar(s[i])
  }

  /** `String(n)` for an integer. */
  function IntString(n: int): (r: string)
    ensures |r| >= 1 && AllNumeral(r)
  {
    (if n < 0 then "-" else "") + Digits(Abs(n))
  }

  /** `String(t / 10)` for a number held as `t` tenths: `32` prints as "3.2", `40` as "4" and
      `-5` as "-0.5". */
  function TenthsString(t: int): (r: string)
    ensures |r| >= 1 && AllNumeral(r)
  {
    (if t < 0 then "-" else "")
    + Digits(Abs(t) / 10)
    + (if Abs(t) % 10 == 0 then "" else "." + [DigitChar(Abs(t) % 10)])
  }

  /** Reads a non-negative decimal with at most one fractional digit, in tenths. */
  function ParseUnsignedTenths(s: string): Option<nat> {
    if |s| >= 3 && s[|s| - 2] == '.' && IsDigit(s[|s| - 1]) && AllDigits(s[..|s| - 2]) then
      Some(10 * DigitsValue(s[..|s| - 2]) + DigitValue(s[|s| - 1]))
    else if |s| >= 1 && AllDigits(s) then
      Some(10 * DigitsValue(s))
    else
      None
  }

  /** Reads a decimal with at most one fractional digit and an optional minus sign, in tenths. */
  function ParseTenths(s: string): Option<int> {
    if |s| > 0 && s[0] == '-' then
      match ParseUnsignedTenths(s[1..])
      case Some(v) => Some(-(v as int))
      case None => None
    else
      ParseUnsignedTenths(s)
  }

  lemma UnsignedRoundTrip(u: nat)
    ensures ParseUnsignedTenths(TenthsString(u)[..]) == Some(u)
  {
    var whole := Digits(u / 10);
    DigitsRoundTrip(u / 10);
    if u % 10 == 0 {
      assert TenthsString(u) == whole;
      assert !IsDigit('.');
    } else {
      var s := whole + "." + [DigitChar(u % 10)];
      assert TenthsString(u) == s;
      assert s[..|s| - 2] == whole;
    }
  }

  /** Reading back the printed hours recovers them exactly. */
  lemma TenthsRoundTrip(t: int)
    ensures ParseTenths(TenthsString(t)) == Some(t)
  {
    UnsignedRoundTrip(Abs(t));
    var u := TenthsString(Abs(t));
    if t < 0 {
      assert TenthsString(t) == "-" + u;
      assert ("-" + u)[1..] == u;
    } else {
      assert TenthsString(t) == u;
      assert IsDigit(u[0]);
    }
  }

  /** An integer printed with `String(n)` reads back as that many whole units, in tenths. */
  lemma IntRoundTrip(n: int)
    ensures ParseTenths(IntString(n)) == Some(10 * n)
  {
    assert IntString(n) == TenthsString(10 * n) by {
      assert Abs(10 * n) / 10 == Abs(n) && Abs(10 * n) % 10 == 0;
    }
    TenthsRoundTrip(10 * n);
  }
}
