/** Decimal rendering of a non-negative integer, together with the parser
    that inverts it. For whole numbers below 10^21 this is what JavaScript
    writes for a number inside a template literal; larger, negative and
    fractional numbers are outside the model. */
module Decimal {

  predicate IsDigit(c: char) {
    '0' <= c <= '9'
  }

  predicate AllDigits(s: string) {
    forall i :: 0 <= i < |s| ==> IsDigit(s[i])
  }

  /** Non-empty, only digits, and no leading zero unless the number is 0. */
  predicate Canonical(s: string) {
    |s| >= 1 && AllDigits(s) && (|s| > 1 ==> s[0] != '0')
  }

  function DigitChar(d: nat): (c: char)
    requires d < 10
    ensures IsDigit(c)
  {
    (('0' as int) + d) as char
  }

  function DigitValue(c: char): (d: nat)
    requires IsDigit(c)
    ensures d < 10
    ensures DigitChar(d) == c
  {
    (c as int) - ('0' as int)
  }

  /** The characters of `n` written in base ten. */
  function DecimalString(n: nat): (s: string)
    ensures Canonical(s)
    ensures n < 10 <==> |s| == 1
  {
    if n < 10 then [DigitChar(n)]
    else DecimalString(n / 10) + [DigitChar(n % 10)]
  }

  /** The value of a string of digits read in base ten. */
  function ParseDecimal(s: string): nat
    requires AllDigits(s)
  {
    if s == [] then 0
    else ParseDecimal(s[..|s| - 1]) * 10 + DigitValue(s[|s| - 1])
  }

  /** Reading back what was written gives the number again. */
  lemma {:induction false} ParseDecimalString(n: nat)
    ensures ParseDecimal(DecimalString(n)) == n
  {
    var s := DecimalString(n);
    if n >= 10 {
      ParseDecimalString(n / 10);
      assert s[..|s| - 1] == DecimalString(n / 10);
      assert DigitValue(s[|s| - 1]) == n % 10;
    }
  }

  /** Different numbers are written differently. */
  lemma DecimalStringInjective(m: nat, n: nat)
    requires DecimalString(m) == DecimalString(n)
    ensures m == n
  {
    ParseDecimalString(m);
    ParseDecimalString(n);
  }

  lemma {:induction false} CanonicalIsPositive(s: string)
    requires Canonical(s) && s[0] != '0'
    ensures ParseDecimal(s) >= 1
  {
    if |s| > 1 {
      CanonicalIsPositive(s[..|s| - 1]);
    }
  }

  /** Writing back what was read gives the string again, for every
      canonical string of digits. */
  lemma {:induction false} DecimalStringOfParse(s: string)
    requires Canonical(s)
    ensures DecimalString(ParseDecimal(s)) == s
  {
    var n := ParseDecimal(s);
    var d := DigitValue(s[|s| - 1]);
    if |s| == 1 {
      assert n == d;
    } else {
      var prefix := s[..|s| - 1];
      CanonicalIsPositive(prefix);
      DecimalStringOfParse(prefix);
      assert n == ParseDecimal(prefix) * 10 + d;
      assert n / 10 == ParseDecimal(prefix) && n % 10 == d;
      assert s == prefix + [s[|s| - 1]];
    }
  }
}
