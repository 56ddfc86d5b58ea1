/**
 * Java's `String.valueOf(int)`: the decimal rendering of an integer, with a leading '-' for a
 * negative one and no leading zeros. Its partner is the value a decimal string denotes, and the
 * rendering is proved to give that value back.
 */
module JavaDecimal {

  predicate IsDigit(c: char) {
    '0' <= c <= '9'
  }

  predicate AllDigits(s: string) {
    forall i :: 0 <= i < |s| ==> IsDigit(s[i])
  }

  function DigitValue(c: char): (d: nat)
    requires IsDigit(c)
    ensures d < 10
  {
    c as int - '0' as int
  }

  function DigitChar(d: nat): (c: char)
    requires d < 10
    ensures IsDigit(c) && DigitValue(c) == d
  {
    ('0' as int + d) as char
  }

  /** The digits of `n`, most significant first. */
  function NatDecimal(n: nat): (r: string)
    ensures |r| >= 1 && AllDigits(r)
    ensures r[0] == '0' <==> n == 0
    ensures n < 10 <==> |r| == 1
  {
    if n < 10 then [DigitChar(n)] else NatDecimal(n / 10) + [DigitChar(n % 10)]
  }

  /** `String.valueOf(i)`. */
  function Decimal(i: int): (r: string)
    ensures |r| >= 1
    ensures r[0] == '-' <==> i < 0
    ensures i >= 0 ==> AllDigits(r) && (r[0] == '0' <==> i == 0)
    ensures i < 0 ==> |r| >= 2 && AllDigits(r[1..]) && r[1] != '0'
  {
    if i < 0 then "-" + NatDecimal(-i) else NatDecimal(i)
  }

  /** The number a string of digits denotes. */
  function DigitsValue(s: string): nat
    requires AllDigits(s)
  {
    if s == [] then 0 else 10 * DigitsValue(s[..|s| - 1]) + DigitValue(s[|s| - 1])
  }

  /** The integer a rendering denotes: an optional '-' followed by digits. */
  function DecimalValue(s: string): int
    requires |s| >= 1
    requires s[0] == '-' ==> AllDigits(s[1..])
    requires s[0] != '-' ==> AllDigits(s)
  {
    if s[0] == '-' then 0 - DigitsValue(s[1..]) as int else DigitsValue(s)
  }

  lemma {:induction false} NatDecimalValue(n: nat)
    ensures DigitsValue(NatDecimal(n)) == n
  {
    if n >= 10 {
      var r := NatDecimal(n);
      assert r[..|r| - 1] == NatDecimal(n / 10);
      NatDecimalValue(n / 10);
    }
  }

  /** The rendering loses nothing: reading it back gives the integer. */
  lemma {:induction false} DecimalRoundTrip(i: int)
    ensures DecimalValue(Decimal(i)) == i
  {
    var r := Decimal(i);
    if i < 0 {
      var digits := NatDecimal(-i);
      assert r == "-" + digits;
      assert r[1..] == digits;
      NatDecimalValue(-i);
      assert DecimalValue(r) == 0 - DigitsValue(digits) as int;
    } else {
      assert r == NatDecimal(i);
      NatDecimalValue(i);
    }
  }

  /** Distinct integers have distinct renderings. */
  lemma {:induction false} DecimalInjective(i: int, j: int)
    ensures Decimal(i) == Decimal(j) ==> i == j
  {
    DecimalRoundTrip(i);
    DecimalRoundTrip(j);
  }
}
