/**
  `std::to_string(int)`: the decimal rendering of an integer, with a
  leading '-' for a negative value and no leading zeros.
 */
module Decimal {

  predicate IsDigit(c: char) {
    '0' <= c <= '9'
  }

  function DigitChar(d: nat): (c: char)
    requires d < 10
    ensures IsDigit(c)
  {
    (48 + d) as char
  }

  function DigitValue(c: char): (d: nat)
    requires IsDigit(c)
    ensures d < 10
  {
    (c as int) - 48
  }

  predicate AllDigits(s: string) {
    forall i :: 0 <= i < |s| ==> IsDigit(s[i])
  }

  /** The decimal digits of n, most significant first: at least one digit,
      and a leading '0' only for zero itself. */
  function NatToString(n: nat): (s: string)
    ensures |s| >= 1
    ensures s[0] == '0' <==> n == 0
    decreases n
  {
    if n < 10 then [DigitChar(n)] else NatToString(n / 10) + [DigitChar(n % 10)]
  }

  /** `std::to_string` on an `int`. */
  function ToString(n: int): string {
    if n < 0 then "-" + NatToString(-n) else NatToString(n)
  }

  /** Every character of the rendering is a decimal digit. */
  lemma {:induction false} NatToStringDigits(n: nat)
    ensures AllDigits(NatToString(n))
    decreases n
  {
    if n >= 10 {
      NatToStringDigits(n / 10);
    }
  }

  /** The value of a string of decimal digits, most significant first. */
  function ParseNat(s: string): nat
    requires AllDigits(s)
    decreases |s|
  {
    if s == [] then 0 else 10 * ParseNat(s[..|s| - 1]) + DigitValue(s[|s| - 1])
  }

  /** Reading the rendering back gives the number: the rendering loses nothing. */
  lemma {:induction false} ParseNatToString(n: nat)
    ensures AllDigits(NatToString(n)) && ParseNat(NatToString(n)) == n
    decreases n
  {
    NatToStringDigits(n);
    if n >= 10 {
      var s := NatToString(n);
      assert s[..|s| - 1] == NatToString(n / 10);
      ParseNatToString(n / 10);
    }
  }

  /** `to_string` of a non-negative value is digits alone; of a negative one,
      a '-' and then digits that read back to its magnitude. */
  lemma ToStringSign(n: int)
    ensures n >= 0 ==> AllDigits(ToString(n)) && ParseNat(ToString(n)) == n
    ensures n < 0 ==> |ToString(n)| >= 2 && ToString(n)[0] == '-'
    ensures n < 0 ==> AllDigits(ToString(n)[1..]) && ParseNat(ToString(n)[1..]) == -n
  {
    ParseNatToString(if n < 0 then -n else n);
    if n < 0 {
      assert ToString(n)[1..] == NatToString(-n);
    }
  }

  /** A decimal integer: an optional '-' followed by at least one digit. */
  predicate IsDecimal(s: string) {
    if |s| > 0 && s[0] == '-' then |s| >= 2 && AllDigits(s[1..]) else |s| >= 1 && AllDigits(s)
  }

  /** The value of a decimal integer. */
  function ParseInt(s: string): int
    requires IsDecimal(s)
  {
    if s[0] == '-' then -(ParseNat(s[1..]) as int) else ParseNat(s)
  }

  /** Every `int` renders as a decimal integer that reads back to it. */
  lemma ParseIntToString(n: int)
    ensures IsDecimal(ToString(n)) && ParseInt(ToString(n)) == n
  {
    ToStringSign(n);
    if n >= 0 {
      assert ToString(n)[0] != '-' by {
        NatToStringDigits(n);
      }
    }
  }
}
