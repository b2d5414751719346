/** Decimal text of integers: the rendering PHP uses when an integer is
    interpolated into a string, and the integer numeric strings it parses back. */
module Decimal {

  predicate IsDigit(c: char) {
    '0' <= c <= '9'
  }

  predicate AllDigits(s: string) {
    forall i :: 0 <= i < |s| ==> IsDigit(s[i])
  }

  function DigitChar(d: nat): (c: char)
    requires d < 10
    ensures IsDigit(c)
    ensures c as int - '0' as int == d
  {
    ('0' as int + d) as char
  }

  /** The digits of `n`, most significant first. */
  function NatToDigits(n: nat): (s: string)
    ensures |s| > 0 && AllDigits(s)
    ensures s[0] == '0' ==> n == 0
    decreases n
  {
    if n < 10 then [DigitChar(n)] else NatToDigits(n / 10) + [DigitChar(n % 10)]
  }

  /** The value of a run of digits, 0 for the empty run; leading zeros are
      allowed. */
  function DigitsValue(s: string): nat
    requires AllDigits(s)
  {
    if s == [] then 0
    else 10 * DigitsValue(s[..|s| - 1]) + (s[|s| - 1] as int - '0' as int)
  }

  /** An integer rendered as text: a minus sign for negatives, then the digits. */
  function IntToDecimal(n: int): (s: string)
    ensures |s| > 0
    ensures s[0] == '-' <==> n < 0
  {
    if n < 0 then "-" + NatToDigits(-n) else NatToDigits(n)
  }

  /** An integer numeric string: an optional sign followed by at least one digit. */
  predicate IsIntegerString(s: string) {
    if |s| > 0 && (s[0] == '-' || s[0] == '+') then |s| > 1 && AllDigits(s[1..])
    else |s| > 0 && AllDigits(s)
  }

  /** The mathematical value of an integer numeric string. */
  function IntegerValue(s: string): int
    requires IsIntegerString(s)
  {
    if s[0] == '-' then -(DigitsValue(s[1..]) as int)
    else if s[0] == '+' then DigitsValue(s[1..])
    else DigitsValue(s)
  }

  lemma {:induction false} DigitsRoundTrip(n: nat)
    ensures DigitsValue(NatToDigits(n)) == n
  {
    if n >= 10 {
      var s := NatToDigits(n);
      DigitsRoundTrip(n / 10);
      assert s[..|s| - 1] == NatToDigits(n / 10);
    }
  }

  /** Reading back the decimal text of an integer gives the integer. */
  lemma DecimalRoundTrip(n: int)
    ensures IsIntegerString(IntToDecimal(n))
    ensures IntegerValue(IntToDecimal(n)) == n
  {
    if n < 0 {
      DigitsRoundTrip(-n);
      assert IntToDecimal(n)[1..] == NatToDigits(-n);
    } else {
      DigitsRoundTrip(n);
    }
  }

  /** The text `"0"` is the rendering of zero and of nothing else. */
  lemma DecimalZero(n: int)
    ensures IntToDecimal(n) == "0" <==> n == 0
  {
    if IntToDecimal(n) == "0" {
      DecimalRoundTrip(n);
      assert IntegerValue("0") == 0;
    }
  }
}
