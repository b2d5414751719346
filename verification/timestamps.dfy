/** Validation of the progress timestamp before it is rendered as a date
    (`convert_timestamp_to_human_readable`). The rendering itself is a
    parameter: it depends on the server's time zone. */
module Timestamps {
  import opened Wrappers
  import opened PhpValues
  import Decimal

  /** Renders seconds since the epoch as `Y-m-d H:i:s`. */
  type DateFormatter = nat -> string

  /** The seconds value the date is rendered from, or `None` when the input
      is rejected: empty (which includes 0 and "0"), not numeric, or negative
      after the cast. */
  function ValidatedTimestamp(v: Value): (r: Option<nat>)
    ensures r.Some? ==> r.value <= IntMax
    ensures v.Int? ==> (r.Some? <==> v.i > 0) && (r.Some? ==> r.value == v.i)
    ensures v.Bool? ==> r.None?
    ensures v.Str? && !Decimal.IsIntegerString(v.s) ==> r.None?
    ensures v == Str("") || v == Str("0") ==> r.None?
    ensures IsNumeral(v) && 0 <= Decimal.IntegerValue(v.s) <= IntMax ==>
              r == Some(Decimal.IntegerValue(v.s))
    ensures IsNumeral(v) && IntMax < Decimal.IntegerValue(v.s) < DoubleOverflow ==>
              r == Some(IntMax)
    ensures IsNumeral(v) && -DoubleOverflow < Decimal.IntegerValue(v.s) < 0 ==> r.None?
    ensures IsNumeral(v) && (Decimal.IntegerValue(v.s) >= DoubleOverflow ||
                             Decimal.IntegerValue(v.s) <= -DoubleOverflow) ==>
              r == Some(0)
  {
    if IsEmpty(v) || !IsNumeric(v) then None
    else
      var n := ToInt(v);
      if n < 0 then None else Some(n)
  }

  /** The text of the `Timestamp:` line: the rendered date, or "" for a
      rejected input. */
  function ConvertTimestamp(v: Value, format: DateFormatter): (r: string)
    ensures v == Int(0) || v == Str("0") || v == Str("") ==> r == ""
    ensures v.Int? && v.i < 0 ==> r == ""
    ensures v.Int? && v.i > 0 ==> r == format(v.i)
    ensures v.Bool? ==> r == ""
    ensures v.Str? && !Decimal.IsIntegerString(v.s) ==> r == ""
    ensures IsNumeral(v) && 0 <= Decimal.IntegerValue(v.s) <= IntMax ==>
              r == format(Decimal.IntegerValue(v.s))
    ensures IsNumeral(v) && IntMax < Decimal.IntegerValue(v.s) < DoubleOverflow ==>
              r == format(IntMax)
    ensures IsNumeral(v) && -DoubleOverflow < Decimal.IntegerValue(v.s) < 0 ==> r == ""
    ensures IsNumeral(v) && (Decimal.IntegerValue(v.s) >= DoubleOverflow ||
                             Decimal.IntegerValue(v.s) <= -DoubleOverflow) ==>
              r == format(0)
  {
    match ValidatedTimestamp(v)
    case None => ""
    case Some(n) => format(n)
  }

  /** A timestamp stored as the decimal string of an in-range integer is
      treated exactly like the integer itself. */
  lemma StringTimestampAgreesWithInt(n: Int64)
    ensures ValidatedTimestamp(Str(Decimal.IntToDecimal(n))) == ValidatedTimestamp(Int(n))
  {
    Decimal.DecimalRoundTrip(n);
    Decimal.DecimalZero(n);
  }

  /** A numeric string beyond PHP_INT_MAX, but short of the double range, is
      capped by the cast, so it is rendered as the largest timestamp rather
      than rejected. */
  lemma OversizedStringTimestampSaturates(n: int)
    requires IntMax < n < DoubleOverflow
    ensures ValidatedTimestamp(Str(Decimal.IntToDecimal(n))) == Some(IntMax)
  {
    Decimal.DecimalRoundTrip(n);
    Decimal.DecimalZero(n);
  }

  /** A numeral whose double overflows to infinity, of either sign, casts to
      0 and is rendered as the epoch. */
  lemma InfiniteStringTimestampIsEpoch(n: int, format: DateFormatter)
    requires n >= DoubleOverflow || n <= -DoubleOverflow
    ensures ConvertTimestamp(Str(Decimal.IntToDecimal(n)), format) == format(0)
  {
    Decimal.DecimalRoundTrip(n);
    Decimal.DecimalZero(n);
  }

  /** Only the spellings 0 and "0" count as empty: "00" and "-0" pass the
      checks and are rendered as the epoch. */
  lemma OtherZeroSpellingsAreFormatted(format: DateFormatter)
    ensures ConvertTimestamp(Str("00"), format) == format(0)
    ensures ConvertTimestamp(Str("-0"), format) == format(0)
    ensures ConvertTimestamp(Str("0"), format) == ""
  {
    assert "00"[..1] == "0";
    assert Decimal.DigitsValue("0") == 0;
    assert Decimal.IntegerValue("00") == 0;
    assert "-0"[1..] == "0";
    assert Decimal.IntegerValue("-0") == 0;
  }
}
