/** The download counter (`get_download_count`). The database query is left
    out; the model starts from the value it returns, `None` for no row. */
module Downloads {
  import opened Wrappers
  import opened PhpValues
  import Decimal

  /** The count reported for a download: 0 when the stored value is missing,
      empty or not numeric, and otherwise its `(int)` cast. */
  function DownloadCount(stored: Option<Value>): (r: Int64)
    ensures stored.None? ==> r == 0
    ensures stored.Some? && (IsEmpty(stored.value) || !IsNumeric(stored.value)) ==> r == 0
    ensures stored.Some? && stored.value.Int? ==> r == stored.value.i
    ensures stored.Some? && IsNumeral(stored.value) &&
            IntMin <= Decimal.IntegerValue(stored.value.s) <= IntMax ==>
              r == Decimal.IntegerValue(stored.value.s)
    ensures stored.Some? && IsNumeral(stored.value) &&
            IntMax < Decimal.IntegerValue(stored.value.s) < DoubleOverflow ==>
              r == IntMax
    ensures stored.Some? && IsNumeral(stored.value) &&
            -DoubleOverflow < Decimal.IntegerValue(stored.value.s) < IntMin ==>
              r == IntMin
    ensures stored.Some? && IsNumeral(stored.value) &&
            (Decimal.IntegerValue(stored.value.s) >= DoubleOverflow ||
             Decimal.IntegerValue(stored.value.s) <= -DoubleOverflow) ==>
              r == 0
  {
    match stored
    case None => 0
    case Some(v) => if IsEmpty(v) || !IsNumeric(v) then 0 else ToInt(v)
  }

  /** A count stored as the decimal text of a 64-bit integer, which is how the
      database hands it back, is reported as that integer. */
  lemma StoredCountReadsBack(n: Int64)
    ensures DownloadCount(Some(Str(Decimal.IntToDecimal(n)))) == n
  {
    Decimal.DecimalRoundTrip(n);
    Decimal.DecimalZero(n);
  }
}
