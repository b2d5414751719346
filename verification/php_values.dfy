/** The PHP scalars that reach the export helpers from a decoded progress
    record, with the three language operations the helpers apply to them:
    `empty()`, `is_numeric()` and the `(int)` cast, plus string interpolation.
    `null` is not a value here: an absent or null entry is `Option.None`. */
module PhpValues {
  import Decimal

  /** PHP_INT_MAX and PHP_INT_MIN on a 64-bit build. */
  const IntMax: int := 0x7fff_ffff_ffff_ffff
  const IntMin: int := -0x8000_0000_0000_0000

  type Int64 = n: int | IntMin <= n <= IntMax

  datatype Value = Int(i: Int64) | Str(s: string) | Bool(b: bool)

  /** PHP's `empty()` on a non-null scalar: 0, "", "0" and false. */
  predicate IsEmpty(v: Value) {
    match v
    case Int(i) => i == 0
    case Str(s) => s == "" || s == "0"
    case Bool(b) => !b
  }

  /** PHP's `is_numeric()`, restricted to integers and integer strings. */
  predicate IsNumeric(v: Value) {
    match v
    case Int(_) => true
    case Str(s) => Decimal.IsIntegerString(s)
    case Bool(_) => false
  }

  /** A string PHP's `empty()` does not reject and `is_numeric()` accepts. */
  predicate IsNumeral(v: Value) {
    v.Str? && Decimal.IsIntegerString(v.s) && v.s != "0"
  }

  /** 2^1024 - 2^970: the least magnitude of a numeral that PHP's
      string-to-double conversion rounds to infinity. */
  const DoubleOverflow: int := 0xfffffffffffffc00_0000000000000000_0000000000000000_0000000000000000_0000000000000000_0000000000000000_0000000000000000_0000000000000000_0000000000000000_0000000000000000_0000000000000000_0000000000000000_0000000000000000_0000000000000000_0000000000000000_0000000000000000

  /** The `(int)` cast of an integer string whose value is `n`. A value in the
      64-bit range is kept. A longer numeral is read as a double and capped
      at PHP_INT_MAX or PHP_INT_MIN, except that a double that overflowed to
      infinity casts to 0. */
  function StringCast(n: int): (r: Int64)
    ensures IntMin <= n <= IntMax ==> r == n
    ensures IntMax < n < DoubleOverflow ==> r == IntMax
    ensures -DoubleOverflow < n < IntMin ==> r == IntMin
    ensures n >= DoubleOverflow || n <= -DoubleOverflow ==> r == 0
  {
    if n >= DoubleOverflow || n <= -DoubleOverflow then 0
    else if n > IntMax then IntMax
    else if n < IntMin then IntMin
    else n
  }

  /** PHP's `(int)` cast of a numeric value. */
  function ToInt(v: Value): Int64
    requires IsNumeric(v)
  {
    match v
    case Int(i) => i
    case Str(s) => StringCast(Decimal.IntegerValue(s))
  }

  /** The text PHP produces when the value is interpolated into a string. */
  function ToText(v: Value): string {
    match v
    case Int(i) => Decimal.IntToDecimal(i)
    case Str(s) => s
    case Bool(b) => if b then "1" else ""
  }
}
