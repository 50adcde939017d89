/** Column data types and modes, attribute keys, the values an application
    hands to a column, and the exact arithmetic behind `size`. */
module DataTypes {

  /** DataType. Both DOUBLE (used by the H2 driver) and FLOAT (used by
      DBTableColumn.validate) appear in the modelled sources. */
  datatype DataType =
    | Unknown | Integer | AutoInc | Text | Date | DateTime | Char
    | Double | Float | Decimal | Bool | Clob | Blob | UniqueId
  {
    /** DataType.isText(): the character based types. */
    predicate IsText() { this == Text || this == Char || this == Clob }
  }

  datatype DataMode = Nullable | NotNull | ReadOnly | AutoGenerated

  /** The attribute keys of a column that the modelled code reads or writes. */
  datatype Attr =
    | SingleByteChars
    | ReadOnlyFlag
    | MinValue
    | MaxValue
    | DateTimePattern
    | CustomAttr(key: string)

  /** java.math.BigDecimal: unscaled * 10^(-scale). A Long is a
      BigDecimal of scale 0. */
  datatype BigDecimal = BigDecimal(unscaled: int, scale: int)

  /** The Java objects a column value or a default value can be. */
  datatype Value =
    | NullValue
    | StrValue(s: string)
    | NumValue(n: BigDecimal)
    | BoolValue(b: bool)
    | DateValue(millis: int)
    | SysDate
    | OtherValue(id: int)

  function Abs(x: real): (r: real)
    ensures r >= 0.0 && (r == x || r == -x)
  {
    if x < 0.0 then -x else x
  }

  function AbsInt(x: int): (r: int)
    ensures r >= 0 && (r == x || r == -x)
  {
    if x < 0 then -x else x
  }

  /** The Java cast (int) or (long) of a double, on exact reals: truncation
      toward zero (the cast's saturation at the type's range is not modelled). */
  function JavaInt(x: real): (r: int)
    ensures x >= 0.0 ==> r >= 0 && r as real <= x < r as real + 1.0
    ensures x < 0.0 ==> r <= 0 && r as real - 1.0 < x <= r as real
  {
    if x >= 0.0 then x.Floor else -((-x).Floor)
  }

  function Pow10(n: nat): (r: nat)
    ensures r >= 1
  {
    if n == 0 then 1 else 10 * Pow10(n - 1)
  }

  /** Integer division truncating toward zero, as Java's. */
  function TruncDiv(a: int, b: nat): int
    requires b > 0
  {
    if a >= 0 then a / b else -((-a) / b)
  }

  /** BigDecimal.longValue(): the integral part, truncated toward zero (the
      reduction to 64 bits is not modelled). */
  function LongValue(n: BigDecimal): int
  {
    if n.scale >= 0 then TruncDiv(n.unscaled, Pow10(n.scale))
    else n.unscaled * Pow10(-n.scale)
  }

  /** The number of decimal digits of n (1 for 0). */
  function DigitCount(n: nat): (d: nat)
    ensures d >= 1
    ensures Pow10(d - 1) <= n || (n == 0 && d == 1)
    ensures n < Pow10(d)
  {
    if n < 10 then 1 else 1 + DigitCount(n / 10)
  }

  /** BigDecimal.precision(): the number of digits of the unscaled value. */
  function Precision(n: BigDecimal): nat
  {
    DigitCount(AbsInt(n.unscaled))
  }

  /** The declared precision of a DECIMAL column: the whole part of size. */
  function SizePrecision(size: real): int
  {
    JavaInt(size)
  }

  /** The declared scale that setSize derives from size: the truncated tenths. */
  function SizeScale(size: real): int
  {
    JavaInt(size * 10.0) - JavaInt(size) * 10
  }

  /** For a size written with at most one decimal, k/10, the whole part is
      k div 10 and the scale setSize stores is the tenths digit k mod 10. */
  lemma SizeScaleOfTenths(k: nat)
    ensures SizePrecision(k as real / 10.0) == k / 10
    ensures SizeScale(k as real / 10.0) == k % 10
  {
    var size := k as real / 10.0;
    var q, d := k / 10, k % 10;
    assert size == q as real + d as real / 10.0;
    assert JavaInt(size) == q;
    assert size * 10.0 == k as real;
    assert JavaInt(size * 10.0) == k;
  }
}
