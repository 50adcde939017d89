/** DBTableColumn: the metadata of one table column, its guarded setters and
    the validation of application values against it. */
module TableColumn {
  import opened Wrappers
  import opened DataTypes
  import opened Strings
  import opened Schema

  /** Library code that validation calls and that is not part of this model:
      conversions of ObjectUtils, Object.toString() and SimpleDateFormat. */
  datatype Env = Env(
    text: Value -> string,                       // toString() of a value that is not a String
    toDecimal: Value -> Option<BigDecimal>,      // ObjectUtils.toDecimal; None: NumberFormatException
    toDouble: Value -> Option<BigDecimal>,       // ObjectUtils.toDouble; None: NumberFormatException
    toLong: Value -> Option<int>,                // ObjectUtils.toLong; None: NumberFormatException
    getLong: Value -> int,                       // ObjectUtils.getLong of a value that is not a Number
    getBoolean: Value -> bool,                   // ObjectUtils.getBoolean of a value that is not a Boolean
    parseDate: (string, string) -> Option<int>)  // lenient SimpleDateFormat(pattern).parse(text)

  /** value.toString(): a String is its own text. */
  function ValueText(env: Env, v: Value): string
  {
    match v
    case StrValue(s) => s
    case _ => env.text(v)
  }

  /** ObjectUtils.isEmpty: null or the empty string. */
  predicate IsEmptyValue(v: Value)
  {
    v == NullValue || v == StrValue("")
  }

  /** ObjectUtils.getLong: a Number's longValue(), otherwise the library conversion. */
  function GetLong(env: Env, v: Value): int
  {
    if v.NumValue? then LongValue(v.n) else env.getLong(v)
  }

  /** ObjectUtils.getBoolean: a Boolean's value, otherwise the library conversion. */
  function GetBoolean(env: Env, v: Value): bool
  {
    if v.BoolValue? then v.b else env.getBoolean(v)
  }

  const DefaultDateTimePattern: string := "yyyy-MM-dd HH:mm:ss"

  /** The date pattern actually used to parse text: the time part (from the
      first space on) is cut off when the column is a pure DATE or the text
      has at most 12 characters, provided the pattern has a space that is not
      its first character. */
  function DatePattern(dataType: DataType, text: string, pattern: string): (p: string)
    ensures StartsWith(pattern, p)
    ensures p != pattern <==>
              (dataType == Date || |text| <= 12) && ' ' in pattern && pattern[0] != ' '
    ensures p != pattern ==> |p| > 0 && pattern[|p|] == ' ' && ' ' !in p
  {
    var sp := IndexOf(pattern, ' ');
    if (dataType == Date || |text| <= 12) && sp > 0 then pattern[..sp] else pattern
  }

  /** The data mode after the constructor's normalisation: AUTOINC columns
      are always auto-generated. */
  function NormalizedMode(t: DataType, m: DataMode): (r: DataMode)
    ensures t == AutoInc ==> r == AutoGenerated
    ensures t != AutoInc ==> r == m
  {
    if t == AutoInc && m != AutoGenerated then AutoGenerated else m
  }

  /** The data type after the constructor's normalisation: an auto-generated
      INTEGER becomes AUTOINC. */
  function NormalizedType(t: DataType, m: DataMode): (r: DataType)
    ensures r == AutoInc <==> t == AutoInc || (t == Integer && m == AutoGenerated)
    ensures r == AutoInc ==> NormalizedMode(t, m) == AutoGenerated
    ensures !(r == Integer && NormalizedMode(t, m) == AutoGenerated)
    ensures r != t ==> t == Integer && r == AutoInc
  {
    if t == Integer && NormalizedMode(t, m) == AutoGenerated then AutoInc else t
  }

  class DBTableColumn {
    const name: string
    /** The name of the owning table, if the column was added to one. */
    const rowset: Option<string>
    const dataType: DataType
    var size: real
    var dataMode: DataMode
    var defValue: Value
    var decimalScale: int
    var attributes: map<Attr, Value>

    /** What every constructed column keeps: a non-negative size and the
        AUTOINC / AutoGenerated normalisation. */
    ghost predicate Valid()
      reads this
    {
      && size >= 0.0
      && (dataType == AutoInc ==> dataMode == AutoGenerated)
      && !(dataType == Integer && dataMode == AutoGenerated)
    }

    /** The first part of the source's constructor, before setSize. */
    constructor (table: Option<string>, t: DataType, name: string, mode: DataMode, defValue: Value)
      ensures this.name == name && rowset == table
      ensures dataType == NormalizedType(t, mode) && dataMode == NormalizedMode(t, mode)
      ensures this.defValue == defValue && size == 0.0 && decimalScale == 0 && attributes == map[]
      ensures Valid()
    {
      var m := mode;
      var ty := t;
      if ty == AutoInc && m != AutoGenerated {
        m := AutoGenerated;
      }
      if ty == Integer && m == AutoGenerated {
        ty := AutoInc;
      }
      this.name := name;
      rowset := table;
      dataType := ty;
      dataMode := m;
      this.defValue := defValue;
      size := 0.0;
      decimalScale := 0;
      attributes := map[];
    }

    /** The source's constructor: normalise type and mode, then setSize,
        whose exception the constructor passes on. */
    static method Create(table: Option<string>, t: DataType, name: string, size: real,
                         mode: DataMode, defValue: Value)
      returns (r: Result<DBTableColumn>)
      ensures r.Failure? <==> size < 0.0 && !NormalizedType(t, mode).IsText()
      ensures r.Failure? ==> r.error == InvalidArgument("size")
      ensures r.Success? ==>
        && fresh(r.value) && r.value.Valid()
        && r.value.name == name && r.value.rowset == table
        && r.value.dataType == NormalizedType(t, mode)
        && r.value.dataMode == NormalizedMode(t, mode)
        && r.value.defValue == defValue
        && r.value.size == Abs(size)
        && r.value.decimalScale == (if r.value.dataType == Decimal then SizeScale(Abs(size)) else 0)
        && r.value.attributes == (if size < 0.0 then map[SingleByteChars := BoolValue(true)] else map[])
    {
      var c := new DBTableColumn(table, t, name, mode, defValue);
      var o := c.SetSize(size);
      if o.Fail? {
        r := Failure(o.error);
      } else {
        r := Success(c);
      }
    }

    /** What the generator reads of this column. */
    function Spec(): ColumnSpec
      reads this
    {
      ColumnSpec(name, dataType, size, dataMode, defValue)
    }

    /** isRequired(): the NotNull mode, which excludes auto-generation. */
    predicate IsRequired()
      reads this
      ensures IsRequired() ==> !IsAutoGenerated()
      ensures Valid() && IsRequired() ==> dataType != AutoInc
    {
      Spec().IsRequired()
    }

    /** isAutoGenerated(): the AutoGenerated mode, which every AUTOINC column has. */
    predicate IsAutoGenerated()
      reads this
      ensures Valid() && dataType == AutoInc ==> IsAutoGenerated()
    {
      Spec().IsAutoGenerated()
    }

    /** isReadOnly(): the READONLY attribute, or a ReadOnly or AutoGenerated mode. */
    predicate IsReadOnly()
      reads this
      ensures ReadOnlyFlag in attributes ==> IsReadOnly()
      ensures IsAutoGenerated() ==> IsReadOnly()
      ensures !IsReadOnly() ==> dataMode == Nullable || dataMode == NotNull
    {
      ReadOnlyFlag in attributes || dataMode == ReadOnly || dataMode == AutoGenerated
    }

    /** isSingleByteChars(): the SINGLEBYTECHARS attribute, read as a boolean;
        false when it is absent. */
    predicate IsSingleByteChars(env: Env)
      reads this
      ensures IsSingleByteChars(env) ==> SingleByteChars in attributes
      ensures forall b: bool ::
                SingleByteChars in attributes && attributes[SingleByteChars] == BoolValue(b) ==>
                  (IsSingleByteChars(env) <==> b)
    {
      SingleByteChars in attributes && GetBoolean(env, attributes[SingleByteChars])
    }

    /** setSize: a negative size is allowed for text columns only, where it
        marks the column single-byte; the stored size is its absolute value
        and a DECIMAL column takes its scale from the tenths. */
    method SetSize(newSize: real) returns (r: Outcome)
      requires Valid()
      modifies this
      ensures Valid()
      ensures r == (if newSize < 0.0 && !dataType.IsText() then Fail(InvalidArgument("size")) else Ok)
      ensures r.Fail? ==> unchanged(this)
      ensures r.Ok? ==> size == Abs(newSize)
      ensures r.Ok? ==> attributes == (if newSize < 0.0
                                       then old(attributes)[SingleByteChars := BoolValue(true)]
                                       else old(attributes) - {SingleByteChars})
      ensures r.Ok? ==> decimalScale == (if dataType == Decimal then SizeScale(Abs(newSize))
                                         else old(decimalScale))
      ensures dataMode == old(dataMode) && defValue == old(defValue)
    {
      var s := newSize;
      if s < 0.0 {
        if dataType.IsText() {
          attributes := attributes[SingleByteChars := BoolValue(true)];
        } else {
          return Fail(InvalidArgument("size"));
        }
        s := Abs(s);
      } else if SingleByteChars in attributes {
        attributes := attributes - {SingleByteChars};
      }
      size := s;
      if dataType == Decimal {
        var reqPrec := JavaInt(s);
        decimalScale := JavaInt(s * 10.0) - reqPrec * 10;
      }
      r := Ok;
    }

    method SetDecimalScale(scale: int) returns (r: Outcome)
      requires Valid()
      modifies this
      ensures Valid()
      ensures r == (if dataType != Decimal then Fail(NotSupported("setDecimalScale")) else Ok)
      ensures decimalScale == (if r.Ok? then scale else old(decimalScale))
      ensures size == old(size) && dataMode == old(dataMode) && defValue == old(defValue)
      ensures attributes == old(attributes)
    {
      if dataType != Decimal {
        return Fail(NotSupported("setDecimalScale"));
      }
      decimalScale := scale;
      r := Ok;
    }

    /** setRequired: refused on auto-generated columns, otherwise the mode
        becomes NotNull or Nullable. */
    method SetRequired(required: bool) returns (r: Outcome)
      requires Valid()
      modifies this
      ensures Valid()
      ensures r == (if old(dataMode) == AutoGenerated then Fail(PropertyReadOnly("required")) else Ok)
      ensures r.Fail? ==> dataMode == old(dataMode)
      ensures r.Ok? ==> IsRequired() == required
      ensures r.Ok? ==> dataMode == (if required then NotNull else Nullable)
      ensures size == old(size) && decimalScale == old(decimalScale) && defValue == old(defValue)
      ensures attributes == old(attributes)
    {
      if IsAutoGenerated() {
        return Fail(PropertyReadOnly("required"));
      }
      dataMode := if required then NotNull else Nullable;
      r := Ok;
    }

    method SetReadOnly(readOnly: bool)
      requires Valid()
      modifies this
      ensures Valid()
      ensures attributes == (if readOnly then old(attributes)[ReadOnlyFlag := BoolValue(true)]
                             else old(attributes) - {ReadOnlyFlag})
      ensures IsReadOnly() == (readOnly || dataMode == ReadOnly || dataMode == AutoGenerated)
      ensures size == old(size) && decimalScale == old(decimalScale)
      ensures dataMode == old(dataMode) && defValue == old(defValue)
    {
      if readOnly {
        attributes := attributes[ReadOnlyFlag := BoolValue(true)];
      } else {
        attributes := attributes - {ReadOnlyFlag};
      }
    }

    method SetSingleByteChars(singleByteChars: bool) returns (r: Outcome)
      requires Valid()
      modifies this
      ensures Valid()
      ensures r == (if !dataType.IsText() then Fail(NotSupported("setSingleByteChars")) else Ok)
      ensures attributes == (if r.Ok? then old(attributes)[SingleByteChars := BoolValue(singleByteChars)]
                             else old(attributes))
      ensures r.Ok? ==> forall env: Env :: IsSingleByteChars(env) == singleByteChars
      ensures size == old(size) && decimalScale == old(decimalScale)
      ensures dataMode == old(dataMode) && defValue == old(defValue)
    {
      if !dataType.IsText() {
        return Fail(NotSupported("setSingleByteChars"));
      }
      attributes := attributes[SingleByteChars := BoolValue(singleByteChars)];
      r := Ok;
    }

    /** getRecordDefaultValue, where autoValue stands for the value the
        driver would produce over the connection. */
    function GetRecordDefaultValue(hasConnection: bool, autoValue: Value): (r: Value)
      reads this
      ensures !IsAutoGenerated() || rowset.None? ==> r == defValue
      ensures IsAutoGenerated() && rowset.Some? ==> r == (if hasConnection then autoValue else NullValue)
    {
      if rowset.None? then defValue
      else if IsAutoGenerated() then (if !hasConnection then NullValue else autoValue)
      else defValue
    }

    /** getSequenceName: the default value's text, or else the qualified
        column name. */
    function GetSequenceName(env: Env): (r: string)
      reads this
      ensures defValue != NullValue ==> r == ValueText(env, defValue)
      ensures defValue == NullValue && rowset.Some? ==> r == rowset.value + "." + name
      ensures defValue == NullValue && rowset.None? ==> r == name
    {
      if defValue != NullValue then ValueText(env, defValue)
      else if rowset.Some? then rowset.value + "." + name
      else name
    }

    /** A bound attribute (MINVALUE or MAXVALUE) as a long, when it is set. */
    function Bound(env: Env, a: Attr): Option<int>
      reads this
    {
      if a in attributes && attributes[a] != NullValue then Some(GetLong(env, attributes[a])) else None
    }

    /** The value's long representation lies within every bound that is set. */
    predicate InBounds(env: Env, lv: int)
      reads this
    {
      && (Bound(env, MinValue).Some? ==> Bound(env, MinValue).value <= lv)
      && (Bound(env, MaxValue).Some? ==> lv <= Bound(env, MaxValue).value)
    }

    /** A decimal value has no more integer digits and no more decimals than
        the column declares. */
    predicate DecimalFits(n: BigDecimal)
      reads this
    {
      Precision(n) - n.scale <= SizePrecision(size) - decimalScale && n.scale <= decimalScale
    }

    /** validateNumber: range check of the long value against the bounds that
        are set, then precision and scale for DECIMAL. */
    function ValidateNumber(env: Env, t: DataType, n: BigDecimal): (r: Outcome)
      reads this
      ensures r.Ok? <==> InBounds(env, LongValue(n)) && (t == Decimal ==> DecimalFits(n))
      ensures r.Fail? ==> r.error.FieldValueOutOfRange? && r.error.column == name
      ensures Bound(env, MinValue).Some? && Bound(env, MaxValue).Some? && !InBounds(env, LongValue(n))
              ==> r == Fail(FieldValueOutOfRange(name, OutsideRange(Bound(env, MinValue).value,
                                                                     Bound(env, MaxValue).value)))
      ensures Bound(env, MinValue).Some? && Bound(env, MaxValue).None? && !InBounds(env, LongValue(n))
              ==> r == Fail(FieldValueOutOfRange(name, BelowMin(Bound(env, MinValue).value)))
      ensures Bound(env, MinValue).None? && Bound(env, MaxValue).Some? && !InBounds(env, LongValue(n))
              ==> r == Fail(FieldValueOutOfRange(name, AboveMax(Bound(env, MaxValue).value)))
      ensures InBounds(env, LongValue(n)) && t == Decimal && !DecimalFits(n)
              ==> r == Fail(FieldValueOutOfRange(name, PrecisionScale))
    {
      var min := Bound(env, MinValue);
      var max := Bound(env, MaxValue);
      var lv := LongValue(n);
      if min.Some? && max.Some? && (lv < min.value || lv > max.value) then
        Fail(FieldValueOutOfRange(name, OutsideRange(min.value, max.value)))
      else if min.Some? && max.None? && lv < min.value then
        Fail(FieldValueOutOfRange(name, BelowMin(min.value)))
      else if min.None? && max.Some? && lv > max.value then
        Fail(FieldValueOutOfRange(name, AboveMax(max.value)))
      else if t == Decimal then
        var prec := Precision(n);
        var scale := n.scale;
        var reqPrec := JavaInt(size);
        var reqScale := decimalScale;
        if (prec - scale) > (reqPrec - reqScale) || scale > reqScale then
          Fail(FieldValueOutOfRange(name, PrecisionScale))
        else Ok
      else Ok
    }

    /** The date/time pattern attribute, or the default pattern. */
    function ConfiguredPattern(env: Env): string
      reads this
    {
      if DateTimePattern in attributes && attributes[DateTimePattern] != NullValue
         && ValueText(env, attributes[DateTimePattern]) != ""
      then ValueText(env, attributes[DateTimePattern])
      else DefaultDateTimePattern
    }

    /** The DATE/DATETIME branch of validate. */
    function ValidateDate(env: Env, value: Value): Result<Value>
      reads this
    {
      if value == NullValue || value.DateValue? || value == SysDate then Success(value)
      else
        var text := ValueText(env, value);
        if |text| == 0 then Success(NullValue)
        else
          var pattern := DatePattern(dataType, text, ConfiguredPattern(env));
          match env.parseDate(pattern, text)
          case None => Failure(FieldIllegalValue(name, text))
          case Some(d) => Success(DateValue(d))
    }

    /** The DECIMAL, FLOAT and INTEGER branches of validate, with the
        conversion each of them applies to a value that is not a Number. */
    function ValidateNumeric(env: Env, value: Value, convert: Value -> Option<BigDecimal>): Result<Value>
      reads this
    {
      if value == NullValue then Success(value)
      else
        var n := if value.NumValue? then Some(value.n) else convert(value);
        match n
        case None => Failure(FieldIllegalValue(name, ValueText(env, value)))
        case Some(x) =>
          match ValidateNumber(env, dataType, x)
          case Ok => Success(NumValue(x))
          case Fail(e) => Failure(e)
    }

    /** ObjectUtils.toLong as a conversion to a number of scale 0. */
    static function LongConversion(env: Env): Value -> Option<BigDecimal>
    {
      (v: Value) => match env.toLong(v)
                    case None => None
                    case Some(k) => Some(BigDecimal(k, 0))
    }

    /** validate: the structural checks of a value against this column; the
        result is the value, possibly converted, or the field error. */
    function Validate(env: Env, value: Value): (r: Result<Value>)
      reads this
      ensures (r.Failure? && r.error.FieldNotNull?) <==> IsRequired() && IsEmptyValue(value)
      ensures r.Failure? ==> r.error.IsFieldError() && r.error.column == name
      ensures (dataType == Text || dataType == Char) && !(IsRequired() && IsEmptyValue(value)) ==>
                (r.Failure? <==> value != NullValue && |ValueText(env, value)| as real > size)
                && (r.Failure? ==> r.error == FieldValueTooLong(name))
                && (r.Success? ==> r.value == value)
      ensures (dataType in {Unknown, AutoInc, Bool, Double, Clob, Blob, UniqueId}
               && !(IsRequired() && IsEmptyValue(value))) ==> r == Success(value)
      ensures (dataType in {Integer, Decimal, Float} && value.NumValue?
               && !(IsRequired() && IsEmptyValue(value))) ==>
                r == (match ValidateNumber(env, dataType, value.n)
                      case Ok => Success(value)
                      case Fail(e) => Failure(e))
      ensures r.Success? && value == NullValue ==> r.value == NullValue
      ensures value == NullValue && !IsRequired() ==> r == Success(NullValue)
      // DATE/DATETIME: null, dates and SYSDATE pass unchanged; other values are parsed from their text
      ensures (dataType in {Date, DateTime} && !(IsRequired() && IsEmptyValue(value))
               && (value == NullValue || value.DateValue? || value == SysDate)) ==> r == Success(value)
      ensures dataType in {Date, DateTime} && !(IsRequired() && IsEmptyValue(value))
              && value != NullValue && !value.DateValue? && value != SysDate ==>
                var text := ValueText(env, value);
                var parsed := env.parseDate(DatePattern(dataType, text, ConfiguredPattern(env)), text);
                && (text == "" ==> r == Success(NullValue))
                && (text != "" && parsed.None? ==> r == Failure(FieldIllegalValue(name, text)))
                && (text != "" && parsed.Some? ==> r == Success(DateValue(parsed.value)))
      // DECIMAL, FLOAT, INTEGER: a value that is not a number is converted first
      ensures dataType == Decimal && value != NullValue && !value.NumValue?
              && !(IsRequired() && IsEmptyValue(value)) ==>
                (env.toDecimal(value).None? ==> r == Failure(FieldIllegalValue(name, ValueText(env, value))))
                && (env.toDecimal(value).Some? ==>
                      r == (match ValidateNumber(env, Decimal, env.toDecimal(value).value)
                            case Ok => Success(NumValue(env.toDecimal(value).value))
                            case Fail(e) => Failure(e)))
      ensures dataType == Float && value != NullValue && !value.NumValue?
              && !(IsRequired() && IsEmptyValue(value)) ==>
                (env.toDouble(value).None? ==> r == Failure(FieldIllegalValue(name, ValueText(env, value))))
                && (env.toDouble(value).Some? ==>
                      r == (match ValidateNumber(env, Float, env.toDouble(value).value)
                            case Ok => Success(NumValue(env.toDouble(value).value))
                            case Fail(e) => Failure(e)))
      ensures dataType == Integer && value != NullValue && !value.NumValue?
              && !(IsRequired() && IsEmptyValue(value)) ==>
                (env.toLong(value).None? ==> r == Failure(FieldIllegalValue(name, ValueText(env, value))))
                && (env.toLong(value).Some? ==>
                      r == (match ValidateNumber(env, Integer, BigDecimal(env.toLong(value).value, 0))
                            case Ok => Success(NumValue(BigDecimal(env.toLong(value).value, 0)))
                            case Fail(e) => Failure(e)))
    {
      if IsRequired() && IsEmptyValue(value) then Failure(FieldNotNull(name))
      else match dataType
        case Date => ValidateDate(env, value)
        case DateTime => ValidateDate(env, value)
        case Decimal => ValidateNumeric(env, value, env.toDecimal)
        case Float => ValidateNumeric(env, value, env.toDouble)
        case Integer => ValidateNumeric(env, value, LongConversion(env))
        case Text =>
          if value != NullValue && |ValueText(env, value)| as real > size
          then Failure(FieldValueTooLong(name)) else Success(value)
        case Char =>
          if value != NullValue && |ValueText(env, value)| as real > size
          then Failure(FieldValueTooLong(name)) else Success(value)
        case _ => Success(value)
    }
  }

  /** A value that passed validation passes again, unchanged, except when a
      required date column turned a non-null value into null. */
  lemma ValidateIdempotent(c: DBTableColumn, env: Env, value: Value)
    requires c.Validate(env, value).Success?
    requires !c.IsRequired() || c.Validate(env, value).value != NullValue
    ensures c.Validate(env, c.Validate(env, value).value) == c.Validate(env, value)
  {
    var r := c.Validate(env, value).value;
    assert !(c.IsRequired() && IsEmptyValue(value));
    if c.dataType == Date || c.dataType == DateTime {
      assert r == value || r == NullValue || r.DateValue?;
    } else if c.dataType == Integer || c.dataType == Decimal || c.dataType == Float {
      assert r == NullValue || r.NumValue?;
    }
  }

  /** The exception: a required DATE column and a non-String value whose
      text is empty. The first validation yields null, the second rejects it. */
  lemma RevalidationOfEmptyText(c: DBTableColumn, env: Env)
    requires c.dataType == Date && c.IsRequired()
    requires env.text(OtherValue(0)) == ""
    ensures c.Validate(env, OtherValue(0)) == Success(NullValue)
    ensures c.Validate(env, NullValue) == Failure(FieldNotNull(c.name))
  {
  }

  /** A TEXT column of size 5 accepts five characters and rejects six. */
  lemma TextLengthBoundary(c: DBTableColumn, env: Env)
    requires c.dataType == Text && c.size == 5.0
    ensures c.Validate(env, StrValue("abcde")) == Success(StrValue("abcde"))
    ensures c.Validate(env, StrValue("abcdef")) == Failure(FieldValueTooLong(c.name))
  {
  }

  /** An INTEGER column with minimum 1 and maximum 10 accepts 1 and 10 and
      rejects 0 and 11, naming both bounds. */
  lemma IntegerRangeBoundary(c: DBTableColumn, env: Env)
    requires c.dataType == Integer
    requires MinValue in c.attributes && c.attributes[MinValue] == NumValue(BigDecimal(1, 0))
    requires MaxValue in c.attributes && c.attributes[MaxValue] == NumValue(BigDecimal(10, 0))
    ensures c.Validate(env, NumValue(BigDecimal(1, 0))) == Success(NumValue(BigDecimal(1, 0)))
    ensures c.Validate(env, NumValue(BigDecimal(10, 0))) == Success(NumValue(BigDecimal(10, 0)))
    ensures c.Validate(env, NumValue(BigDecimal(0, 0)))
            == Failure(FieldValueOutOfRange(c.name, OutsideRange(1, 10)))
    ensures c.Validate(env, NumValue(BigDecimal(11, 0)))
            == Failure(FieldValueOutOfRange(c.name, OutsideRange(1, 10)))
  {
  }
}
