/** The H2 driver's fixed vocabulary: SQL phrase templates by logical key and
    CAST templates by destination type. Both lookups are total; a key without
    an H2 template yields the placeholder "?". */
module H2Phrases {
  import opened DataTypes
  import opened Strings

  /** The phrase keys of the driver; Undefined stands for every key that the
      H2 driver has no template for. */
  datatype Phrase =
    | NullValuePhrase | Parameter | RenameTable | RenameColumn | DatabaseLink
    | QuotesOpen | QuotesClose | ConcatExpr
    | BooleanTrue | BooleanFalse | CurrentDate | SqlDatePattern | DateTemplate
    | CurrentDateTime | SqlDateTimePattern | DateTimeTemplate
    | FuncCoalesce | FuncSubstring | FuncSubstringEx | FuncReplace | FuncReverse
    | FuncStrIndex | FuncStrIndexFrom | FuncLength | FuncUpper | FuncLower
    | FuncTrim | FuncLTrim | FuncRTrim | FuncEscape
    | FuncAbs | FuncRound | FuncTrunc | FuncCeiling | FuncFloor
    | FuncDay | FuncMonth | FuncYear
    | FuncSum | FuncMax | FuncMin | FuncAvg
    | FuncDecode | FuncDecodeSep | FuncDecodePart | FuncDecodeElse
    | Undefined(code: int)

  const Placeholder: string := "?"

  /** getSQLPhrase: the H2 template of a phrase key. */
  function GetSQLPhrase(phrase: Phrase): (r: string)
    ensures r == Placeholder <==> phrase.Undefined?
    ensures |r| > 0
  {
    match phrase
    case NullValuePhrase => "null"
    case Parameter => " ? "
    case RenameTable => " "
    case RenameColumn => " AS "
    case DatabaseLink => "@"
    case QuotesOpen => "\""
    case QuotesClose => "\""
    case ConcatExpr => "concat(?, {0})"
    case BooleanTrue => "1"
    case BooleanFalse => "0"
    case CurrentDate => "CURRENT_DATE()"
    case SqlDatePattern => "yyyy-MM-dd"
    case DateTemplate => "'{0}'"
    case CurrentDateTime => "NOW()"
    case SqlDateTimePattern => "yyyy-MM-dd HH:mm:ss"
    case DateTimeTemplate => "'{0}'"
    case FuncCoalesce => "coalesce(?, {0})"
    case FuncSubstring => "substring(?, {0})"
    case FuncSubstringEx => "substring(?, {0}, {1})"
    case FuncReplace => "replace(?, {0}, {1})"
    case FuncReverse => "reverse_not_available_in_h2(?)"
    case FuncStrIndex => "instr(?, {0})"
    case FuncStrIndexFrom => "locate({0}, ?, {1})"
    case FuncLength => "length(?)"
    case FuncUpper => "upper(?)"
    case FuncLower => "lcase(?)"
    case FuncTrim => "trim(?)"
    case FuncLTrim => "ltrim(?)"
    case FuncRTrim => "rtrim(?)"
    case FuncEscape => "? escape '{0}'"
    case FuncAbs => "abs(?)"
    case FuncRound => "round(?,{0})"
    case FuncTrunc => "truncate(?,{0})"
    case FuncCeiling => "ceiling(?)"
    case FuncFloor => "floor(?)"
    case FuncDay => "day(?)"
    case FuncMonth => "month(?)"
    case FuncYear => "year(?)"
    case FuncSum => "sum(?)"
    case FuncMax => "max(?)"
    case FuncMin => "min(?)"
    case FuncAvg => "avg(?)"
    case FuncDecode => "case ? {0} end"
    case FuncDecodeSep => " "
    case FuncDecodePart => "when {0} then {1}"
    case FuncDecodeElse => "else {0}"
    case Undefined(_) => Placeholder
  }

  /** The destination types H2 has a CAST template for. */
  predicate HasCast(destType: DataType)
  {
    destType in {Bool, Integer, Decimal, Double, Date, DateTime, Text, Blob}
  }

  /** getConvertPhrase: the CAST template converting a value to destType.
      The source type and the format do not influence the H2 template. */
  function GetConvertPhrase(destType: DataType, srcType: DataType, format: Value): (r: string)
    ensures r == Placeholder <==> !HasCast(destType)
    ensures HasCast(destType) ==> StartsWith(r, "CAST(? AS ")
  {
    match destType
    case Bool => "CAST(? AS UNSIGNED)"
    case Integer => "CAST(? AS SIGNED)"
    case Decimal => "CAST(? AS DECIMAL)"
    case Double => "CAST(? AS DECIMAL)"
    case Date => "CAST(? AS DATE)"
    case DateTime => "CAST(? AS DATETIME)"
    case Text => "CAST(? AS CHAR)"
    case Blob => "CAST(? AS BLOB)"
    case _ => Placeholder
  }

  /** The CAST template depends on the destination type alone. */
  lemma ConvertIgnoresSourceAndFormat(destType: DataType, src1: DataType, src2: DataType, f1: Value, f2: Value)
    ensures GetConvertPhrase(destType, src1, f1) == GetConvertPhrase(destType, src2, f2)
  {
  }

  /** DBDriverFeature; OtherFeature stands for every feature not named in
      the H2 driver's switch. */
  datatype Feature = CreateSchema | Sequences | OtherFeature(name: string)
}
