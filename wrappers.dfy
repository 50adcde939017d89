/** Optional values, results and the error kinds that the driver and the column
    raise as exceptions in the source. */
module Wrappers {

  datatype Option<+T> = None | Some(value: T)

  /** Which bound of a numeric column a value violated (the three
      FieldValueOutOfRangeException constructors, plus the bare one used for
      precision and scale). */
  datatype RangeViolation =
    | OutsideRange(min: int, max: int)
    | BelowMin(min: int)
    | AboveMax(max: int)
    | PrecisionScale

  /** The exceptions of the modelled code, one constructor per kind. */
  datatype Error =
    | InvalidArgument(name: string)
    | NotImplemented(what: string)
    | NotSupported(operation: string)
    | PropertyReadOnly(property: string)
    | FieldNotNull(column: string)
    | FieldIllegalValue(column: string, value: string)
    | FieldValueTooLong(column: string)
    | FieldValueOutOfRange(column: string, violation: RangeViolation)
  {
    /** The errors raised by value validation. */
    predicate IsFieldError() {
      FieldNotNull? || FieldIllegalValue? || FieldValueTooLong? || FieldValueOutOfRange?
    }
  }

  /** The result of a call that returns normally or throws. */
  datatype Outcome = Ok | Fail(error: Error)

  /** The result of a call that returns a value or throws. */
  datatype Result<+T> = Success(value: T) | Failure(error: Error)
}
