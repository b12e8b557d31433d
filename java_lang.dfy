/** The few Java language notions the order service depends on: references
    that may be null, the range of java.lang.Integer, and the exceptions the
    service lets escape, turned into error values. */
module JavaLang {

  /** A Java reference that may be null. */
  datatype Nullable<+T> = Null | NonNull(value: T)

  /** The values of a java.lang.Integer. */
  type Int32 = x: int | -0x8000_0000 <= x < 0x8000_0000

  /** The exceptions an order operation can end with. */
  datatype Failure =
    | EntityNotFound     // jakarta.persistence.EntityNotFoundException from orElseThrow
    | NullPointer        // a null dereferenced or unboxed inside the service
    | NotNullViolation   // the store refusing a null in a NOT NULL column

  /** The value an operation returns, or the exception it throws. */
  datatype Result<+T> = Ok(value: T) | Err(error: Failure)

  /** Completion of an operation that returns nothing. */
  datatype Outcome = Pass | Fail(error: Failure)
}
