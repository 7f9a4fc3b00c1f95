/** Option and Outcome values used in place of Python's `None` returns and printed diagnostics. */
module Wrappers {

  datatype Option<+T> = None | Some(value: T)

  /** The result of an operation that changes state and may fail. */
  datatype Outcome<+E> = Pass | Fail(error: E)

  /** The result of a constructor that validates its argument. */
  datatype Result<+T, +E> = Success(value: T) | Failure(error: E)
}
