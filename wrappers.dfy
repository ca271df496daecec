/** Failure-compatible wrappers shared by every venue client. */
module Wrappers {

  /** A value that may be absent (Python's None, or an empty dict returned instead of a value). */
  datatype Option<+T> = None | Some(value: T)

  /** The value of a call, or the exception it raised. */
  datatype Result<+T, +E> = Success(value: T) | Failure(error: E)

  /** Whether a call that returns nothing useful completed or raised. */
  datatype Outcome<+E> = Pass | Fail(error: E)
}
