/** Failure-carrying values used in place of Python's `None` returns and raised exceptions. */
module Wrappers {

  /** A value or nothing: Python's `return` with no value is `None`. */
  datatype Option<+T> = None | Some(value: T)

  /** A value, or the error an operation raised instead of returning. */
  datatype Result<+T, +E> = Ok(value: T) | Err(error: E)
}
