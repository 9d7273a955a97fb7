/** Failure-compatible wrappers shared by the model: an optional value and a
    value-or-error result. */
module Wrappers {

  /** A value that may be absent (a JSON key that is missing, a `None`). */
  datatype Option<+T> = None | Some(value: T)

  /** A computation that either succeeds with a value or fails with an error. */
  datatype Result<+T, +E> = Success(value: T) | Failure(error: E)
}
