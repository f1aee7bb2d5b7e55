/**
 * The two wrappers through which the model returns Go's nil-able values
 * and its (value, error) pairs.
 */
module Wrappers {
  /** A value that may be absent: a nil pointer, a missing JSON field. */
  datatype Option<+T> = None | Some(value: T)

  /** A Go call that returns either a value or a non-nil error. */
  datatype Result<+T, +E> = Ok(value: T) | Err(error: E)
}
