/** Failure-compatible wrappers used across the model. */
module Wrappers {

  /** Some/None, used where the source returns a value or Go's nil/zero. */
  datatype Option<+T> = None | Some(value: T)

  /** A value or an error, used where the source returns `(value, error)`. */
  datatype Result<+T, +E> = Ok(value: T) | Err(error: E)
}
