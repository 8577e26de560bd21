/** Failure-carrying values used throughout the model. */
module Wrappers {

  /** An optional value: Go's `(T, ok)` pairs and nil-able pointers. */
  datatype Option<+T> = None | Some(value: T)

  /** A value or an error: Go's `(T, error)` pairs. */
  datatype Result<+T, +E> = Ok(value: T) | Err(error: E)
}
