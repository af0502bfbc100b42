/** Failure-carrying values shared by the other modules. */
module Wrappers {

  /** A value that may be missing: a Go `nil` pointer or a failed decode. */
  datatype Option<+T> = None | Some(value: T)

  /** A Go `(value, error)` pair where exactly one side is meaningful. */
  datatype Result<+T, +E> = Ok(value: T) | Err(error: E)
}
