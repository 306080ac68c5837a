/** Option and Result types for Go's `(value, error)` returns. */
module Wrappers {

  datatype Option<+T> = None | Some(value: T)

  /** A Go `(T, error)` pair: either a value with a nil error, or the error's text. */
  datatype Result<+T> = Ok(value: T) | Err(error: string)
}
