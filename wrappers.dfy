/** Stock failure-carrying wrappers used by every other module. */
module Wrappers {

  /** A value that may be absent: Go's nil pointer or missing result. */
  datatype Option<+T> = None | Some(value: T)

  /** A value or the error that was returned instead of it (Go's `(T, error)` pair). */
  datatype Result<+T, +E> = Ok(value: T) | Err(error: E)
}
