/** Failure-compatible wrappers used for the source's `(value, error)` returns. */
module Wrappers {

  /** An optional value: a Go pointer that may be nil, or an `error` that may be nil. */
  datatype Option<+T> = None | Some(value: T)

  /** A value or an error, as Go's `(T, error)` pair when exactly one of the two is set. */
  datatype Result<+T, +E> = Ok(value: T) | Err(error: E)
}
