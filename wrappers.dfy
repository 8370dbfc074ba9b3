/** Optional values and results, used wherever the Go code returns a nil-able value or `(value, error)`. */
module Wrappers {

  /** A Go value that may be nil or absent. */
  datatype Option<+T> = None | Some(value: T)

  /** A Go `(value, error)` pair where exactly one side matters. */
  datatype Result<+T, +E> = Ok(value: T) | Err(error: E)
}
