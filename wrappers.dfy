/** Optional values and error returns, standing in for Go's nil pointers and (value, error) pairs. */
module Wrappers {
  /** A value that may be absent: None plays the part of Go's nil. */
  datatype Option<+T> = None | Some(value: T)

  /** A Go (value, error) pair: Err carries the error, Ok the value. */
  datatype Result<+T, +E> = Ok(value: T) | Err(error: E)
}
