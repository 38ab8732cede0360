/** The Option and Result values used throughout the model. */
module Wrappers {

  /** A value that may be absent, like a nil pointer or a nil function value in Go. */
  datatype Option<+T> = None | Some(value: T)

  /** The (value, error) pair returned by a Go call: exactly one of the two is meaningful. */
  datatype Result<+T, +E> = Ok(value: T) | Err(error: E)
}
