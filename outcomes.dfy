/** Option and Result values, used wherever the Go code returns a nil pointer or an error. */
module Outcomes {

  datatype Option<T> = None | Some(value: T)

  /** The (value, error) pair of a Go function: exactly one of the two is meaningful. */
  datatype Result<T, E> = Ok(value: T) | Err(error: E)
}
