/** Option and Result, the two wrappers the model uses for Go's nil and (value, error) returns. */
module Wrappers {

  /** `None` stands for Go's nil pointer, nil error or absent value. */
  datatype Option<+T> = None | Some(value: T)

  /** The (value, error) pair of a Go call that either succeeds or fails. */
  datatype Result<+R, +E> = Success(value: R) | Failure(error: E)
}
