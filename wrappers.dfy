/** Option and Result, the two failure-carrying datatypes the model uses. */
module Wrappers {

  /** A value that may be absent (Python's `Optional`, `None`). */
  datatype Option<+T> = None | Some(value: T)

  /** The outcome of an operation that either succeeds or fails with an error value. */
  datatype Result<+R, +E> = Success(value: R) | Failure(error: E)
}
