/** Option and Result, the failure-carrying values used across the model. */
module Wrappers {

  /** A value that may be absent; also stands for a Go pointer or func value that may be nil. */
  datatype Option<+T> = None | Some(value: T)

  /** The outcome of a call that either produces a value or fails with an error. */
  datatype Result<+R, +E> = Success(value: R) | Failure(error: E)
}
