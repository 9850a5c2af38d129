/** Option and Result, the two failure-carrying wrappers the model uses. */
module Wrappers {

  /** A value that may be absent (JavaScript `undefined` where the source tests for it). */
  datatype Option<+T> = None | Some(value: T)

  /** The result of an operation that can throw: `Failure` carries the thrown value. */
  datatype Result<+R, +E> = Success(value: R) | Failure(error: E)
}
