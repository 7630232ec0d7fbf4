/** Option and Result, the two failure-carrying types the model uses. */
module Wrappers {

  /** A value that may be absent (JavaScript `undefined`, a missing field). */
  datatype Option<+T> = None | Some(value: T)

  /** The outcome of an operation that may raise instead of returning. */
  datatype Result<+R, +E> = Success(value: R) | Failure(error: E)
}
