/** Option and Result, the two failure-carrying wrappers the model uses. */
module Wrappers {

  /** A value that may be missing */
  datatype Option<+T> = None | Some(value: T)

  /** A computed value, or the fault that stopped the computation */
  datatype Result<+T, +E> = Success(value: T) | Failure(error: E)
}
