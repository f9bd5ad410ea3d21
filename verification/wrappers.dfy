/** Failure-carrying results used throughout the model. */
module Wrappers {

  /** A value that may be missing; None also stands for JavaScript's `undefined`. */
  datatype Option<+T> = None | Some(value: T)

  /** Either a value or the error that stopped the computation. */
  datatype Result<+R, +E> = Success(value: R) | Failure(error: E)
}
