/** Option and Result types for values that may be missing and computations that may fail. */
module Wrappers {

  /** A value that may be absent; used for JavaScript's `undefined` and `NaN` number fields. */
  datatype Option<+T> = None | Some(value: T)

  /** The outcome of a computation that either produces a value or fails with an error. */
  datatype Result<+T, +E> = Success(value: T) | Failure(error: E)
}
