/** Option and Result, used throughout the model. */
module Wrappers {

  datatype Option<+T> = None | Some(value: T)

  /** The outcome of one step: a value, or the error that ended the call. */
  datatype Result<+R, +E> = Success(value: R) | Failure(error: E)
}
