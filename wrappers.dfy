/** Failure-carrying wrappers shared by every module of the model. */
module Wrappers {

  datatype Option<+T> = None | Some(value: T)

  /** The outcome of a Go call that returns `(value, error)`. */
  datatype Result<+R, +E> = Success(value: R) | Failure(error: E)
}
