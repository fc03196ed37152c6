/** Option and Result, the two failure-carrying datatypes the model uses. */
module Wrappers {

  datatype Option<+T> = None | Some(value: T)

  /** A success value or an error value: the model's stand-in for a thrown error. */
  datatype Result<+R, +E> = Success(value: R) | Failure(error: E)
}
