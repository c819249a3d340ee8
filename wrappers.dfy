/** Failure-carrying values used for the source's thrown errors and `undefined` results. */
module Wrappers {

  datatype Option<+T> = None | Some(value: T)

  datatype Result<+T, +E> = Success(value: T) | Failure(error: E)
}
