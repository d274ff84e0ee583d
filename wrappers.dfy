/** Failure-carrying wrappers used for the source's thrown errors and its `undefined` values. */
module Wrappers {

  datatype Option<+T> = None | Some(value: T)

  datatype Result<+R, +E> = Success(value: R) | Failure(error: E)
}
