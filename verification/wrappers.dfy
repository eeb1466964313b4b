/** Failure-carrying result types used by the remote store model. */
module Wrappers {

  /** A value that may be absent (JavaScript `undefined`). */
  datatype Option<+T> = None | Some(value: T)

  /** Either a successful value or the error that the source would throw. */
  datatype Result<+R, +E> = Success(value: R) | Failure(error: E)
}
