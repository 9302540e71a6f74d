/** Optional values and results with an error, shared by the other modules. */
module Wrappers {

  /** A value that may be absent: JavaScript's null or undefined is None. */
  datatype Option<+T> = None | Some(value: T)

  /** The outcome of an operation that either returns a value or throws an error. */
  datatype Result<+R, +E> = Success(value: R) | Failure(error: E)
}
