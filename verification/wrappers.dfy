/** Failure-carrying result types used where the program panics or returns an error. */
module Wrappers {

  /** A value that may be absent (`Option<T>` in the program). */
  datatype Option<+T> = None | Some(value: T)

  /** A computation that either produced a value or failed with an error. */
  datatype Result<+R, +E> = Success(value: R) | Failure(error: E)
}
