/** Optional values and the outcome of a call that may throw. */
module Wrappers {

  /** Swift's `Optional`. */
  datatype Option<+T> = None | Some(value: T)

  /** The result of a Swift function that `throws` and returns a value. */
  datatype Result<+T, +E> = Success(value: T) | Failure(error: E)

  /** The result of a Swift function that `throws` and returns nothing. */
  datatype Outcome<+E> = Pass | Fail(error: E)
}
