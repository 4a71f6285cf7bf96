/** Optional values and results of calls that may throw. */
module Wrappers {

  /** A value that may be absent (`undefined` / `null` on the JavaScript side). */
  datatype Option<+T> = None | Some(value: T)

  /** The outcome of a call that either returns a value or throws an error
      whose `message` is carried by `Failure`. */
  datatype Result<+R, +E> = Success(value: R) | Failure(error: E)
}
