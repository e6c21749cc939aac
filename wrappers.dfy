/** Optional values and results that are either a value or an error. */
module Wrappers {

  /** A value that may be absent (Python's `None` for an optional argument). */
  datatype Option<+T> = None | Some(value: T)

  /** The outcome of an operation that either succeeds or raises an error. */
  datatype Result<+R, +E> = Success(value: R) | Failure(error: E)
}
