/** The absent-or-present and success-or-failure values the other modules return. */
module Wrappers {

  /** A value that may be missing: JavaScript's undefined, or an operation that has no answer. */
  datatype Option<+T> = None | Some(value: T)

  /** The outcome of an operation that either returns a value or throws an error. */
  datatype Result<+R, +E> = Success(value: R) | Failure(error: E)
}
