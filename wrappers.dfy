/** Option and Result, the failure-carrying values the rest of the model returns. */
module Wrappers {

  /** A value that may be missing: JavaScript's `null` / `undefined`. */
  datatype Option<+T> = None | Some(value: T)

  /** The outcome of a call that either returns a value or throws an error. */
  datatype Result<+R, +E> = Success(value: R) | Failure(error: E)
}
