/** Failure-compatible wrappers shared by the configuration loader and the logger model. */
module Wrappers {

  /** An optional value: an environment variable is either set (`Some`) or absent (`None`). */
  datatype Option<+T> = None | Some(value: T)

  /** The outcome of an operation that either produces a value or fails with one error. */
  datatype Result<+R, +E> = Success(value: R) | Failure(error: E)
}
