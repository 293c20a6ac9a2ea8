/** The optional-value and outcome types used across the model. */
module Wrappers {

  /** A value that may be absent (stands for a nullable reference). */
  datatype Option<+T> = None | Some(value: T)

  /** The outcome of a call that either returns a value or throws. */
  datatype Result<+T, +E> = Success(value: T) | Failure(error: E)
}
