/** Option and Result, the failure-carrying values used throughout the model. */
module Wrappers {

  /** A possibly-absent value; `None` models Go's `nil`. */
  datatype Option<+T> = None | Some(value: T)

  /** Either a value or an error; `Failure` models a Go error return or a panic. */
  datatype Result<+T, +E> = Success(value: T) | Failure(error: E)
}
