/** Option and Result, the failure-carrying values used across the model. */
module Wrappers {

  datatype Option<+T> = None | Some(value: T)

  /** A tool's outcome: a value, or the error a Python exception would carry. */
  datatype Result<+R, +E> = Success(value: R) | Failure(error: E)
}
