/** Failure-compatible wrappers shared by the other modules. */
module Wrappers {

  /** A value that may be missing, such as an absent storage entry or an unknown tag. */
  datatype Option<+T> = None | Some(value: T)

  /** Either a value or the error that stood in its way. */
  datatype Result<+R, +E> = Success(value: R) | Failure(error: E)
}
