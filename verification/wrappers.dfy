/** Optional values and results with an error, standing for C#'s null and exceptions. */
module Wrappers {

  /** A reference that may be null, or a nullable value. */
  datatype Option<+T> = None | Some(value: T)

  /** The value a service call returns, or the exception it throws. */
  datatype Result<+R, +E> = Success(value: R) | Failure(error: E)
}
