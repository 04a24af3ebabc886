/** Optional values and fallible results, standing in for Java's `null` and thrown exceptions. */
module Wrappers {

  /** A value that may be absent: the model of a nullable reference. */
  datatype Option<+T> = None | Some(value: T)

  /** Either a returned value or the exception the call raised. */
  datatype Result<+T, +E> = Success(value: T) | Failure(error: E)
}
