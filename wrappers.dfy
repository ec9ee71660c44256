/** Optional values and results with an error, shared by the other modules. */
module Wrappers {

  /** A value that may be absent: a missing JSON key, an override not given. */
  datatype Option<+T> = None | Some(value: T)

  /** The outcome of an operation that the program lets raise an exception. */
  datatype Result<+T, +E> = Success(value: T) | Failure(error: E)
}
