/** The Option and Result datatypes used across the model. */
module Wrappers {

  /** A value that may be absent: a missing field, or a JavaScript number that is not finite. */
  datatype Option<T> = None | Some(value: T)

  /** The outcome of an operation that can throw. */
  datatype Result<T, E> = Success(value: T) | Failure(error: E)
}
