/** Option and result types used across the model. */
module Wrappers {

  /** A value that may be absent; stands for a C# `null` result. */
  datatype Option<+T> = None | Some(value: T)

  /** The outcome of an operation that may throw: the value, or the exception it raises. */
  datatype Result<+T, +E> = Success(value: T) | Failure(error: E)
}
