/** Plain datatypes standing for the C# nulls and exceptions of the modelled code. */
module Wrappers {

  /** A value that may be absent: `None` stands for a C# `null`. */
  datatype Option<+T> = None | Some(value: T)

  /** The outcome of an operation that may throw: `Failure` carries the exception's kind. */
  datatype Result<+T, +E> = Success(value: T) | Failure(error: E)
}
