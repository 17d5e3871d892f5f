/** Option and Result, standing in for Java's null references and thrown exceptions. */
module Wrappers {

  /** A value that may be absent; `None` plays the part of Java's `null`. */
  datatype Option<+T> = None | Some(value: T)

  /** Either a value or the exception that an operation would have thrown. */
  datatype Result<+T, +E> = Success(value: T) | Failure(error: E)
}
