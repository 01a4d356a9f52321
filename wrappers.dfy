/** Option and Result, standing in for Java's null and exceptions. */
module Wrappers {

  /** A Java reference that may be null: `None` is null. */
  datatype Option<+T> = None | Some(value: T)

  /** The outcome of a call that may throw. */
  datatype Result<+T, +E> = Success(value: T) | Failure(error: E)
}
