/** Option and Result values standing in for Java's null and for the exceptions a
    constructor throws. */
module Wrappers {

  /** `None` plays the part of a Java null reference. */
  datatype Option<+T> = None | Some(value: T)

  /** The outcome of a constructor that validates its arguments: a node, or the
      exception it throws instead. */
  datatype Result<+T, +E> = Success(value: T) | Failure(error: E)
}
