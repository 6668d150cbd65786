/** Option and Result, used for Java's nullable references and for exceptions. */
module Wrappers {

  /** `None` stands for a Java `null`. */
  datatype Option<+T> = None | Some(value: T)

  /** A returned value, or the exception that the call raised instead. */
  datatype Result<+R, +E> = Success(value: R) | Failure(error: E)
}
