/** Option and Result: Java's nullable references and thrown exceptions, as values. */
module Wrappers {

  /** A Java reference that may be null. */
  datatype Option<+T> = None | Some(value: T)

  /** A call that either returns a value or throws an exception of type E. */
  datatype Result<+R, +E> = Success(value: R) | Failure(error: E)
}
