/** Option and Result, standing for Java's null and for a thrown exception. */
module Wrappers {

  /** `None` stands for a Java `null` reference. */
  datatype Option<+T> = None | Some(value: T)

  /** `Failure` stands for an exception raised by the call. */
  datatype Result<+T, +E> = Success(value: T) | Failure(error: E)
}
