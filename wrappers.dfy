/** Option and Result: Java's null and thrown exceptions, made explicit. */
module Wrappers {

  /** `None` stands for a Java `null` reference. */
  datatype Option<+T> = None | Some(value: T)

  /** `Failure` stands for an exception the source throws to its caller. */
  datatype Result<+R, +E> = Success(value: R) | Failure(error: E)
}
