/** Small failure-carrying datatypes shared by the modules of this project. */
module Wrappers {

  /** Java's `Optional`: a value or nothing. */
  datatype Option<+T> = None | Some(value: T)

  /** The outcome of a `void` Java method that may throw: normal return or an exception. */
  datatype Outcome<+E> = Pass | Fail(error: E)

  /** The outcome of a Java constructor or method that may throw: a value or an exception. */
  datatype Result<+R, +E> = Success(value: R) | Failure(error: E)
}
