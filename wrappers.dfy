/** Small failure-compatible wrappers used throughout the model. */
module Wrappers {

  /** A value that may be absent: stands for a Java reference that may be null. */
  datatype Option<+T> = None | Some(value: T)

  /** Either a value or an error: stands for a Java method that returns or throws. */
  datatype Result<+R, +E> = Success(value: R) | Failure(error: E)

  /** Success without a value, or an error: stands for a void Java method that may throw. */
  datatype Outcome<+E> = Pass | Fail(error: E)
}
