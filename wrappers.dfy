/** Option and result wrappers, used for Java's null references and thrown exceptions. */
module Wrappers {

  /** A value that may be absent (a Java reference that may be null). */
  datatype Option<+T> = None | Some(value: T)

  /** A value or the exception that prevented computing it. */
  datatype Result<+R, +E> = Success(value: R) | Failure(error: E)

  /** Normal completion, or the exception that ended a void operation. */
  datatype Outcome<+E> = Pass | Fail(error: E)
}
