/** Failure-carrying result types used in place of Java's null returns and exceptions. */
module Wrappers {

  /** A value or nothing (Java's null). */
  datatype Option<+T> = None | Some(value: T) {
    /** The value, or `default` when there is none. */
    function GetOr(default: T): T {
      match this
      case Some(v) => v
      case None => default
    }
  }

  /** A result or the error that a Java method would throw instead. */
  datatype Result<+R, +E> = Success(value: R) | Failure(error: E)

  /** The completion of a `void` Java method: normal, or with a thrown error. */
  datatype Outcome<+E> = Pass | Fail(error: E)
}
