/** Option and Result values used in place of Java's null and thrown exceptions. */
module Wrappers {

  /** A value that may be absent (Java's nullable reference). */
  datatype Option<+T> = None | Some(value: T)

  /** Either a normal return value or the throwable that ended the call. */
  datatype Result<+R, +E> = Success(value: R) | Failure(error: E)

  /** The outcome of a call made only for its side effects: it returned, or it threw. */
  datatype Outcome<+E> = Pass | Fail(error: E)
}
