/** Optional values and typed failures, used in place of Java's `null`,
    `Optional` and thrown exceptions. */
module Wrappers {

  /** `java.util.Optional` and nullable references: a value or nothing. */
  datatype Option<+T> = None | Some(value: T)

  /** The outcome of a `void` operation that may throw an exception of type `E`. */
  datatype Outcome<+E> = Pass | Fail(error: E)

  /** A computed value, or the exception of type `E` that was thrown instead. */
  datatype Result<+T, +E> = Success(value: T) | Failure(error: E)
}
