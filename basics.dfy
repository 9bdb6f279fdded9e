/** Small value types shared by the board model: nullable values, the outcome of an
    operation that may throw a domain exception, and Kotlin's 64-bit `Long`. */
module Basics {

  /** A Kotlin nullable value (`T?`). */
  datatype Option<+T> = None | Some(value: T)

  /** A value, or the domain exception that was thrown instead of producing it. */
  datatype Result<+T, +E> = Success(value: T) | Failure(error: E)

  /** A call that returns `Unit`, or the domain exception it threw. */
  datatype Outcome<+E> = Pass | Fail(error: E)

  /** Kotlin's signed 64-bit integer. */
  newtype Long = x: int | -0x8000_0000_0000_0000 <= x < 0x8000_0000_0000_0000
}
