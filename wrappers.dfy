/** Failure-compatible wrappers used across the model: Kotlin's nullable
    values become `Option`, and a call that either returns or throws becomes
    a `Result`. */
module Wrappers {

  /** A value that may be absent (Kotlin's `T?`). */
  datatype Option<+T> = None | Some(value: T)

  /** The outcome of a call that returns a value or throws an error. */
  datatype Result<+R, +E> = Success(value: R) | Failure(error: E)
}
