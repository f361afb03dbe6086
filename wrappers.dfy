/** Option and Result, the two failure-carrying shapes the engine's Rust code uses. */
module Wrappers {

  /** Rust's `Option<T>`. */
  datatype Option<+T> = None | Some(value: T)

  /** Rust's `Result<T, E>`; the engine's error type is `Records.Error`. */
  datatype Result<+T, +E> = Success(value: T) | Failure(error: E)
}
