/** Fail-soft and fallible results, as the world cell's accessors return them. */
module Wrappers {

  /** Rust's `Option`: an accessor's answer when absence is a normal outcome. */
  datatype Option<+T> = None | Some(value: T)

  /** Rust's `Result`: an accessor's answer when failure carries a reason. */
  datatype Result<+T, +E> = Success(value: T) | Failure(error: E)
}
