/** Failure-carrying values used by every module of the model. */
module Wrappers {

  /** An optional value: Rust's `Option<T>`. */
  datatype Option<+T> = None | Some(value: T)

  /** A value or an error: the `anyhow::Result<T>` of the modelled code. */
  datatype Result<+T, +E> = Success(value: T) | Failure(error: E)
}
