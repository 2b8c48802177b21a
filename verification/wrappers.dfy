/** Failure-carrying values used across the model: an optional value, and the
    `Result<T, E>` the Rust code returns from every storage and index call. */
module Wrappers {

  datatype Option<+T> = None | Some(value: T)

  datatype Result<+T, +E> = Success(value: T) | Failure(error: E)
}
