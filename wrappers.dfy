/** Rust's `Option` and `Result`, as the two example applications use them. */
module Wrappers {

  /** `Option<T>`: an item of a file list that may be absent, an optional log entry. */
  datatype Option<+T> = None | Some(value: T)

  /** `Result<T, E>`: the outcome of a fetch or of decoding its response. */
  datatype Result<+T, +E> = Ok(value: T) | Err(error: E)
}
