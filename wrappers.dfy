/** Option and Result as the Rust and Python sources use them. */
module Wrappers {

  /** Rust's `Option<T>`; also Python's `X | None`. */
  datatype Option<+T> = None | Some(value: T)

  /** Rust's `Result<T, E>`; for the Python lexers, a call that returns `T` or raises `E`. */
  datatype Result<+T, +E> = Ok(value: T) | Err(error: E)
}
