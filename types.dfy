/** Small value types shared by the modules of this model. */
module Types {

  /** A byte as read from a pipe. */
  newtype byte = x: int | 0 <= x < 256

  /** Rust's `Option`. */
  datatype Option<+T> = None | Some(value: T)

  /** Rust's `Result`: `Ok` carries the value, `Err` the error. */
  datatype Result<+T, +E> = Ok(value: T) | Err(error: E)
}
