/** Result types shared by every component. */
module Wrappers {

  /** A value that may be absent: a nullable column, a lookup that finds no row. */
  datatype Option<+T> = None | Some(value: T)

  /** The outcome of an operation that may throw. */
  datatype Result<+T, +E> = Ok(value: T) | Err(error: E)
}
