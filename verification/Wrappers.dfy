module Wrappers {
  datatype Option<+T> = None | Some(value: T)

  /** A call that returns or raises. */
  datatype Result<+T, +E> = Ok(value: T) | Err(error: E)
}
