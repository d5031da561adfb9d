/** Option and Result, for Java's nullable references and for results that carry an error text. */
module Wrappers {

  /** A value that may be absent (Java's `null`). */
  datatype Option<+T> = None | Some(value: T)

  /** Either a value or an error. */
  datatype Result<+T, +E> = Ok(value: T) | Err(error: E)
}
