/** Option and Result values used in place of JavaScript's null and thrown errors. */
module Wrappers {

  /** A value that may be absent (a missing request header). */
  datatype Option<+T> = None | Some(value: T)

  /** Either a computed value or the error the source would throw. */
  datatype Result<+T, +E> = Ok(value: T) | Err(error: E)
}
