/** Option and Result, the two failure-carrying shapes the rest of the model uses. */
module Wrappers {

  /** A value that may be absent: a JavaScript `undefined` / optional property. */
  datatype Option<+T> = None | Some(value: T)

  /** The outcome of a parse: the parsed value, or what went wrong. */
  datatype Result<+T, +E> = Ok(value: T) | Err(error: E)
}
