/** Option and Result, the two failure-carrying shapes the model needs. */
module Wrappers {

  /** A value that may be missing: a body that did not parse, an absent payload. */
  datatype Option<+T> = None | Some(value: T)

  /** The outcome of an operation that either yields a value or fails with an error. */
  datatype Result<+T, +E> = Ok(value: T) | Err(error: E)
}
