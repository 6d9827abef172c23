/** Option and Result values for the "undefined" and "throws" outcomes of the bot. */
module Wrappers {

  /** A value that may be absent (`undefined` in the bot's idiom). */
  datatype Option<+T> = None | Some(value: T)

  /** The outcome of an operation that either yields a value or fails with an error. */
  datatype Result<+T, +E> = Ok(value: T) | Err(error: E)
}
