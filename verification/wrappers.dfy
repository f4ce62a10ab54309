/** Option and Result, the two failure-carrying values the model passes around. */
module Wrappers {

  datatype Option<+T> = None | Some(value: T)

  /** The outcome of a step that either yields a value or fails with a message. */
  datatype Result<+T> = Ok(value: T) | Err(message: string)
}
