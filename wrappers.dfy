/** Option and Result values shared by the model. */
module Wrappers {

  /** `None` plays the role of JavaScript's `undefined`. */
  datatype Option<+T> = None | Some(value: T)

  /** The outcome of an operation that can throw: `Err` carries the thrown message. */
  datatype Result<+T, +E> = Ok(value: T) | Err(error: E)
}
