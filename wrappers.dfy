/** Option and Result types used throughout the model. */
module Wrappers {

  datatype Option<+T> = None | Some(value: T)

  /** The exception the shaping helpers can let escape: JSON.parse on malformed text. */
  datatype JsError = SyntaxError(input: string)

  /** A JavaScript call either returns a value or throws. */
  datatype Result<+T> = Ok(value: T) | Throws(error: JsError)
}
