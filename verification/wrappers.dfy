/** Small failure-carrying wrappers shared by every component of the model. */
module Wrappers {

  /** An optional value: `undefined` / an absent key in the original code. */
  datatype Option<+T> = None | Some(value: T)

  /** The result of an operation that can throw: `Err` carries the error's message. */
  datatype Result<+T> = Ok(value: T) | Err(message: string)
}
