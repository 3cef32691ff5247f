/** Small failure-carrying datatypes shared by the other modules. */
module Wrappers {

  /** A value that may be absent (a JavaScript field that is `undefined`). */
  datatype Option<+T> = None | Some(value: T)

  /** The outcome of a call that may throw: `Err` carries the thrown error's `message`. */
  datatype Result<+T> = Ok(value: T) | Err(message: string)
}
