/** Optional values and results shared by the modules of the model. */
module Wrappers {

  /** A value that may be absent (a JavaScript `undefined`). */
  datatype Option<+T> = None | Some(value: T)

  /** The outcome of a step that may throw: its value, or the thrown error's message. */
  datatype Result<+T, +E> = Ok(value: T) | Err(error: E)
}
