/** Optional values and early-return results used by the model. */
module Wrappers {

  /** A value that may be absent: JavaScript's `undefined`/`null` next to a real value. */
  datatype Option<+T> = None | Some(value: T)

  /** The outcome of a chain of early returns: the value that got through, or why it stopped. */
  datatype Result<+R, +E> = Ok(value: R) | Err(error: E)
}
