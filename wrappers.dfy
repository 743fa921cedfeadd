/** Optional values and discriminated results, used for request fields and handler outcomes. */
module Wrappers {

  /** A request field that may be absent (`data.get(...)` returning `None`). */
  datatype Option<+T> = None | Some(value: T)

  /** The outcome of a handler: a value on success, or the error response it returns. */
  datatype Result<+T, +E> = Ok(value: T) | Err(error: E)
}
