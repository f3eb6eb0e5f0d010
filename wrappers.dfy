/** Optional values and callback outcomes shared by the model's modules. */
module Wrappers {

  /** A value that may be absent: JavaScript's `undefined`/`null` where the
      source treats them alike. */
  datatype Option<+T> = None | Some(value: T) {
    function GetOr(default: T): T {
      match this
      case Some(v) => v
      case None => default
    }
  }

  /** What a Node-style callback receives: `cb(null, value)` or `cb(err)`. */
  datatype Result<+T, +E> = Ok(value: T) | Err(error: E)
}
