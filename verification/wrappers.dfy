/** Optional values and value-or-error results used throughout the model. */
module Wrappers {

  /** A value that may be absent: a JavaScript `null`, `undefined` or optional field. */
  datatype Option<+T> = None | Some(value: T) {

    /** The carried value, or `default` when there is none. */
    function GetOr(default: T): T {
      match this
      case Some(v) => v
      case None => default
    }
  }

  /** Either a computed value or the message shown to the user instead. */
  datatype Result<+T, +E> = Ok(value: T) | Err(error: E)
}
