/** Optional values and the outcome of a remote call. */
module Wrappers {

  /** A value that may be absent (`null` / `undefined` in the source). */
  datatype Option<+T> = None | Some(value: T) {
    function GetOr(default: T): T {
      match this
      case Some(v) => v
      case None => default
    }
  }

  /** What an awaited remote call produced: the parsed response, or a thrown
      failure carrying its message when it is an `Error` (None otherwise). */
  datatype Remote<+T> = Ok(response: T) | Err(message: Option<string>)
}
