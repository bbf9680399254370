/** Optional values and results with an error, used where the program uses None or raises. */
module Wrappers {

  datatype Option<+T> = None | Some(value: T) {

    /** The wrapped value, or default when there is none (dict.get(key, default)). */
    function GetOr(default: T): T {
      match this
      case Some(v) => v
      case None => default
    }
  }

  datatype Result<+T, +E> = Ok(value: T) | Err(error: E)
}
