/** Optional values (Go pointers that may be nil) and results that carry an error message. */
module Wrappers {

  /** A Go pointer field: nil is None. */
  datatype Option<+T> = None | Some(value: T) {

    /** The pointed-to value, or the given default when the pointer is nil. */
    function GetOr(default: T): T {
      match this
      case Some(v) => v
      case None => default
    }
  }

  /** A Go (value, error) pair: an error is reported by its message text. */
  datatype Result<+T> = Ok(value: T) | Err(msg: string)
}
