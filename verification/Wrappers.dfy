/** Values that may be absent, and results that may be errors. */
module Wrappers {

  /** A Go pointer or an optional reply field: nil is None. */
  datatype Option<+T> = None | Some(value: T) {

    function GetOr(default: T): T {
      match this
      case Some(v) => v
      case None => default
    }
  }

  /** The outcome of a call that can fail. */
  datatype Result<+T, +E> = Ok(value: T) | Err(error: E)
}
