/** Small optional and result values shared by the modules of this project. */
module Wrappers {

  /** A value that may be absent: TypeScript's `T | null` and `T | undefined`. */
  datatype Option<+T> = None | Some(value: T) {
    /** The value, or `default` when absent: TypeScript's `x ?? default`. */
    function GetOr(default: T): (r: T)
      ensures Some? ==> r == value
      ensures None? ==> r == default
    {
      match this
      case Some(v) => v
      case None => default
    }
  }

  /** The outcome of an awaited call: its value, or what it threw. */
  datatype Result<+R, +E> = Ok(value: R) | Err(error: E)
}
