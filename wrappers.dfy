/** Optional values and fallible results, used wherever the source has `null`,
    `undefined` or an early-return rejection. */
module Wrappers {

  datatype Option<+T> = None | Some(value: T) {
    /** The JavaScript `x ?? d` / `x || d` fallback for an absent value. */
    function GetOr(default: T): T {
      match this
      case Some(v) => v
      case None => default
    }
  }

  datatype Result<+R, +E> = Ok(value: R) | Err(error: E)
}
