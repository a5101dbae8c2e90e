/** Optional values and fallible results, used wherever the program returns `None` or raises. */
module Wrappers {

  datatype Option<+T> = None | Some(value: T) {
    /** The value held, or `default` where there is none. */
    function GetOr(default: T): T {
      match this
      case None => default
      case Some(v) => v
    }
  }

  datatype Result<+R, +E> = Success(value: R) | Failure(error: E)
}
