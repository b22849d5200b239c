/** Optional values, standing in for PHP's null. */
module Wrappers {

  datatype Option<+T> = None | Some(value: T) {

    /** The value held in Some, or a default value if None. */
    function GetOr(default: T): T {
      match this
      case Some(v) => v
      case None => default
    }
  }
}
