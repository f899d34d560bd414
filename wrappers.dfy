/** Optional values: a JavaScript prop or state hook that may be `undefined` or `null`. */
module Wrappers {

  datatype Option<+T> = None | Some(value: T) {

    /** The value if present, else `default` (a destructuring default such as `size = "small"`). */
    function GetOr(default: T): T {
      match this
      case Some(v) => v
      case None => default
    }
  }
}
