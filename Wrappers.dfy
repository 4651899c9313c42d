/** Optional values, standing for JavaScript's `undefined`/`null` and for
    Python's absent dictionary keys. */
module Wrappers {

  datatype Option<T> = None | Some(value: T) {

    /** The contained value, or `default` when there is none
        (Python's `dict.get(key, default)`). */
    function GetOr(default: T): T {
      match this
      case Some(v) => v
      case None => default
    }
  }
}
