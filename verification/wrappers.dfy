/** Optional values: `None` stands for a JavaScript property that is absent
    (or `null`), `Some(v)` for one that holds `v`. */
module Wrappers {

  datatype Option<+T> = None | Some(value: T) {

    /** The value, or `default` when absent (the source's `x || default`
        for values that are always truthy when present). */
    function GetOr(default: T): T {
      match this
      case Some(v) => v
      case None => default
    }
  }
}
