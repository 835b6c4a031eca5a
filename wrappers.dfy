/** Optional values: a missing dictionary key, a regex group that did not take part, a `None` return. */
module Wrappers {

  datatype Option<T> = None | Some(value: T) {

    /** The value, or `default` when there is none (Python `d.get(k, default)`). */
    function GetOr(default: T): T {
      if Some? then value else default
    }
  }
}
