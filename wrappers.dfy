/** Optional values (JavaScript's `null`, `undefined`, a missing property)
    and results that carry either a value or an error message. */
module Wrappers {

  datatype Option<+T> = None | Some(value: T) {

    /** The value, or `default` when there is none (the JavaScript `x || default`
        idiom, for values that are never falsy when present). */
    function GetOr(default: T): T {
      match this
      case Some(v) => v
      case None => default
    }
  }

  /** A computed value, or the message the page shows instead. */
  datatype Result<+R, +E> = Success(value: R) | Failure(error: E)
}
