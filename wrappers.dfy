/** Optional values: a JavaScript property that is present (`Some`) or
    `undefined` / unparsable (`None`). */
module Wrappers {

  datatype Option<+T> = None | Some(value: T) {

    /** The value, or `default` when there is none. */
    function GetOr(default: T): T {
      match this
      case Some(v) => v
      case None => default
    }
  }
}
