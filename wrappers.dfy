/** Optional values: a JavaScript value that may be `undefined`/`null` (an
    absent ledger entry, a voice that was not found, a fetch that failed). */
module Wrappers {

  datatype Option<+T> = None | Some(value: T) {

    /** The value, or `default` when absent (JavaScript's `x || default`). */
    function GetOr(default: T): T {
      match this
      case Some(v) => v
      case None => default
    }
  }
}
