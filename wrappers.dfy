/** Optional values (Kotlin's nullable `T?`) and outcomes of calls that may throw. */
module Wrappers {

  datatype Option<+T> = None | Some(value: T) {

    /** Kotlin's `?:` — the value, or `default` when absent. */
    function GetOr(default: T): T {
      match this
      case Some(v) => v
      case None => default
    }
  }

  /** A call either returns a value or throws an exception. */
  datatype Outcome<+R, +E> = Returned(value: R) | Threw(error: E)
}
