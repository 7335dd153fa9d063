/** Kotlin's nullable types (`T?`) as an Option datatype. */
module Wrappers {

  /** `None` stands for Kotlin's `null`: "no constraint requested". */
  datatype Option<+T> = None | Some(value: T) {

    /** Kotlin's elvis operator `this ?: default`. */
    function GetOr(default: T): T {
      match this
      case Some(v) => v
      case None => default
    }
  }
}
