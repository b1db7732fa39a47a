/** The optional value used by both halves of the system: a missing key, a
    `None`, a `null` result. */
module Wrappers {

  datatype Option<T> = None | Some(value: T) {

    /** The value, or `default` when there is none. */
    function GetOr(default: T): T {
      match this
      case Some(v) => v
      case None => default
    }
  }
}
