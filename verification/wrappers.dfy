/** The optional value used throughout the model: a lookup that may miss, a
    parameter that may be absent, a foreign call that may throw. */
module Wrappers {

  datatype Option<+T> = None | Some(value: T) {

    /** The carried value, or `default` when there is none. */
    function GetOr(default: T): T {
      match this
      case Some(v) => v
      case None => default
    }
  }
}
