/** The optional value used throughout the model for JavaScript's `undefined`
    (a missing property) and, in the structured payload, for `null`. */
module Wrappers {

  datatype Option<+T> = None | Some(value: T) {

    /** The value, or a default when there is none. */
    function GetOr(default: T): T {
      match this
      case Some(v) => v
      case None => default
    }
  }
}
