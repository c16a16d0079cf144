/** Option, standing for a JavaScript property or argument that may be `undefined`. */
module Wrappers {

  datatype Option<+T> = None | Some(value: T) {

    /** The value, or `default` when undefined. For a property that is either
        undefined or an object, this is JavaScript's `x || default`: every
        object, even `{}` or `[]`, counts as true. */
    function GetOr(default: T): T {
      match this
      case Some(v) => v
      case None => default
    }
  }
}
