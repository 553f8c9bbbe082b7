/** The absent-or-present value the modules share: Python's `T | None`. */
module Wrappers {

  datatype Option<+T> = None | Some(value: T) {

    /** Python's `x or default`, for an x that is None or truthy. */
    function GetOr(default: T): T {
      match this
      case Some(v) => v
      case None => default
    }
  }
}
