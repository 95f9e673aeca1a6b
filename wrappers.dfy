/** The optional values of the configuration records: a missing dictionary key
    is None, and `.get(key, default)` is GetOr. */
module Wrappers {

  datatype Option<+T> = None | Some(value: T) {

    /** The value, or the default the lookup falls back to when it is absent. */
    function GetOr(default: T): T {
      match this
      case Some(v) => v
      case None => default
    }
  }
}
