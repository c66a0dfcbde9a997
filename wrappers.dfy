/** Option datatype used for the optional fields of the playlist records. */
module Wrappers {

  datatype Option<+T> = None | Some(value: T) {

    /** The value held in Some, or the given default for None (Python's `d.get(k, default)`). */
    function GetOr(default: T): T {
      match this
      case Some(v) => v
      case None => default
    }
  }

  /** Python truthiness of an optional string: present and non-empty. */
  predicate Truthy(o: Option<string>) {
    o.Some? && o.value != ""
  }
}
