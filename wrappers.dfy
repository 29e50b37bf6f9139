/** Optional values and results shared by the rest of the model. */
module Wrappers {

  /** A value that may be absent: `undefined` or `null` in the SDK. */
  datatype Option<+T> = None | Some(value: T) {
    /** The value, or the default when there is none. */
    function GetOr(default: T): T {
      if Some? then value else default
    }
  }

  /** The outcome of a step that may fail: a thrown error becomes `Err`. */
  datatype Result<+T, +E> = Ok(value: T) | Err(error: E)

  /** JavaScript truthiness of an optional string: present and not empty. */
  predicate Truthy(s: Option<string>) {
    s.Some? && s.value != ""
  }
}
