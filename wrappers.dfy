/** Optional and fallible values shared by the whole model, and the one piece
    of JavaScript semantics every module needs: whether an optional string is
    "truthy" (present and not empty). */
module Wrappers {

  datatype Option<+T> = None | Some(value: T)

  datatype Result<+T, +E> = Ok(value: T) | Err(error: E)

  /** `if (s)` on a string that may be `null`/`undefined`: both a missing value
      and the empty string are falsy. */
  predicate Truthy(s: Option<string>) {
    s.Some? && s.value != ""
  }
}
