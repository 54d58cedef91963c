/** Failure-compatible wrappers shared by the whole model. */
module Common {

  /** A value that may be absent: a missing field, a SQL NULL, a JavaScript `null`/`undefined`. */
  datatype Option<+T> = None | Some(value: T)

  /** The outcome of an operation that either returns a value or throws. */
  datatype Result<+T, +E> = Success(value: T) | Failure(error: E)

  /** JavaScript truthiness of an optional string: absent and "" are falsy. */
  predicate Filled(s: Option<string>) {
    s.Some? && s.value != ""
  }

  /** `a || b` on an optional string. */
  function OrElse(s: Option<string>, fallback: string): (r: string)
    ensures Filled(s) ==> r == s.value
    ensures !Filled(s) ==> r == fallback
  {
    if s.Some? && s.value != "" then s.value else fallback
  }
}
