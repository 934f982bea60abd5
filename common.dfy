/** Shared wrappers: optional values, the outcome of one remote call, and how
    an action that may rethrow ends. */
module Common {

  /** A value that may be absent (`undefined` / `null` in the stores). */
  datatype Option<+T> = None | Some(value: T)

  /** The outcome of one call to the remote service: the decoded response, or a
      failure carrying the server's optional human-readable message. */
  datatype Remote<+T> = Ok(value: T) | Fail(message: Option<string>)

  /** How an action that logs and rethrows ends: it returned a value, or it
      rethrew the remote failure to its caller. */
  datatype Completion<+T> = Returned(value: T) | Threw(message: Option<string>)

  /** A JavaScript value's truthiness for an optional string: absent and empty are falsy. */
  predicate Truthy(s: Option<string>)
  {
    s.Some? && s.value != ""
  }
}
