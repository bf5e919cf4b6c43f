/** Failure-carrying values used wherever the application calls the hosted
    backend: an optional value, a value-or-error, and a pass-or-error. */
module Wrappers {

  datatype Option<+T> = None | Some(value: T)

  datatype Result<+T, +E> = Success(value: T) | Failure(error: E)

  datatype Outcome<+E> = Pass | Fail(error: E)

  /** JavaScript truthiness of a nullable string: `null` and `''` are falsy. */
  predicate Truthy(s: Option<string>) {
    s.Some? && s.value != ""
  }

  /** The `x || fallback` idiom on a nullable string. */
  function OrElse(s: Option<string>, fallback: string): (r: string)
    ensures Truthy(s) ==> r == s.value
    ensures !Truthy(s) ==> r == fallback
  {
    if Truthy(s) then s.value else fallback
  }

  /** The `{ ...kept, ...patch }` rule for one field: a field the patch
      carries wins. */
  function Pick<T>(patched: Option<T>, kept: T): (r: T)
    ensures patched.Some? ==> r == patched.value
    ensures patched.None? ==> r == kept
  {
    if patched.Some? then patched.value else kept
  }

  /** The same rule for a field that may itself be absent. */
  function PickOption<T>(patched: Option<T>, kept: Option<T>): (r: Option<T>)
    ensures patched.Some? ==> r == patched
    ensures patched.None? ==> r == kept
  {
    if patched.Some? then patched else kept
  }
}
