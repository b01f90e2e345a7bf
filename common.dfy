/** Value types shared by the whole model: the nullable values and thrown errors of the
    application, and JavaScript's notion of a "falsy" optional string. */
module Common {

  /** A value that may be `null`/`undefined` in the application. */
  datatype Option<+T> = None | Some(value: T)

  /** The outcome of a call that either returns a value or throws. */
  datatype Result<+T, +E> = Ok(value: T) | Err(error: E)

  /** JavaScript truthiness of an optional string: `null`, `undefined` and `''` are falsy. */
  predicate Truthy(v: Option<string>) {
    v.Some? && v.value != ""
  }

  /** `v || fallback` for an optional string. */
  function OrElse(v: Option<string>, fallback: string): (r: string)
    ensures Truthy(v) ==> r == v.value
    ensures !Truthy(v) ==> r == fallback
    ensures r == "" ==> fallback == "" && !Truthy(v)
  {
    if Truthy(v) then v.value else fallback
  }
}
