/** Optional values and HTTP-style handler replies shared by every module. */
module Wrappers {

  /** `None` stands for JavaScript's `undefined`/`null`. */
  datatype Option<T> = None | Some(value: T)

  /** What a route handler answers: a JSON body, or an HTTP error status with its message. */
  datatype Reply<T> = Ok(value: T) | Err(code: int, message: string)

  /** `s || fallback` for an optional string: the empty string is falsy in JavaScript. */
  function OrString(s: Option<string>, fallback: string): (r: string)
    ensures s.Some? && s.value != "" ==> r == s.value
    ensures (s.None? || s.value == "") ==> r == fallback
  {
    if s.Some? && s.value != "" then s.value else fallback
  }

  /** JavaScript truthiness of an optional string. */
  predicate TruthyString(s: Option<string>)
  {
    s.Some? && s.value != ""
  }

  /** String coercion of an optional string, as `+` does it: a missing value prints as "undefined". */
  function JsString(s: Option<string>): string
  {
    if s.Some? then s.value else "undefined"
  }
}
