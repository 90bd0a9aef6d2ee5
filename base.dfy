/** Shared wrappers: optional values, results with an error message, and
    JavaScript's `||` fallback on strings. */
module Base {

  datatype Option<T> = None | Some(value: T)

  /** A computation that either yields a value or throws an error message. */
  datatype Result<T, E> = Ok(value: T) | Err(error: E)

  /** A string is truthy in JavaScript exactly when it is present and non-empty. */
  predicate Truthy(s: Option<string>)
  {
    s.Some? && s.value != ""
  }

  /** `s || fallback` for an optional string. */
  function OrElse(s: Option<string>, fallback: string): (r: string)
    ensures Truthy(s) ==> r == s.value
    ensures !Truthy(s) ==> r == fallback
  {
    if Truthy(s) then s.value else fallback
  }

  /** An error message `m` thrown as `new Error(m)` and read back as `error.message || fallback`. */
  function MessageOr(m: string, fallback: string): (r: string)
    ensures m != "" ==> r == m
    ensures m == "" ==> r == fallback
  {
    if m != "" then m else fallback
  }

  function Max(a: int, b: int): (r: int)
    ensures r >= a && r >= b && (r == a || r == b)
  {
    if a >= b then a else b
  }
}
