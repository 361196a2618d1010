/** Small shared vocabulary: optional values, results, and JavaScript truthiness
    of an optional string (`undefined`, `null` and `''` are falsy). */
module Basics {

  /** A value that may be absent (`null` / `undefined` in the source). */
  datatype Option<+T> = None | Some(value: T)

  /** A computation that either produced a value or was rejected with an error. */
  datatype Result<+T, +E> = Ok(value: T) | Err(error: E)

  /** `if (s)` on a `string | null | undefined`: true exactly for a present, non-empty string. */
  predicate Truthy(s: Option<string>) {
    s.Some? && s.value != ""
  }

  /** `s || fallback` for a `string | null | undefined` operand. */
  function OrElse(s: Option<string>, fallback: string): (r: string)
    ensures Truthy(s) ==> r == s.value
    ensures !Truthy(s) ==> r == fallback
  {
    if Truthy(s) then s.value else fallback
  }

  /** `s.startsWith(prefix)`. */
  predicate StartsWith(s: string, prefix: string) {
    |prefix| <= |s| && s[..|prefix|] == prefix
  }
}
