/**
 * JavaScript value conventions shared by the store and the services: `||`
 * treats the empty string as missing, and an object spread lets a supplied
 * field replace the stored one.
 */
module Js {
  import opened Wrappers

  /** `x || fallback` for an optional string: the empty string is falsy. */
  function OrString(x: Option<string>, fallback: string): (r: string)
    ensures x.Some? && x.value != "" ==> r == x.value
    ensures x.None? || x.value == "" ==> r == fallback
  {
    if x.Some? && x.value != "" then x.value else fallback
  }

  /** `if (x)` for an optional string filter. */
  predicate Truthy(x: Option<string>) {
    x.Some? && x.value != ""
  }

  /** `{ ...old, ...data }` for an optional field: a supplied value replaces the stored one. */
  function Override<T>(supplied: Option<T>, stored: Option<T>): Option<T> {
    if supplied.Some? then supplied else stored
  }

  /**
   * One field of `{ ...old, ...data }`: the supplied value when `data` has
   * the key, the stored one when it does not.
   */
  predicate Spread<T(==)>(supplied: Option<T>, stored: T, result: T) {
    && (supplied.Some? ==> result == supplied.value)
    && (supplied.None? ==> result == stored)
  }

  /** The same for a field that may itself be absent from the record. */
  predicate SpreadOptional<T(==)>(supplied: Option<T>, stored: Option<T>, result: Option<T>) {
    && (supplied.Some? ==> result == supplied)
    && (supplied.None? ==> result == stored)
  }

  /**
   * `a % b` for a positive divisor: JavaScript truncates, so the remainder
   * takes the sign of `a`; `Math.floor(a / b)` is Dafny's `a / b`.
   */
  function JsRem(a: int, b: int): (r: int)
    requires b > 0
    ensures a >= 0 ==> r == a % b && 0 <= r < b
    ensures a < 0 ==> r == -((-a) % b) && -b < r <= 0
  {
    if a >= 0 then a % b else -((-a) % b)
  }
}
