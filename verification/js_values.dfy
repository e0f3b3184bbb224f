/**
 * The slice of JavaScript value semantics the components rely on: optional
 * (possibly `undefined`) fields and the truthiness that `||` and `&&` test.
 */
module JsValues {

  /** An optional field: `None` stands for `undefined` (or `null`). */
  datatype Option<+T> = None | Some(value: T)

  /** A string is truthy in JavaScript unless it is undefined or empty. */
  predicate Truthy(o: Option<string>) {
    o.Some? && o.value != ""
  }

  /**
   * `o || fallback` on an optional string: the field when it is truthy,
   * otherwise the fallback. A non-empty fallback therefore guarantees a
   * non-empty result.
   */
  function OrElse(o: Option<string>, fallback: string): (r: string)
    ensures Truthy(o) ==> r == o.value
    ensures !Truthy(o) ==> r == fallback
    ensures fallback != "" ==> r != ""
  {
    if o.Some? && o.value != "" then o.value else fallback
  }
}
