/** JavaScript values as the line plot sees them.

    The widget reads several values that may be `undefined` (an index entry past
    the end of the index list, a colour past the end of the colour list). Such a
    value is `None` here; a present number or string is `Some`.
 */
module JsValues {

  datatype Option<+T> = None | Some(value: T)

  /** JavaScript truthiness of a possibly-undefined number: `undefined` and `0`
      are falsy, every other number is truthy (reals have no `NaN`). */
  predicate Truthy(v: Option<real>)
    ensures v.None? ==> !Truthy(v)
    ensures v == Some(0.0) ==> !Truthy(v)
    ensures v.Some? && v.value != 0.0 ==> Truthy(v)
  {
    v.Some? && v.value != 0.0
  }

  /** `Math.max(a, b)` on ordinary numbers. */
  function Max(a: real, b: real): (r: real)
    ensures r >= a && r >= b
    ensures r == a || r == b
  {
    if a >= b then a else b
  }

  /** `Math.abs(a)`. */
  function Abs(a: real): (r: real)
    ensures r >= 0.0
    ensures r == a || r == -a
  {
    if a >= 0.0 then a else -a
  }
}
