/**
 * The values the page callbacks receive from their numeric fields and the
 * Python conversions they apply to them: truthiness (`x or default`) and
 * `int()` on a float.
 */
module Values {

  /** A field value as a callback receives it: `None` for an empty field or a
      value that does not parse as a number. */
  datatype Option<+T> = None | Some(value: T)

  datatype Result<+T, +E> = Success(value: T) | Failure(error: E)

  /** The Python exceptions a callback can end with. */
  datatype Exception = IndexError | ValueError

  /** Python truthiness of an optional number: `None` and zero are false. */
  predicate Truthy(x: Option<real>) {
    x.Some? && x.value != 0.0
  }

  /** `x or d`: the field value when it is truthy, the default otherwise. */
  function Or(x: Option<real>, d: real): (r: real)
    ensures Truthy(x) ==> r == x.value
    ensures !Truthy(x) ==> r == d
    ensures d != 0.0 ==> r != 0.0
  {
    if Truthy(x) then x.value else d
  }

  /** Python's `int()` on a float: truncation toward zero. */
  function Trunc(x: real): (n: int)
    ensures 0.0 <= x ==> 0 <= n && n as real <= x < n as real + 1.0
    ensures x < 0.0 ==> n <= 0 && n as real - 1.0 < x <= n as real
  {
    if x >= 0.0 then x.Floor else -((-x).Floor)
  }
}
