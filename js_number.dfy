/**
 * JavaScript numbers as the application uses them: the result of `parseFloat`, which is either
 * NaN or a number. Values are exact reals; IEEE-754 rounding is not modelled. A number field read
 * back from JSON is a number or `null` (None): `JSON.stringify` writes NaN as `null`.
 */
module JsNumber {
  import opened Wrappers

  datatype Number = NaN | Num(value: real)

  /** `a + b`: NaN absorbs everything. */
  function Add(a: Number, b: Number): (r: Number)
    ensures r == NaN <==> a == NaN || b == NaN
    ensures a.Num? && b.Num? ==> r.value == a.value + b.value
  {
    match (a, b)
    case (Num(x), Num(y)) => Num(x + y)
    case _ => NaN
  }

  /** `x <= 0`: false for NaN. */
  predicate AtMostZero(x: Number) {
    x.Num? && x.value <= 0.0
  }

  /** A number written by `JSON.stringify` and read back by `JSON.parse`: NaN comes back as `null`. */
  function JsonNumber(x: Number): (r: Option<Number>)
    ensures r.None? <==> x == NaN
    ensures r.Some? ==> r.value == x
  {
    if x == NaN then None else Some(x)
  }

  /** `a + b` where `b` may be `null`, which `+` converts to 0. */
  function AddNullable(a: Number, b: Option<Number>): (r: Number)
    ensures r == NaN <==> a == NaN || b == Some(NaN)
    ensures a.Num? && b.None? ==> r == a
    ensures a.Num? && b.Some? && b.value.Num? ==> r.value == a.value + b.value.value
  {
    match b
    case None => Add(a, Num(0.0))
    case Some(x) => Add(a, x)
  }

  /** Adding a nullable amount after a sum is adding it to the second summand first. */
  lemma AddNullableAssoc(a: Number, b: Number, x: Option<Number>)
    ensures AddNullable(Add(a, b), x) == Add(a, AddNullable(b, x))
  {
  }
}
