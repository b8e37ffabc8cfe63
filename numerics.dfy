/**
 * The scalar library the transform code calls (Unity's Mathf), over the reals.
 *
 * Square root and the trigonometric functions are not given definitions: every
 * operation that needs them takes a `Mathf` value as a parameter, and a lemma
 * that depends on them states the laws it relies on in its requires clause.
 */
module Numerics {

  /** Mathf.Sqrt, Mathf.Acos, Mathf.Sin and Mathf.Cos, left uninterpreted. */
  datatype Mathf = Mathf(sqrt: real -> real, acos: real -> real, sin: real -> real, cos: real -> real)

  /** Mathf.PI: the single-precision float nearest to pi. */
  const PI: real := 3.14159274

  /** The square-root law the proofs use: a non-negative root whose square is the argument. */
  ghost predicate SqrtLaws(mathf: Mathf) {
    forall x: real :: 0.0 <= x ==> 0.0 <= mathf.sqrt(x) && mathf.sqrt(x) * mathf.sqrt(x) == x
  }

  /** The three trigonometric values the proofs use. */
  ghost predicate TrigLaws(mathf: Mathf) {
    mathf.acos(-1.0) == PI && mathf.sin(0.0) == 0.0 && mathf.cos(0.0) == 1.0
  }

  /** The absolute value. */
  function Abs(x: real): real {
    if x < 0.0 then -x else x
  }

  /** Mathf.Clamp: `value` pulled into [min, max]. */
  function Clamp(value: real, min: real, max: real): (r: real)
    ensures min <= max ==> min <= r <= max
    ensures min <= value <= max ==> r == value
    ensures r == value || r == min || r == max
    ensures value < min ==> r == min
    ensures min <= value && max < value ==> r == max
  {
    if value < min then min else if value > max then max else value
  }

  /** The root of a square is the (non-negative) number squared. */
  lemma SqrtOfSquare(mathf: Mathf, x: real)
    requires SqrtLaws(mathf)
    requires 0.0 <= x
    ensures mathf.sqrt(x * x) == x
  {
    var r := mathf.sqrt(x * x);
    assert 0.0 <= x * x;
    SquareIsInjective(r, x);
  }

  /** Two non-negative reals with the same square are equal. */
  lemma SquareIsInjective(a: real, b: real)
    requires 0.0 <= a && 0.0 <= b && a * a == b * b
    ensures a == b
  {
    if a < b {
      SquareIsMonotone(a, b);
    } else if b < a {
      SquareIsMonotone(b, a);
    }
  }

  lemma SquareIsMonotone(a: real, b: real)
    requires 0.0 <= a < b
    ensures a * a < b * b
  {
    var ab := a * b;
    assert a * a <= ab;
    assert ab < b * b;
  }

  /** Mathf.Sqrt(1) == 1. */
  lemma SqrtOne(mathf: Mathf)
    requires SqrtLaws(mathf)
    ensures mathf.sqrt(1.0) == 1.0
  {
    SqrtOfSquare(mathf, 1.0);
  }
}
