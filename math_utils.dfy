/** The tolerance comparator shared by every floating-point comparison of the
    tuple library. Numbers are modelled as `real`: the comparator only
    subtracts, takes an absolute value and compares, so nothing but rounding
    is lost. */
module MathUtils {

  /** The shared tolerance, 1e-6. */
  const EPSILON: real := 0.000001

  /** Absolute value of a real. */
  function Abs(v: real): (r: real)
    ensures r >= 0.0
    ensures r == v || r == -v
  {
    if v < 0.0 then -v else v
  }

  /** `equal(a, b, eps)`: a and b lie strictly closer than eps. */
  function EqualWithin(a: real, b: real, eps: real): (r: bool)
    ensures r <==> -eps < a - b < eps
    ensures eps <= 0.0 ==> !r
  {
    Abs(a - b) < eps
  }

  /** `equal(a, b)` called with its default tolerance. */
  function Equal(a: real, b: real): (r: bool)
    ensures r <==> -0.000001 < a - b < 0.000001
  {
    EqualWithin(a, b, EPSILON)
  }

  lemma EqualWithinReflexive(a: real, eps: real)
    requires eps > 0.0
    ensures EqualWithin(a, a, eps)
  {
  }

  lemma EqualWithinSymmetric(a: real, b: real, eps: real)
    ensures EqualWithin(a, b, eps) == EqualWithin(b, a, eps)
  {
  }

  /** Tolerance equality is not transitive, for every positive tolerance. */
  lemma EqualWithinNotTransitive(eps: real)
    requires eps > 0.0
    ensures exists a, b, c :: EqualWithin(a, b, eps) && EqualWithin(b, c, eps) && !EqualWithin(a, c, eps)
  {
    var a, b, c := 0.0, 3.0 * eps / 4.0, 3.0 * eps / 2.0;
    assert EqualWithin(a, b, eps) && EqualWithin(b, c, eps) && !EqualWithin(a, c, eps);
  }

  /** The same with the default tolerance. */
  lemma EqualNotTransitive()
    ensures exists a, b, c :: Equal(a, b) && Equal(b, c) && !Equal(a, c)
  {
    var a, b, c := 0.0, 0.0000006, 0.0000012;
    assert Equal(a, b) && Equal(b, c) && !Equal(a, c);
  }
}
