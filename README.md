# Tuple algebra of the ray tracer, in Dafny

This project models the geometric core of a small Python ray tracer and
proves laws about it:

- **`MathUtils`** (`math_utils.dfy`) models the shared tolerance comparator.
  `equal(a, b, eps)` holds when `|a - b| < eps`. `EPSILON` is `1e-6`, written
  here as the real `0.000001`. The Python default argument becomes two
  functions: `EqualWithin(a, b, eps)` takes the tolerance explicitly, and
  `Equal(a, b)` uses `EPSILON`.
- **`Tuples`** (`tuples.dfy`) models the frozen four-field `Tuple` as a Dafny
  datatype with member functions. `IsPoint` and `IsVector` are
  `is_point`/`is_vector`. `Add`, `Sub` and `Neg` are `+`, binary `-` and
  unary `-`. `Equals` is the tolerance-based `==`. The module-level factories
  `point` and `vector` become `Point` and `Vector`.
- **`Cannonball`** (`cannonball.dfy`) models `Projectile`, `Environment` and
  the pure function `step`. Both classes are dataclasses that `step` never
  mutates, so they are datatypes here. A datatype value is always a fresh,
  immutable value, so "the inputs are left unchanged" holds by construction.

Components are `real`. The operations only add, subtract, negate, take an
absolute value and compare, so the model is exact apart from rounding.

Classifying a sum or difference follows the documented rules when the
operands' `w` is exactly 0 or 1, which is what the factories produce
(`AddClassification`, `SubClassification`, `Step`). With tuples that are only
classified within tolerance, `w` can drift by up to twice the tolerance. The
documented rules "point + vector is a point" and "point − point is a vector"
then fail. `AddToleranceDrift` and `AddToleranceCounterexample` prove this for
`+`, `SubToleranceCounterexample` for `-`, and `StepToleranceDrift` and
`StepDriftsBy` for `step`. The "neither a point nor a vector" results
(point + point, vector − point, negated point) hold for tolerance-classified
operands as well.

## Model

| member | source | states |
|---|---|---|
| `MathUtils.Abs` | src/utils/math_utils.py:5 | `abs` returns a non-negative value that is the argument or its negation |
| `MathUtils.EqualWithin` | src/utils/math_utils.py:3-5 | `equal(a, b, eps)` holds exactly when `-eps < a - b < eps`, and it never holds when `eps <= 0` |
| `MathUtils.Equal` | src/utils/math_utils.py:1-5 | with the default tolerance, `equal(a, b)` holds exactly when `a` and `b` are closer than `1e-6` |
| `MathUtils.EqualWithinReflexive` | src/utils/math_utils.py:5 | for every positive tolerance, a number is equal to itself |
| `MathUtils.EqualWithinSymmetric` | src/utils/math_utils.py:5 | `equal(a, b, eps)` and `equal(b, a, eps)` agree |
| `MathUtils.EqualWithinNotTransitive` | src/utils/math_utils.py:5 | for every positive tolerance there are `a, b, c` with `a ≈ b`, `b ≈ c` but not `a ≈ c` |
| `MathUtils.EqualNotTransitive` | src/utils/math_utils.py:1-5 | the same non-transitivity with the default tolerance |
| `Tuples.Point` | src/tuples.py:83-85 | `point(x, y, z)` has components `(x, y, z, 1)`, is a point and is not a vector |
| `Tuples.Vector` | src/tuples.py:87-89 | `vector(x, y, z)` has components `(x, y, z, 0)`, is a vector and is not a point |
| `Tuples.NeverPointAndVector` | src/tuples.py:18-26 | no tuple is both a point and a vector |
| `Tuples.AddClassification` | src/tuples.py:28-42 | with exact `w`: point + vector is a point, vector + vector is a vector, point + point has `w = 2`; any two tolerance-points sum to neither a point nor a vector |
| `Tuples.AddExactVectorKeepsKind` | src/tuples.py:28-42 | adding a tuple whose `w` is exactly 0 preserves being a point and being a vector, in both directions |
| `Tuples.AddToleranceDrift` | src/tuples.py:28-42 | a tolerance-point plus a tolerance-vector has `w` within twice the tolerance of 1 |
| `Tuples.AddToleranceCounterexample` | src/tuples.py:29-42 | some tolerance-point plus some tolerance-vector is not a point |
| `Tuples.SubClassification` | src/tuples.py:44-59 | with exact `w`: point − point and vector − vector are vectors, point − vector is a point, vector − point has `w = -1`; any tolerance-vector minus tolerance-point is neither a point nor a vector |
| `Tuples.SubToleranceCounterexample` | src/tuples.py:44-59 | some tolerance-point minus some tolerance-point is not a vector |
| `Tuples.AddCommutative` | src/tuples.py:28-42 | `a + b == b + a`, component by component |
| `Tuples.AddSubRoundTrip` | src/tuples.py:28-59 | `(a + b) - b == a` and `(a - b) + b == a` |
| `Tuples.SubIsAddNeg` | src/tuples.py:44-81 | `a - b == a + (-b)` |
| `Tuples.NegInvolution` | src/tuples.py:74-81 | negating twice gives back the original tuple |
| `Tuples.NegClassification` | src/tuples.py:74-81 | negation keeps vectors vectors (both directions), turns an exact point into `w = -1`, and turns any tolerance-point into neither a point nor a vector |
| `Tuples.EqualsReflexive` | src/tuples.py:61-72 | every tuple is `==` to itself |
| `Tuples.EqualsSymmetric` | src/tuples.py:61-72 | `a == b` exactly when `b == a` |
| `Tuples.EqualsTranslationInvariant` | src/tuples.py:28-72 | `a == b` exactly when `a - b == vector(0, 0, 0)`, and exactly when `a + c == b + c` for any `c` |
| `Tuples.PointNeverEqualsVector` | src/tuples.py:61-72 | a point is never `==` to a vector, whatever their x, y and z, in either order |
| `Tuples.EqualsNotTransitive` | src/tuples.py:61-72 | there are tuples with `a == b`, `b == c` but not `a == c` |
| `Tuples.EqualsScenarios` | unit_tests/test_tuples.py:24-33 | `point(1,2,3) == point(1,2,3)`, `point(1,2,3) != vector(1,2,3)`, `vector(1,2,3) != vector(4,5,6)` |
| `Cannonball.Step` | src/cannonball.py:15-19 | the displacement is the old velocity, the change of velocity is gravity + wind, and an exact point moving under exact vectors stays one, with its velocity a vector |
| `Cannonball.StepToleranceDrift` | src/cannonball.py:17-18 | with tolerance-classified inputs, the new position's `w` is within twice, and the new velocity's within three times, the tolerance of its exact value |
| `Cannonball.StepDriftsBy` | src/cannonball.py:17-18 | for any environment whose gravity and wind are vectors, and any projectile whose position has `w = 1 + d` and velocity `w = d` with `EPSILON/2 < d < EPSILON`: every input passes its classification, yet the new position is not a point |

## Left out

- IEEE-754 behaviour: rounding, NaN, infinities and signed zero. Components are `real`, so NaN's non-reflexive `==` is not modelled.
- AddSubRoundTrip: holds over the reals only. In doubles `(1 + 1e20) - 1e20` is `0`, so `(a + b) - b` can differ from `a` by far more than the tolerance.
- EqualsTranslationInvariant: holds over the reals only, for the same reason: rounding in `a - b` or `a + c` can push a difference across the tolerance.
- Step: its two clauses about `Sub` (displacement equals the old velocity, velocity change equals gravity + wind) hold over the reals only; in doubles the additions round, and the grouping `(velocity + gravity) + wind` can then matter. Its clauses about exact classification hold in doubles too, since `1.0 + 0.0` and `0.0 + 0.0` are exact.
- In IEEE-754 arithmetic AddCommutative, SubIsAddNeg and NegInvolution still hold, apart from NaN.
- The `NotImplemented` branches for non-`Tuple` operands (src/tuples.py:35-36, 52-53, 67-68): a typed model has no such operands.
- The module-level simulation in src/cannonball.py:21-30. It prints, and whether its loop ends depends on concrete float values.
- Dataclass machinery: `__repr__`, generated hashing and the `frozen` enforcement. A Dafny datatype is immutable anyway.
- The predicates `IsPoint`, `IsVector` and `Equals`, and the operations `Add`, `Sub` and `Neg`, carry no contracts of their own. What they mean is stated by the lemmas above.
