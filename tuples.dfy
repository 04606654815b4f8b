/** The four-component tuple that represents points (w = 1) and vectors
    (w = 0) in 3D space. A tuple is an immutable value: every operation
    builds a new one. */
module Tuples {
  import opened MathUtils

  datatype Tuple = Tuple(x: real, y: real, z: real, w: real)
  {
    /** `is_point`: w is within tolerance of 1. */
    predicate IsPoint()
    {
      Equal(w, 1.0)
    }

    /** `is_vector`: w is within tolerance of 0. */
    predicate IsVector()
    {
      Equal(w, 0.0)
    }

    /** `+`: component-wise sum over all four fields, w included. */
    function Add(other: Tuple): Tuple
    {
      Tuple(x + other.x, y + other.y, z + other.z, w + other.w)
    }

    /** Binary `-`: component-wise difference over all four fields. */
    function Sub(other: Tuple): Tuple
    {
      Tuple(x - other.x, y - other.y, z - other.z, w - other.w)
    }

    /** Unary `-`: every component negated, w included. */
    function Neg(): Tuple
    {
      Tuple(-x, -y, -z, -w)
    }

    /** `==`: all four component pairs pass the tolerance comparator. */
    predicate Equals(other: Tuple)
    {
      Equal(x, other.x) && Equal(y, other.y) && Equal(z, other.z) && Equal(w, other.w)
    }
  }

  /** `point(x, y, z)`. */
  function Point(x: real, y: real, z: real): (p: Tuple)
    ensures p.x == x && p.y == y && p.z == z && p.w == 1.0
    ensures p.IsPoint() && !p.IsVector()
  {
    Tuple(x, y, z, 1.0)
  }

  /** `vector(x, y, z)`. */
  function Vector(x: real, y: real, z: real): (v: Tuple)
    ensures v.x == x && v.y == y && v.z == z && v.w == 0.0
    ensures v.IsVector() && !v.IsPoint()
  {
    Tuple(x, y, z, 0.0)
  }

  // ---------------------------------------------------------------------
  // Classification

  /** 0 and 1 are more than twice the tolerance apart, so no tuple is both. */
  lemma NeverPointAndVector(t: Tuple)
    ensures !(t.IsPoint() && t.IsVector())
  {
  }

  /** Exactly-classified operands (as the factories make them) give the
      documented classification of a sum; point + point is neither a point
      nor a vector even for tolerance-classified operands. */
  lemma AddClassification(a: Tuple, b: Tuple)
    ensures a.w == 1.0 && b.w == 0.0 ==> a.Add(b).w == 1.0 && a.Add(b).IsPoint()
    ensures a.w == 0.0 && b.w == 0.0 ==> a.Add(b).w == 0.0 && a.Add(b).IsVector()
    ensures a.w == 1.0 && b.w == 1.0 ==> a.Add(b).w == 2.0
    ensures a.IsPoint() && b.IsPoint() ==> !a.Add(b).IsPoint() && !a.Add(b).IsVector()
  {
  }

  /** Adding a tuple whose w is exactly 0 keeps the classification. */
  lemma AddExactVectorKeepsKind(t: Tuple, v: Tuple)
    requires v.w == 0.0
    ensures t.Add(v).IsPoint() <==> t.IsPoint()
    ensures t.Add(v).IsVector() <==> t.IsVector()
  {
  }

  /** With merely tolerance-classified operands the w of point + vector can
      drift up to twice the tolerance, so the sum need not be a point. */
  lemma AddToleranceDrift(p: Tuple, v: Tuple)
    requires p.IsPoint() && v.IsVector()
    ensures EqualWithin(p.Add(v).w, 1.0, 2.0 * EPSILON)
  {
  }

  lemma AddToleranceCounterexample()
    ensures exists p: Tuple, v: Tuple :: p.IsPoint() && v.IsVector() && !p.Add(v).IsPoint()
  {
    var p := Tuple(0.0, 0.0, 0.0, 1.0000009);
    var v := Tuple(0.0, 0.0, 0.0, 0.0000009);
    assert p.IsPoint() && v.IsVector() && !p.Add(v).IsPoint();
  }

  /** Exactly-classified operands give the documented classification of a
      difference; vector - point is neither a point nor a vector even for
      tolerance-classified operands. */
  lemma SubClassification(a: Tuple, b: Tuple)
    ensures a.w == 1.0 && b.w == 1.0 ==> a.Sub(b).w == 0.0 && a.Sub(b).IsVector()
    ensures a.w == 1.0 && b.w == 0.0 ==> a.Sub(b).w == 1.0 && a.Sub(b).IsPoint()
    ensures a.w == 0.0 && b.w == 0.0 ==> a.Sub(b).w == 0.0 && a.Sub(b).IsVector()
    ensures a.w == 0.0 && b.w == 1.0 ==> a.Sub(b).w == -1.0
    ensures a.IsVector() && b.IsPoint() ==> !a.Sub(b).IsPoint() && !a.Sub(b).IsVector()
  {
  }

  /** With merely tolerance-classified operands, point - point need not be a
      vector. */
  lemma SubToleranceCounterexample()
    ensures exists p: Tuple, q: Tuple :: p.IsPoint() && q.IsPoint() && !p.Sub(q).IsVector()
  {
    var p := Tuple(0.0, 0.0, 0.0, 1.0000009);
    var q := Tuple(0.0, 0.0, 0.0, 0.9999991);
    assert p.IsPoint() && q.IsPoint() && !p.Sub(q).IsVector();
  }

  // ---------------------------------------------------------------------
  // Algebra

  lemma AddCommutative(a: Tuple, b: Tuple)
    ensures a.Add(b) == b.Add(a)
  {
  }

  /** Subtracting what was added gives back the original tuple. */
  lemma AddSubRoundTrip(a: Tuple, b: Tuple)
    ensures a.Add(b).Sub(b) == a
    ensures a.Sub(b).Add(b) == a
  {
  }

  lemma SubIsAddNeg(a: Tuple, b: Tuple)
    ensures a.Sub(b) == a.Add(b.Neg())
  {
  }

  lemma NegInvolution(t: Tuple)
    ensures t.Neg().Neg() == t
  {
  }

  /** Negation keeps vectors vectors and turns a point (w near 1) into a
      tuple with w near -1, which is neither. */
  lemma NegClassification(t: Tuple)
    ensures t.IsVector() <==> t.Neg().IsVector()
    ensures t.w == 1.0 ==> t.Neg().w == -1.0
    ensures t.IsPoint() ==> !t.Neg().IsPoint() && !t.Neg().IsVector()
  {
  }

  // ---------------------------------------------------------------------
  // Tolerance equality

  lemma EqualsReflexive(t: Tuple)
    ensures t.Equals(t)
  {
  }

  lemma EqualsSymmetric(a: Tuple, b: Tuple)
    ensures a.Equals(b) <==> b.Equals(a)
  {
  }

  /** Tolerance equality agrees with the other operators: two tuples are
      `==` exactly when their difference is `==` to the zero vector, and
      adding the same tuple to both sides changes nothing. */
  lemma EqualsTranslationInvariant(a: Tuple, b: Tuple, c: Tuple)
    ensures a.Equals(b) <==> a.Sub(b).Equals(Vector(0.0, 0.0, 0.0))
    ensures a.Equals(b) <==> a.Add(c).Equals(b.Add(c))
  {
  }

  /** A point never equals a vector, whatever their x, y and z. */
  lemma PointNeverEqualsVector(p: Tuple, v: Tuple)
    requires p.IsPoint() && v.IsVector()
    ensures !p.Equals(v) && !v.Equals(p)
  {
  }

  lemma EqualsNotTransitive()
    ensures exists a: Tuple, b: Tuple, c: Tuple :: a.Equals(b) && b.Equals(c) && !a.Equals(c)
  {
    var a := Vector(0.0, 0.0, 0.0);
    var b := Vector(0.0000006, 0.0, 0.0);
    var c := Vector(0.0000012, 0.0, 0.0);
    assert a.Equals(b) && b.Equals(c) && !a.Equals(c);
  }

  /** The equality scenarios of the unit tests. */
  lemma EqualsScenarios()
    ensures Point(1.0, 2.0, 3.0).Equals(Point(1.0, 2.0, 3.0))
    ensures !Point(1.0, 2.0, 3.0).Equals(Vector(1.0, 2.0, 3.0))
    ensures !Vector(1.0, 2.0, 3.0).Equals(Vector(4.0, 5.0, 6.0))
  {
  }
}
