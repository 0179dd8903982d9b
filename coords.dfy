/**
 * Points of the canvas and the Euclidean distance between them, over exact reals.
 * JavaScript numbers are IEEE-754 doubles; their rounding is not modelled.
 */
module Coords {

  /** A point, or an offset between two points, in canvas coordinates. */
  datatype Point = Point(x: real, y: real)

  /** The square of a number (`Math.pow(a, 2)`). */
  function Sq(a: real): real
  {
    a * a
  }

  /** The square of the Euclidean distance from p to q. */
  function SqDist(p: Point, q: Point): (d: real)
    ensures d >= 0.0
    ensures d == 0.0 <==> p == q
  {
    SqNonNegative(q.x - p.x);
    SqNonNegative(q.y - p.y);
    if q.x != p.x then
      SqPositive(q.x - p.x);
      Sq(q.x - p.x) + Sq(q.y - p.y)
    else if q.y != p.y then
      SqPositive(q.y - p.y);
      Sq(q.x - p.x) + Sq(q.y - p.y)
    else
      SqOfZero(q.x - p.x);
      SqOfZero(q.y - p.y);
      Sq(q.x - p.x) + Sq(q.y - p.y)
  }

  /**
   * r is the Euclidean distance from p to q: the non-negative square root of
   * SqDist(p, q), which is what `Math.sqrt` of the sum of squares returns.
   */
  predicate IsDistance(r: real, p: Point, q: Point)
  {
    r >= 0.0 && Sq(r) == SqDist(p, q)
  }

  /** A non-negative square root is unique, so IsDistance determines the length. */
  lemma DistanceUnique(r1: real, r2: real, p: Point, q: Point)
    requires IsDistance(r1, p, q) && IsDistance(r2, p, q)
    ensures r1 == r2
  {
    if r1 < r2 {
      SqMonotone(r1, r2);
    } else if r2 < r1 {
      SqMonotone(r2, r1);
    }
  }

  /** The distance is zero exactly when the two points coincide. */
  lemma DistanceZero(r: real, p: Point, q: Point)
    requires IsDistance(r, p, q)
    ensures r == 0.0 <==> p == q
  {
    if r != 0.0 {
      SqPositive(r);
    } else {
      SqOfZero(r);
    }
  }

  // Arithmetic facts. Each product is passed in as a parameter `s`, so that a
  // caller can hand over a function term such as Sq(a) and keep the fact.

  lemma MulPositive(a: real, b: real, s: real)
    requires a > 0.0 && b > 0.0 && s == a * b
    ensures s > 0.0
  {
  }

  lemma MulNonNegative(a: real, b: real, s: real)
    requires a >= 0.0 && b >= 0.0 && s == a * b
    ensures s >= 0.0
  {
    if a > 0.0 && b > 0.0 {
      MulPositive(a, b, s);
    }
  }

  lemma SqOfZero(a: real)
    requires a == 0.0
    ensures Sq(a) == 0.0
  {
  }

  lemma SqPositive(a: real)
    requires a != 0.0
    ensures Sq(a) > 0.0
  {
    if a > 0.0 {
      MulPositive(a, a, Sq(a));
    } else {
      MulPositive(-a, -a, Sq(a));
    }
  }

  lemma SqNonNegative(a: real)
    ensures Sq(a) >= 0.0
  {
    if a != 0.0 {
      SqPositive(a);
    } else {
      SqOfZero(a);
    }
  }

  lemma SqMonotone(a: real, b: real)
    requires 0.0 <= a < b
    ensures Sq(a) < Sq(b)
  {
    MulPositive(b - a, b + a, Sq(b) - Sq(a));
  }

  /** Scaling a number by k scales its square by k*k. */
  lemma SqScale(k: real, a: real)
    ensures Sq(k * a) == Sq(k) * Sq(a)
  {
  }
}
