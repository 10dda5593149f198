/** Landmark points and the wrist-proximity test of the game (game.py:10-11, 82-84). */
module Geometry {

  /** A normalised, camera-relative landmark coordinate. */
  datatype Point = Point(x: real, y: real, z: real)

  const Origin: Point := Point(0.0, 0.0, 0.0)

  /** Wrists closer than this (in normalised units) mean "thinking". */
  const Threshold: real := 0.15

  /** Square of the Euclidean distance between two points. */
  function SquaredDistance(p: Point, q: Point): (d: real)
    ensures d >= 0.0
    ensures p == q ==> d == 0.0
    ensures (p.x - q.x) * (p.x - q.x) <= d && (p.y - q.y) * (p.y - q.y) <= d && (p.z - q.z) * (p.z - q.z) <= d
  {
    SquareNonNegative(p.x - q.x);
    SquareNonNegative(p.y - q.y);
    SquareNonNegative(p.z - q.z);
    (p.x - q.x) * (p.x - q.x) + (p.y - q.y) * (p.y - q.y) + (p.z - q.z) * (p.z - q.z)
  }

  lemma SquareNonNegative(a: real)
    ensures a * a >= 0.0
  {
  }

  /**
   * The strict test `distance < 0.15`. The distance is a square root, and
   * the square root is monotone on non-negative reals, so comparing squares
   * decides the same question.
   */
  predicate Close(p: Point, q: Point)
    ensures p == q ==> Close(p, q)
    ensures Close(p, q) ==> (p.x - q.x) * (p.x - q.x) < Threshold * Threshold
    ensures Close(p, q) ==> (p.y - q.y) * (p.y - q.y) < Threshold * Threshold
    ensures Close(p, q) ==> (p.z - q.z) * (p.z - q.z) < Threshold * Threshold
  {
    SquaredDistance(p, q) < Threshold * Threshold
  }

  /** Closeness does not depend on which wrist is named first. */
  lemma CloseSymmetric(p: Point, q: Point)
    ensures Close(p, q) <==> Close(q, p)
  {
  }

  /** Wrists exactly 0.15 apart are not close: the test is strict. */
  lemma CloseBoundary(p: Point, q: Point)
    requires SquaredDistance(p, q) == Threshold * Threshold
    ensures !Close(p, q)
  {
  }
}
