/** Points in the plane with the game's epsilon-tolerant equality (src/Point.java). */
module Points {
  import opened Wrappers

  /** The tolerance every geometric comparison of the game uses (1e-10). */
  const EPSILON: real := 0.0000000001

  function Abs(a: real): (r: real)
    ensures r >= 0.0 && (r == a || r == -a)
  {
    if a < 0.0 then -a else a
  }

  /** A point with exact real coordinates. */
  datatype Point = Point(x: real, y: real)

  /** The offset constructor: a new point displaced from p by (dx, dy). */
  function Offset(p: Point, dx: real, dy: real): (q: Point)
    ensures q.x - p.x == dx && q.y - p.y == dy
  {
    Point(p.x + dx, p.y + dy)
  }

  /** The square of Point.distance; comparing squares orders distances exactly as the square roots do. */
  function DistanceSq(p: Point, q: Point): (d: real)
  {
    (p.x - q.x) * (p.x - q.x) + (p.y - q.y) * (p.y - q.y)
  }

  /** Two doubles are equal when they differ by less than EPSILON. */
  predicate IsDoubleEqual(a: real, b: real)
  {
    Abs(a - b) < EPSILON
  }

  /** Point.equals: both coordinates within EPSILON of each other. */
  predicate Equals(p: Point, q: Point)
  {
    IsDoubleEqual(p.x, q.x) && IsDoubleEqual(p.y, q.y)
  }

  /** Point.equals with a possibly absent (null) comparand. */
  predicate EqualsNullable(p: Point, other: Option<Point>)
  {
    match other
    case None => false
    case Some(q) => Equals(p, q)
  }

  lemma OffsetComposes(p: Point, dx1: real, dy1: real, dx2: real, dy2: real)
    ensures Offset(Offset(p, dx1, dy1), dx2, dy2) == Offset(p, dx1 + dx2, dy1 + dy2)
  {
  }

  lemma DistanceSqSymmetric(p: Point, q: Point)
    ensures DistanceSq(p, q) == DistanceSq(q, p)
  {
  }

  lemma DistanceSqNonNegative(p: Point, q: Point)
    ensures DistanceSq(p, q) >= 0.0
    ensures DistanceSq(p, p) == 0.0
  {
    SquareIsPositive(p.x - q.x);
    SquareIsPositive(p.y - q.y);
  }

  lemma SquareIsPositive(a: real)
    ensures a * a >= 0.0
    ensures a != 0.0 ==> a * a > 0.0
  {
    if a < 0.0 {
      var b := -a;
      assert b * b > 0.0;
      assert a * a == b * b;
    } else if a == 0.0 {
      assert a * a == 0.0 * 0.0;
    }
  }

  lemma EqualsNullIsFalse(p: Point)
    ensures !EqualsNullable(p, None)
  {
  }

  /** Equality means both coordinates differ by less than EPSILON; it is reflexive and symmetric. */
  lemma EqualsIsReflexiveAndSymmetric(p: Point, q: Point)
    ensures Equals(p, p)
    ensures Equals(p, q) <==> Equals(q, p)
    ensures Equals(p, q) <==> -EPSILON < p.x - q.x < EPSILON && -EPSILON < p.y - q.y < EPSILON
  {
  }

  /** Equality is not transitive: three points EPSILON/2 apart in a row. */
  lemma EqualsIsNotTransitive()
    ensures exists p, q, r :: Equals(p, q) && Equals(q, r) && !Equals(p, r)
  {
    var p, q, r := Point(0.0, 0.0), Point(EPSILON * 0.75, 0.0), Point(EPSILON * 1.5, 0.0);
    assert Equals(p, q) && Equals(q, r) && !Equals(p, r);
  }
}
