/** Line segments: slope, range tests and the segment-segment intersection case split (src/Line.java). */
module Lines {
  import opened Wrappers
  import opened Points

  /** The slope of a segment, or the sentinel the source stores as positive infinity. */
  datatype Slope = Vertical | Slope(m: real)

  /** A segment from start to end; slope and intercept are derived from the endpoints. */
  datatype Line = Line(start: Point, end: Point)

  function Min(a: real, b: real): real { if a <= b then a else b }
  function Max(a: real, b: real): real { if a <= b then b else a }

  /** Line.slopeCalculator: vertical when the x extent is below EPSILON. */
  function SlopeOf(l: Line): Slope
  {
    var x1, y1, x2, y2 := l.start.x, l.start.y, l.end.x, l.end.y;
    if Abs(x2 - x1) < EPSILON then Vertical else Slope((y2 - y1) / (x2 - x1))
  }

  /** Line.yInterceptCalculator; only the non-vertical case is defined here. */
  function YIntercept(l: Line): real
    requires SlopeOf(l).Slope?
  {
    l.start.y - SlopeOf(l).m * l.start.x
  }

  /** The y of the point above x on a non-vertical segment's line, y = slope * x + yIntercept. */
  function YAt(l: Line, x: real): real
    requires SlopeOf(l).Slope?
  {
    SlopeOf(l).m * x + YIntercept(l)
  }

  /** Line.isInRange: v lies in the closed range between a and b, or within EPSILON of a bound. */
  predicate IsInRange(a: real, b: real, v: real)
  {
    var hi, lo := if b >= a then b else a, if b >= a then a else b;
    (hi > v && v > lo) || Abs(hi - v) < EPSILON || Abs(lo - v) < EPSILON
  }

  /** Line.isInsideRange: v lies strictly between a and b. */
  predicate IsInsideRange(a: real, b: real, v: real)
  {
    var hi, lo := if b >= a then b else a, if b >= a then a else b;
    hi > v && v > lo
  }

  /** The four-way closed-range overlap test shared by the collinear and both-vertical cases. */
  predicate RangesMeet(thisA: real, thisB: real, otherA: real, otherB: real)
  {
    IsInRange(otherA, otherB, thisA) || IsInRange(otherA, otherB, thisB)
    || IsInRange(thisA, thisB, otherA) || IsInRange(thisA, thisB, otherB)
  }

  /** The same test with open ranges: the segments overlap in their interiors. */
  predicate RangesOverlapInside(thisA: real, thisB: real, otherA: real, otherB: real)
  {
    IsInsideRange(otherA, otherB, thisA) || IsInsideRange(otherA, otherB, thisB)
    || IsInsideRange(thisA, thisB, otherA) || IsInsideRange(thisA, thisB, otherB)
  }

  /** Line.middle: the point that splits the segment into two equal displacements. */
  function Middle(l: Line): (mid: Point)
    ensures mid.x - l.start.x == l.end.x - mid.x && mid.y - l.start.y == l.end.y - mid.y
    ensures DistanceSq(l.start, mid) == DistanceSq(mid, l.end)
    ensures Min(l.start.x, l.end.x) <= mid.x <= Max(l.start.x, l.end.x)
    ensures Min(l.start.y, l.end.y) <= mid.y <= Max(l.start.y, l.end.y)
  {
    var mid := Point((l.start.x + l.end.x) / 2.0, (l.start.y + l.end.y) / 2.0);
    assert l.start.x - mid.x == mid.x - l.end.x;
    assert l.start.y - mid.y == mid.y - l.end.y;
    mid
  }

  /** The midpoint does not depend on the segment's orientation, and a degenerate segment's midpoint
      is its single point. */
  lemma MiddleIsOrientationFree(l: Line)
    ensures Middle(Line(l.end, l.start)) == Middle(l)
    ensures l.start == l.end ==> Middle(l) == l.start
  {
  }

  /** Line.isIntersectingVertical: the branch used when at least one segment is vertical. */
  predicate IsIntersectingVertical(l: Line, other: Line)
  {
    if SlopeOf(l).Vertical? && SlopeOf(other).Vertical? then
      Abs(other.start.x - l.start.x) < EPSILON
      && RangesMeet(l.start.y, l.end.y, other.start.y, other.end.y)
    else if SlopeOf(l).Vertical? then
      var mutualY := YAt(other, l.start.x);
      IsInRange(other.start.x, other.end.x, l.start.x) && IsInRange(l.start.y, l.end.y, mutualY)
    else
      var mutualY := YAt(l, other.start.x);
      IsInRange(l.start.x, l.end.x, other.start.x) && IsInRange(other.start.y, other.end.y, mutualY)
  }

  /** The x where two non-parallel, non-vertical segments' lines cross. */
  function MutualX(l: Line, other: Line): real
    requires SlopeOf(l).Slope? && SlopeOf(other).Slope?
    requires !(Abs(SlopeOf(other).m - SlopeOf(l).m) < EPSILON)
  {
    (YIntercept(l) - YIntercept(other)) / (SlopeOf(other).m - SlopeOf(l).m)
  }

  /** Line.isIntersecting. */
  predicate IsIntersecting(l: Line, other: Line)
  {
    if SlopeOf(l).Vertical? || SlopeOf(other).Vertical? then
      IsIntersectingVertical(l, other)
    else if Abs(SlopeOf(other).m - SlopeOf(l).m) < EPSILON then
      Abs(YIntercept(other) - YIntercept(l)) < EPSILON
      && RangesMeet(l.start.x, l.end.x, other.start.x, other.end.x)
    else
      var mutualX := MutualX(l, other);
      IsInRange(other.start.x, other.end.x, mutualX) && IsInRange(l.start.x, l.end.x, mutualX)
  }

  /** Line.equals: the endpoints match in either orientation. */
  predicate LineEquals(l: Line, other: Line)
  {
    (Equals(l.start, other.start) && Equals(l.end, other.end))
    || (Equals(l.start, other.end) && Equals(l.end, other.start))
  }

  /** The endpoint reported when parallel segments only touch: start if it touches the other segment's ends. */
  function TouchingEndpoint(l: Line, other: Line): Point
  {
    if Equals(l.start, other.start) || Equals(l.start, other.end) then l.start else l.end
  }

  /** Line.intersectionWithVertical. */
  function IntersectionWithVertical(l: Line, other: Line): Option<Point>
  {
    if SlopeOf(l).Vertical? && SlopeOf(other).Vertical? then
      if RangesOverlapInside(l.start.y, l.end.y, other.start.y, other.end.y) then None
      else Some(TouchingEndpoint(l, other))
    else if SlopeOf(l).Vertical? then
      if IsInRange(other.start.x, other.end.x, l.start.x) then
        var mutualY := YAt(other, l.start.x);
        if IsInRange(l.start.y, l.end.y, mutualY) then Some(Point(l.start.x, mutualY)) else None
      else None
    else
      if IsInRange(l.start.x, l.end.x, other.start.x) then
        var mutualY := YAt(l, other.start.x);
        if IsInRange(other.start.y, other.end.y, mutualY) then Some(Point(other.start.x, mutualY)) else None
      else None
  }

  /** Line.intersectionWith: None stands for the source's null. */
  function IntersectionWith(l: Line, other: Line): Option<Point>
  {
    if !IsIntersecting(l, other) then None
    else if LineEquals(l, other) then None
    else if SlopeOf(l).Vertical? || SlopeOf(other).Vertical? then IntersectionWithVertical(l, other)
    else if Abs(SlopeOf(other).m - SlopeOf(l).m) < EPSILON then
      if RangesOverlapInside(l.start.x, l.end.x, other.start.x, other.end.x) then None
      else Some(TouchingEndpoint(l, other))
    else
      var mutualX := MutualX(l, other);
      Some(Point(mutualX, YAt(other, mutualX)))
  }

  /** Whether the two segments fall in the parallel family: both vertical, or slopes within EPSILON. */
  predicate Parallel(l: Line, other: Line)
  {
    (SlopeOf(l).Vertical? && SlopeOf(other).Vertical?)
    || (SlopeOf(l).Slope? && SlopeOf(other).Slope? && Abs(SlopeOf(other).m - SlopeOf(l).m) < EPSILON)
  }

  /** Whether a parallel pair overlaps in the interior of its common axis range. */
  predicate OverlapInside(l: Line, other: Line)
  {
    if SlopeOf(l).Vertical? then RangesOverlapInside(l.start.y, l.end.y, other.start.y, other.end.y)
    else RangesOverlapInside(l.start.x, l.end.x, other.start.x, other.end.x)
  }

  // ---------------------------------------------------------------------------
  // Slope and intercept

  /** The sentinel is chosen exactly for |x2 - x1| < EPSILON; otherwise both endpoints lie on y = m x + b. */
  lemma SlopeCharacterization(l: Line)
    ensures SlopeOf(l).Vertical? <==> Abs(l.end.x - l.start.x) < EPSILON
    ensures SlopeOf(l).Slope? ==>
      l.start.y == YAt(l, l.start.x) && l.end.y == YAt(l, l.end.x)
  {
    if SlopeOf(l).Slope? {
      var x1, y1, x2, y2 := l.start.x, l.start.y, l.end.x, l.end.y;
      var m := SlopeOf(l).m;
      assert m == (y2 - y1) / (x2 - x1);
      EndOnSlopeLine(x1, y1, x2, y2);
      assert YAt(l, x2) == m * x2 + (y1 - m * x1);
    }
  }

  /** The end of a non-vertical segment lies on the line through its start with the segment's slope. */
  lemma EndOnSlopeLine(x1: real, y1: real, x2: real, y2: real)
    requires x2 - x1 != 0.0
    ensures var m := (y2 - y1) / (x2 - x1); y2 == m * x2 + (y1 - m * x1)
  {
    var m, d := (y2 - y1) / (x2 - x1), x2 - x1;
    assert m * d == y2 - y1;
    assert m * x2 - m * x1 == m * d;
  }

  // ---------------------------------------------------------------------------
  // Range tests

  /** isInRange is the open interval widened by EPSILON on both sides, whatever the order of the bounds. */
  lemma IsInRangeCharacterization(a: real, b: real, v: real)
    ensures IsInRange(a, b, v) <==> Min(a, b) - EPSILON < v < Max(a, b) + EPSILON
    ensures IsInRange(a, b, v) == IsInRange(b, a, v)
    ensures IsInRange(a, b, a) && IsInRange(a, b, b)
  {
  }

  /** isInsideRange is the open interval, so it implies isInRange and fails at the bounds and on a degenerate range. */
  lemma IsInsideRangeCharacterization(a: real, b: real, v: real)
    ensures IsInsideRange(a, b, v) <==> Min(a, b) < v < Max(a, b)
    ensures IsInsideRange(a, b, v) ==> IsInRange(a, b, v)
    ensures !IsInsideRange(a, b, a) && !IsInsideRange(a, b, b)
    ensures !IsInsideRange(a, a, v)
  {
  }

  // ---------------------------------------------------------------------------
  // Intersection

  lemma MutualXSymmetric(l: Line, other: Line)
    requires SlopeOf(l).Slope? && SlopeOf(other).Slope?
    requires !(Abs(SlopeOf(other).m - SlopeOf(l).m) < EPSILON)
    ensures !(Abs(SlopeOf(l).m - SlopeOf(other).m) < EPSILON)
    ensures MutualX(l, other) == MutualX(other, l)
  {
    var n, d := YIntercept(l) - YIntercept(other), SlopeOf(other).m - SlopeOf(l).m;
    assert d != 0.0;
    assert (-n) / (-d) == n / d;
  }

  /** isIntersecting is symmetric in all four slope cases. */
  lemma IsIntersectingSymmetric(l: Line, other: Line)
    ensures IsIntersecting(l, other) == IsIntersecting(other, l)
  {
    if SlopeOf(l).Vertical? || SlopeOf(other).Vertical? {
    } else if Abs(SlopeOf(other).m - SlopeOf(l).m) < EPSILON {
    } else {
      MutualXSymmetric(l, other);
    }
  }

  /** Line.equals is symmetric, and a segment equals its own reversal. */
  lemma LineEqualsSymmetric(l: Line, other: Line)
    ensures LineEquals(l, other) == LineEquals(other, l)
    ensures LineEquals(l, Line(l.end, l.start))
  {
  }

  /** intersectionWith is null when the segments do not intersect, and when they are equal. */
  lemma IntersectionNullCases(l: Line, other: Line)
    ensures !IsIntersecting(l, other) ==> IntersectionWith(l, other) == None
    ensures LineEquals(l, other) ==> IntersectionWith(l, other) == None
  {
  }

  /** The different-slopes branch of intersectionWith. */
  lemma CrossingBranch(l: Line, other: Line)
    requires SlopeOf(l).Slope? && SlopeOf(other).Slope?
    requires !(Abs(SlopeOf(other).m - SlopeOf(l).m) < EPSILON)
    ensures IntersectionWith(l, other) ==
      if IsIntersecting(l, other) && !LineEquals(l, other)
      then Some(Point(MutualX(l, other), YAt(other, MutualX(l, other))))
      else None
    ensures IsIntersecting(l, other) <==>
      IsInRange(other.start.x, other.end.x, MutualX(l, other)) && IsInRange(l.start.x, l.end.x, MutualX(l, other))
  {
    if IsIntersecting(l, other) && !LineEquals(l, other) {
      var x := MutualX(l, other);
      assert IntersectionWith(l, other) == Some(Point(x, YAt(other, x)));
    }
  }

  /** Two non-parallel lines y = ml x + bl and y = mo x + bo meet at x = (bl - bo) / (mo - ml). */
  lemma CrossingPointOnBothLines(ml: real, bl: real, mo: real, bo: real)
    requires mo - ml != 0.0
    ensures var x := (bl - bo) / (mo - ml); mo * x + bo == ml * x + bl
  {
    var x := (bl - bo) / (mo - ml);
    assert x * (mo - ml) == bl - bo;
    assert mo * x - ml * x == x * (mo - ml);
  }

  /** Different slopes: the result is non-null exactly when the segments intersect and differ, and the
      point lies on both lines and inside both segments' closed x ranges. */
  lemma IntersectionCrossing(l: Line, other: Line)
    requires SlopeOf(l).Slope? && SlopeOf(other).Slope?
    requires !(Abs(SlopeOf(other).m - SlopeOf(l).m) < EPSILON)
    ensures IntersectionWith(l, other).Some? <==> IsIntersecting(l, other) && !LineEquals(l, other)
    ensures IntersectionWith(l, other).Some? ==>
      var p := IntersectionWith(l, other).value;
      && p.y == YAt(other, p.x)
      && p.y == YAt(l, p.x)
      && IsInRange(l.start.x, l.end.x, p.x)
      && IsInRange(other.start.x, other.end.x, p.x)
  {
    CrossingBranch(l, other);
    MutualXOnBothLines(l, other);
  }

  /** The mutual x gives the same y on both segments' lines. */
  lemma MutualXOnBothLines(l: Line, other: Line)
    requires SlopeOf(l).Slope? && SlopeOf(other).Slope?
    requires !(Abs(SlopeOf(other).m - SlopeOf(l).m) < EPSILON)
    ensures YAt(other, MutualX(l, other)) == YAt(l, MutualX(l, other))
  {
    var ml, bl, mo, bo := SlopeOf(l).m, YIntercept(l), SlopeOf(other).m, YIntercept(other);
    var x := MutualX(l, other);
    assert x == (bl - bo) / (mo - ml);
    CrossingPointOnBothLines(ml, bl, mo, bo);
    assert YAt(other, x) == mo * x + bo && YAt(l, x) == ml * x + bl;
  }

  /** The branch of intersectionWith taken when exactly one segment is vertical. */
  lemma OneVerticalBranch(l: Line, other: Line)
    requires SlopeOf(l).Vertical? != SlopeOf(other).Vertical?
    ensures IntersectionWith(l, other) ==
      if IsIntersecting(l, other) && !LineEquals(l, other) then IntersectionWithVertical(l, other) else None
    ensures IsIntersecting(l, other) == IsIntersectingVertical(l, other)
  {
  }

  /** Exactly one segment vertical: the result is non-null exactly when the segments intersect and
      differ, and then it has the vertical segment's x, a y in its closed y range, an x in the other
      segment's closed x range, and lies on the other segment's line. */
  lemma IntersectionOneVertical(l: Line, other: Line)
    requires SlopeOf(l).Vertical? != SlopeOf(other).Vertical?
    ensures IntersectionWith(l, other).Some? <==> IsIntersecting(l, other) && !LineEquals(l, other)
    ensures IntersectionWith(l, other).Some? ==>
      var p := IntersectionWith(l, other).value;
      var (v, n) := if SlopeOf(l).Vertical? then (l, other) else (other, l);
      && p.x == v.start.x
      && IsInRange(v.start.y, v.end.y, p.y)
      && IsInRange(n.start.x, n.end.x, p.x)
      && p.y == YAt(n, p.x)
  {
    OneVerticalBranch(l, other);
  }

  /** Parallel or both vertical: null when the segments overlap in their interiors; otherwise (when they
      intersect and differ) this segment's start if it equals an endpoint of the other, else its end. */
  lemma IntersectionParallel(l: Line, other: Line)
    requires Parallel(l, other)
    ensures IntersectionWith(l, other).Some? <==>
      IsIntersecting(l, other) && !LineEquals(l, other) && !OverlapInside(l, other)
    ensures IntersectionWith(l, other).Some? ==>
      IntersectionWith(l, other).value == (
        if Equals(l.start, other.start) || Equals(l.start, other.end) then l.start else l.end)
    ensures IntersectionWith(l, other).Some? ==>
      IntersectionWith(l, other).value == l.start || IntersectionWith(l, other).value == l.end
  {
  }

  /** Outside the parallel family, an intersecting pair of distinct segments always yields a point. */
  lemma IntersectionExistsUnlessParallel(l: Line, other: Line)
    requires !Parallel(l, other)
    ensures IsIntersecting(l, other) && !LineEquals(l, other) ==> IntersectionWith(l, other).Some?
  {
    if SlopeOf(l).Vertical? != SlopeOf(other).Vertical? {
      IntersectionOneVertical(l, other);
    } else {
      IntersectionCrossing(l, other);
    }
  }
}
