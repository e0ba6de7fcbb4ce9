/** Axis-aligned rectangles, their boundary lines and their intersection points with a segment
    (src/geometry/Rectangle.java). */
module Rectangles {
  import opened Wrappers
  import opened Points
  import opened Lines

  /** A rectangle spanning x .. x + width and y - height .. y from its upper-left corner. The four
      boundary lines the constructor derives once are the member functions below. */
  datatype Rectangle = Rectangle(upperLeft: Point, width: real, height: real)
  {
    function UpperRight(): Point { Offset(upperLeft, width, 0.0) }
    function LowerLeft(): Point { Offset(upperLeft, 0.0, -height) }
    function LowerRight(): Point { Offset(upperLeft, width, -height) }

    /** initializeLines: upper-left to upper-right. */
    function UpperLine(): Line { Line(upperLeft, UpperRight()) }
    /** initializeLines: lower-left to lower-right. */
    function LowerLine(): Line { Line(LowerLeft(), LowerRight()) }
    /** initializeLines: lower-left to upper-left. */
    function LeftLine(): Line { Line(LowerLeft(), upperLeft) }
    /** initializeLines: lower-right to upper-right. */
    function RightLine(): Line { Line(LowerRight(), UpperRight()) }
  }

  /** The four boundary lines in the order intersectionPoints visits them. */
  function Boundary(r: Rectangle): (lines: seq<Line>)
    ensures |lines| == 4
  {
    [r.UpperLine(), r.LowerLine(), r.LeftLine(), r.RightLine()]
  }

  /** The corner positions follow from the upper-left point, the width and the height, and the four
      lines share corner endpoints so that they close the boundary. */
  lemma BoundaryIsClosed(r: Rectangle)
    ensures r.UpperLine() == Line(r.upperLeft, Point(r.upperLeft.x + r.width, r.upperLeft.y))
    ensures r.LowerLine() == Line(Point(r.upperLeft.x, r.upperLeft.y - r.height),
                                  Point(r.upperLeft.x + r.width, r.upperLeft.y - r.height))
    ensures r.UpperLine().end == r.RightLine().end
    ensures r.RightLine().start == r.LowerLine().end
    ensures r.LowerLine().start == r.LeftLine().start
    ensures r.LeftLine().end == r.UpperLine().start
  {
  }

  /** The left and right lines are vertical; the upper and lower lines are horizontal unless the
      width is below EPSILON. */
  lemma BoundaryIsAxisAligned(r: Rectangle)
    ensures SlopeOf(r.LeftLine()) == Vertical && SlopeOf(r.RightLine()) == Vertical
    ensures !(Abs(r.width) < EPSILON) ==>
      SlopeOf(r.UpperLine()) == Slope(0.0) && SlopeOf(r.LowerLine()) == Slope(0.0)
  {
  }

  // ---------------------------------------------------------------------------
  // Intersection points

  /** Some element of the list equals p under Point.equals. */
  predicate InList(points: seq<Point>, p: Point)
  {
    exists i :: 0 <= i < |points| && Equals(points[i], p)
  }

  /** One step of intersectionPoints: append a non-null candidate unless an equal point is present. */
  function AddIfNew(points: seq<Point>, c: Option<Point>): seq<Point>
  {
    if c.Some? && !InList(points, c.value) then points + [c.value] else points
  }

  /** The candidates folded left to right with AddIfNew. */
  function CollectNew(cs: seq<Option<Point>>): seq<Point>
  {
    if cs == [] then [] else AddIfNew(CollectNew(cs[..|cs| - 1]), cs[|cs| - 1])
  }

  /** The intersectionWith result of each boundary line against the segment, upper, lower, left, right. */
  function Candidates(r: Rectangle, line: Line): (cs: seq<Option<Point>>)
    ensures |cs| == 4
    ensures forall k :: 0 <= k < 4 ==> cs[k] == IntersectionWith(Boundary(r)[k], line)
  {
    seq(4, k requires 0 <= k < 4 => IntersectionWith(Boundary(r)[k], line))
  }

  /** The value intersectionPoints returns. */
  function IntersectionPointsOf(r: Rectangle, line: Line): seq<Point>
  {
    CollectNew(Candidates(r, line))
  }

  /** No two collected points are equal under Point.equals. */
  predicate PairwiseDistinct(points: seq<Point>)
  {
    forall i, j :: 0 <= i < j < |points| ==> !Equals(points[i], points[j])
  }

  /** What CollectNew keeps: at most one point per candidate, pairwise distinct, each one a candidate's
      value, and every non-null candidate represented by an equal point. */
  lemma {:induction false} CollectNewProperties(cs: seq<Option<Point>>)
    ensures |CollectNew(cs)| <= |cs|
    ensures PairwiseDistinct(CollectNew(cs))
    ensures forall i :: 0 <= i < |CollectNew(cs)| ==> Some(CollectNew(cs)[i]) in cs
    ensures forall k :: 0 <= k < |cs| && cs[k].Some? ==> InList(CollectNew(cs), cs[k].value)
    ensures CollectNew(cs) == [] <==> forall k :: 0 <= k < |cs| ==> cs[k].None?
  {
    if cs != [] {
      var init, c := cs[..|cs| - 1], cs[|cs| - 1];
      CollectNewProperties(init);
      var prev := CollectNew(init);
      assert cs == init + [c];
      if c.Some? && !InList(prev, c.value) {
        forall i, j | 0 <= i < j < |prev| + 1
          ensures !Equals((prev + [c.value])[i], (prev + [c.value])[j])
        {
          if j == |prev| {
            EqualsIsReflexiveAndSymmetric(prev[i], c.value);
          }
        }
        assert InList(prev + [c.value], c.value) by {
          EqualsIsReflexiveAndSymmetric(c.value, c.value);
          assert (prev + [c.value])[|prev|] == c.value;
        }
        forall k | 0 <= k < |cs| && cs[k].Some?
          ensures InList(prev + [c.value], cs[k].value)
        {
          if k < |init| {
            assert init[k] == cs[k];
            var i :| 0 <= i < |prev| && Equals(prev[i], cs[k].value);
            assert (prev + [c.value])[i] == prev[i];
          }
        }
      } else {
        forall k | 0 <= k < |cs| && cs[k].Some?
          ensures InList(prev, cs[k].value)
        {
          if k < |init| {
            assert init[k] == cs[k];
          }
        }
      }
    }
  }

  /** Collecting more candidates only appends: the points from earlier lines keep their places, so
      the result is ordered by boundary line. */
  lemma {:induction false} CollectNewPrefix(cs: seq<Option<Point>>, k: nat)
    requires k <= |cs|
    ensures CollectNew(cs[..k]) <= CollectNew(cs)
  {
    if k < |cs| {
      CollectNewPrefix(cs[..|cs| - 1], k);
      assert cs[..|cs| - 1][..k] == cs[..k];
    } else {
      assert cs[..k] == cs;
    }
  }

  /** intersectionPoints returns at most four pairwise-distinct points, each the intersectionWith result of
      a boundary line; every boundary line that meets the segment is represented, in the order upper, lower,
      left, right; the result is empty exactly when no boundary line meets the segment. */
  lemma IntersectionPointsProperties(r: Rectangle, line: Line)
    ensures |IntersectionPointsOf(r, line)| <= 4
    ensures PairwiseDistinct(IntersectionPointsOf(r, line))
    ensures forall i :: 0 <= i < |IntersectionPointsOf(r, line)| ==>
      exists k :: 0 <= k < 4 && IntersectionWith(Boundary(r)[k], line) == Some(IntersectionPointsOf(r, line)[i])
    ensures forall k :: 0 <= k < 4 && IntersectionWith(Boundary(r)[k], line).Some? ==>
      InList(IntersectionPointsOf(r, line), IntersectionWith(Boundary(r)[k], line).value)
    ensures forall k :: 0 <= k <= 4 ==> CollectNew(Candidates(r, line)[..k]) <= IntersectionPointsOf(r, line)
    ensures IntersectionPointsOf(r, line) == [] <==>
      forall k :: 0 <= k < 4 ==> IntersectionWith(Boundary(r)[k], line).None?
  {
    var cs := Candidates(r, line);
    CollectNewProperties(cs);
    forall i | 0 <= i < |IntersectionPointsOf(r, line)|
      ensures exists k :: 0 <= k < 4 && IntersectionWith(Boundary(r)[k], line) == Some(IntersectionPointsOf(r, line)[i])
    {
      var k :| 0 <= k < |cs| && cs[k] == Some(IntersectionPointsOf(r, line)[i]);
    }
    forall k | 0 <= k <= 4
      ensures CollectNew(cs[..k]) <= IntersectionPointsOf(r, line)
    {
      CollectNewPrefix(cs, k);
    }
  }

  /** Rectangle.isPointInList: a linear scan for an element equal to the point. */
  method IsPointInList(points: seq<Point>, point: Point) returns (found: bool)
    ensures found <==> InList(points, point)
  {
    for i := 0 to |points|
      invariant forall j :: 0 <= j < i ==> !Equals(points[j], point)
    {
      if Equals(points[i], point) {
        return true;
      }
    }
    return false;
  }

  /** One guarded append of intersectionPoints: add p when it is non-null and not yet in the list. */
  method AppendIfNew(points: seq<Point>, p: Option<Point>) returns (result: seq<Point>)
    ensures result == AddIfNew(points, p)
  {
    result := points;
    if p.Some? {
      var present := IsPointInList(points, p.value);
      if !present {
        result := points + [p.value];
      }
    }
  }

  /** Rectangle.intersectionPoints: test the upper, lower, left and right lines in turn and append each
      new point. */
  method IntersectionPoints(r: Rectangle, line: Line) returns (points: seq<Point>)
    ensures points == IntersectionPointsOf(r, line)
    ensures |points| <= 4 && PairwiseDistinct(points)
  {
    var cs := Candidates(r, line);
    points := [];
    assert cs[..0] == [];
    points := AppendIfNew(points, cs[0]);  // upper line
    assert cs[..1][..0] == cs[..0];
    points := AppendIfNew(points, cs[1]);  // lower line
    assert cs[..2][..1] == cs[..1];
    points := AppendIfNew(points, cs[2]);  // left line
    assert cs[..3][..2] == cs[..2];
    points := AppendIfNew(points, cs[3]);  // right line
    assert cs[..4][..3] == cs[..3] && cs[..4] == cs;
    IntersectionPointsProperties(r, line);
  }

  /** Rectangle.hasIntersectionPoints: true exactly when some boundary line meets the segment. */
  method HasIntersectionPoints(r: Rectangle, line: Line) returns (has: bool)
    ensures has <==> exists k :: 0 <= k < 4 && IntersectionWith(Boundary(r)[k], line).Some?
  {
    var points := IntersectionPoints(r, line);
    IntersectionPointsProperties(r, line);
    has := points != [];
  }
}
