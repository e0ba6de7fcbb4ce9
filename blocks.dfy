/** How a block reflects a ball (src/Block.java, and the same rules in src/objects/Block.java). */
module Blocks {
  import opened Points
  import opened Lines
  import opened Rectangles
  import opened Velocities
  import opened Colors

  /** A block: a final rectangle and a final colour. */
  datatype Block = Block(rect: Rectangle, color: Color)

  /** The two-element flag array of hitMultiCollidables: flag[0] asks to negate dy, flag[1] to negate dx. */
  datatype Flags = Flags(flipDy: bool, flipDx: bool)

  /** hitMultiCollidables: for a hit on a point shared by several collidables, which components to
      negate. Each sign quadrant of the velocity tests the point against one far edge and excludes
      one corner; the body reads the corners off the boundary lines as the source does, and the
      contract states them as corners of the rectangle. */
  function HitMultiCollidables(b: Block, p: Point, v: Velocity): (flags: Flags)
    ensures v.dx == 0.0 || v.dy == 0.0 ==> flags == Flags(false, false)
    ensures v.dx > 0.0 && v.dy > 0.0 ==>
      (flags.flipDx <==> b.rect.UpperRight().x > p.x && !Equals(b.rect.LowerLeft(), p)) &&
      (flags.flipDy <==> b.rect.UpperRight().y > p.y && !Equals(b.rect.LowerLeft(), p))
    ensures v.dx > 0.0 && v.dy < 0.0 ==>
      (flags.flipDx <==> b.rect.UpperRight().x > p.x && !Equals(b.rect.upperLeft, p)) &&
      (flags.flipDy <==> b.rect.LowerRight().y < p.y && !Equals(b.rect.upperLeft, p))
    ensures v.dx < 0.0 && v.dy > 0.0 ==>
      (flags.flipDx <==> b.rect.upperLeft.x < p.x && !Equals(b.rect.LowerRight(), p)) &&
      (flags.flipDy <==> b.rect.UpperRight().y > p.y && !Equals(b.rect.LowerRight(), p))
    ensures v.dx < 0.0 && v.dy < 0.0 ==>
      (flags.flipDx <==> b.rect.upperLeft.x < p.x && !Equals(b.rect.UpperRight(), p)) &&
      (flags.flipDy <==> b.rect.LowerRight().y < p.y && !Equals(b.rect.UpperRight(), p))
  {
    var r, dx, dy := b.rect, v.dx, v.dy;
    var flipDx :=
      (dx > 0.0 && dy > 0.0 && r.RightLine().end.x > p.x && !Equals(r.LeftLine().start, p)) ||
      (dx > 0.0 && dy < 0.0 && r.RightLine().end.x > p.x && !Equals(r.LeftLine().end, p)) ||
      (dx < 0.0 && dy > 0.0 && r.LeftLine().end.x < p.x && !Equals(r.RightLine().start, p)) ||
      (dx < 0.0 && dy < 0.0 && r.LeftLine().end.x < p.x && !Equals(r.RightLine().end, p));
    var flipDy :=
      (dy > 0.0 && dx > 0.0 && r.UpperLine().end.y > p.y && !Equals(r.LeftLine().start, p)) ||
      (dy > 0.0 && dx < 0.0 && r.UpperLine().end.y > p.y && !Equals(r.RightLine().start, p)) ||
      (dy < 0.0 && dx > 0.0 && r.LowerLine().end.y < p.y && !Equals(r.LeftLine().end, p)) ||
      (dy < 0.0 && dx < 0.0 && r.LowerLine().end.y < p.y && !Equals(r.RightLine().end, p));
    Flags(flipDy, flipDx)
  }

  /** The flags depend on the velocity only through the signs of its components. */
  lemma HitMultiCollidablesDependsOnSigns(b: Block, p: Point, v: Velocity, w: Velocity)
    requires (v.dx > 0.0 <==> w.dx > 0.0) && (v.dx < 0.0 <==> w.dx < 0.0)
    requires (v.dy > 0.0 <==> w.dy > 0.0) && (v.dy < 0.0 <==> w.dy < 0.0)
    ensures HitMultiCollidables(b, p, v) == HitMultiCollidables(b, p, w)
  {
  }

  /** A hit at the corner a quadrant excludes sets no flag. */
  lemma ExcludedCornerSetsNoFlag(b: Block, v: Velocity)
    ensures v.dx > 0.0 && v.dy > 0.0 ==> HitMultiCollidables(b, b.rect.LowerLeft(), v) == Flags(false, false)
    ensures v.dx > 0.0 && v.dy < 0.0 ==> HitMultiCollidables(b, b.rect.upperLeft, v) == Flags(false, false)
    ensures v.dx < 0.0 && v.dy > 0.0 ==> HitMultiCollidables(b, b.rect.LowerRight(), v) == Flags(false, false)
    ensures v.dx < 0.0 && v.dy < 0.0 ==> HitMultiCollidables(b, b.rect.UpperRight(), v) == Flags(false, false)
  {
    EqualsIsReflexiveAndSymmetric(b.rect.LowerLeft(), b.rect.LowerLeft());
    EqualsIsReflexiveAndSymmetric(b.rect.upperLeft, b.rect.upperLeft);
    EqualsIsReflexiveAndSymmetric(b.rect.LowerRight(), b.rect.LowerRight());
    EqualsIsReflexiveAndSymmetric(b.rect.UpperRight(), b.rect.UpperRight());
  }

  /** hit: the left and right lines are examined in that order on dx, then the upper and lower lines on
      dy, each test negating the component when it points into that face. Every component keeps its
      magnitude; a hit on the left face alone sends dx negative, on the right face positive, on the
      upper face alone sends dy positive and on the lower face negative; a component whose two faces
      do not hold the point is unchanged. */
  function Hit(b: Block, p: Point, v: Velocity, onLine: (Line, Point) -> bool): (w: Velocity)
    ensures Abs(w.dx) == Abs(v.dx) && Abs(w.dy) == Abs(v.dy)
    ensures onLine(b.rect.LeftLine(), p) && !onLine(b.rect.RightLine(), p) ==> w.dx == -Abs(v.dx)
    ensures onLine(b.rect.RightLine(), p) ==> w.dx == Abs(v.dx)
    ensures !onLine(b.rect.LeftLine(), p) && !onLine(b.rect.RightLine(), p) ==> w.dx == v.dx
    ensures onLine(b.rect.UpperLine(), p) && !onLine(b.rect.LowerLine(), p) ==> w.dy == Abs(v.dy)
    ensures onLine(b.rect.LowerLine(), p) ==> w.dy == -Abs(v.dy)
    ensures !onLine(b.rect.UpperLine(), p) && !onLine(b.rect.LowerLine(), p) ==> w.dy == v.dy
  {
    var r := b.rect;
    var dx1 := if onLine(r.LeftLine(), p) && v.dx > 0.0 then -v.dx else v.dx;
    var dx2 := if onLine(r.RightLine(), p) && dx1 < 0.0 then -dx1 else dx1;
    var dy1 := if onLine(r.UpperLine(), p) && v.dy < 0.0 then -v.dy else v.dy;
    var dy2 := if onLine(r.LowerLine(), p) && dy1 > 0.0 then -dy1 else dy1;
    Velocity(dx2, dy2)
  }

  /** Each component comes back unchanged or negated, and a point on none of the four lines leaves the
      velocity as it was. */
  lemma HitKeepsOrNegates(b: Block, p: Point, v: Velocity, onLine: (Line, Point) -> bool)
    ensures Hit(b, p, v, onLine).dx == v.dx || Hit(b, p, v, onLine).dx == -v.dx
    ensures Hit(b, p, v, onLine).dy == v.dy || Hit(b, p, v, onLine).dy == -v.dy
    ensures !(onLine(b.rect.LeftLine(), p) || onLine(b.rect.RightLine(), p) ||
              onLine(b.rect.UpperLine(), p) || onLine(b.rect.LowerLine(), p))
            ==> Hit(b, p, v, onLine) == v
  {
  }

  /** Reflecting an already reflected velocity at the same point changes nothing more. */
  lemma HitIsIdempotent(b: Block, p: Point, v: Velocity, onLine: (Line, Point) -> bool)
    ensures Hit(b, p, Hit(b, p, v, onLine), onLine) == Hit(b, p, v, onLine)
  {
  }
}
