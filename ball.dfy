/** The free-flying ball of the bouncing-ball demos (src/Ball.java): one step moves it by its
    velocity and turns a component around when the step would carry it into a border. */
module Balls {
  import opened Wrappers
  import opened Points
  import opened Velocities
  import opened Colors

  /** Java's (int) cast of a double: truncation toward zero. */
  function Trunc(a: real): (n: int)
    ensures a >= 0.0 ==> 0 <= n && (n as real) <= a < (n as real) + 1.0
    ensures a < 0.0 ==> n <= 0 && (n as real) - 1.0 < a <= (n as real)
  {
    if a >= 0.0 then a.Floor else -((-a).Floor)
  }

  /** The step by dx from the truncated centre cx would bring the ball's edge within EPSILON of the
      left or right border, or past it. */
  predicate HitsSide(cx: int, r: int, dx: real, low: int, high: int)
  {
    EPSILON > (high as real) - ((cx as real) + (r as real) + dx) ||
    EPSILON > ((cx as real) - (r as real) + dx) - (low as real)
  }

  /** The velocity after the wall test of moveOneStep, from the truncated centre (cx, cy). */
  function BounceOffWalls(v: Velocity, cx: int, cy: int, r: int,
                          xLeft: int, xRight: int, yBottom: int, yTop: int): (w: Velocity)
    ensures Abs(w.dx) == Abs(v.dx) && Abs(w.dy) == Abs(v.dy)
  {
    var dx := if HitsSide(cx, r, v.dx, xLeft, xRight) then -v.dx else v.dx;
    var dy := if HitsSide(cy, r, v.dy, yBottom, yTop) then -v.dy else v.dy;
    Velocity(dx, dy)
  }

  /** The wall test of moveOneStep says that the ball's edge after the step, cx + dx + r on the high
      side or cx + dx - r on the low side, comes within EPSILON of that border or passes it. */
  lemma HitsSideMeansEdgeReachesBorder(cx: int, r: int, dx: real, low: int, high: int)
    ensures HitsSide(cx, r, dx, low, high) <==>
      (cx as real) + dx + (r as real) > (high as real) - EPSILON ||
      (cx as real) + dx - (r as real) < (low as real) + EPSILON
  {
  }

  /** Each component is negated exactly when the step would bring the ball's edge within EPSILON of one
      of that axis's two borders, or past it, and kept otherwise. */
  lemma BounceOffWallsCharacterization(v: Velocity, cx: int, cy: int, r: int,
                                       xLeft: int, xRight: int, yBottom: int, yTop: int)
    ensures BounceOffWalls(v, cx, cy, r, xLeft, xRight, yBottom, yTop).dx ==
      if (cx as real) + v.dx + (r as real) > (xRight as real) - EPSILON ||
         (cx as real) + v.dx - (r as real) < (xLeft as real) + EPSILON
      then -v.dx else v.dx
    ensures BounceOffWalls(v, cx, cy, r, xLeft, xRight, yBottom, yTop).dy ==
      if (cy as real) + v.dy + (r as real) > (yTop as real) - EPSILON ||
         (cy as real) + v.dy - (r as real) < (yBottom as real) + EPSILON
      then -v.dy else v.dy
  {
    HitsSideMeansEdgeReachesBorder(cx, r, v.dx, xLeft, xRight);
    HitsSideMeansEdgeReachesBorder(cy, r, v.dy, yBottom, yTop);
  }

  /** A ball heading into a border comes away from it: when a step moving right (up) would bring the
      edge within EPSILON of the right (top) border or past it, the new dx (dy) points left (down),
      and symmetrically for a step moving left (down) towards the left (bottom) border. */
  lemma BounceTurnsAway(v: Velocity, cx: int, cy: int, r: int,
                        xLeft: int, xRight: int, yBottom: int, yTop: int)
    ensures v.dx > 0.0 && (cx as real) + v.dx + (r as real) > (xRight as real) - EPSILON ==>
      BounceOffWalls(v, cx, cy, r, xLeft, xRight, yBottom, yTop).dx < 0.0
    ensures v.dx < 0.0 && (cx as real) + v.dx - (r as real) < (xLeft as real) + EPSILON ==>
      BounceOffWalls(v, cx, cy, r, xLeft, xRight, yBottom, yTop).dx > 0.0
    ensures v.dy > 0.0 && (cy as real) + v.dy + (r as real) > (yTop as real) - EPSILON ==>
      BounceOffWalls(v, cx, cy, r, xLeft, xRight, yBottom, yTop).dy < 0.0
    ensures v.dy < 0.0 && (cy as real) + v.dy - (r as real) < (yBottom as real) + EPSILON ==>
      BounceOffWalls(v, cx, cy, r, xLeft, xRight, yBottom, yTop).dy > 0.0
  {
  }

  class Ball {
    var point: Point
    const radius: int
    const color: Color
    /** null until setVelocity is called. */
    var velocity: Option<Velocity>
    var xLeftBorder: int
    var xRightBorder: int
    var yBottomBorder: int
    var yTopBorder: int

    /** The borders default to the box 0..200 by 0..200. */
    predicate HasDefaultBorders()
      reads this
    {
      xLeftBorder == 0 && xRightBorder == 200 && yBottomBorder == 0 && yTopBorder == 200
    }

    /** Ball(Point, int, Color). */
    constructor(p: Point, r: int, c: Color)
      ensures point == p && radius == r && color == c && velocity.None?
      ensures HasDefaultBorders()
    {
      point := p;
      radius := r;
      color := c;
      velocity := None;
      xLeftBorder, xRightBorder, yBottomBorder, yTopBorder := 0, 200, 0, 200;
    }

    /** Ball(double, double, int, Color). */
    constructor FromCoordinates(x: real, y: real, r: int, c: Color)
      ensures point == Point(x, y) && radius == r && color == c && velocity.None?
      ensures HasDefaultBorders()
    {
      point := Point(x, y);
      radius := r;
      color := c;
      velocity := None;
      xLeftBorder, xRightBorder, yBottomBorder, yTopBorder := 0, 200, 0, 200;
    }

    /** setBorders: each argument goes to its own border. */
    method SetBorders(xLeft: int, xRight: int, yBottom: int, yTop: int)
      modifies this
      ensures xLeftBorder == xLeft && xRightBorder == xRight
      ensures yBottomBorder == yBottom && yTopBorder == yTop
      ensures point == old(point) && velocity == old(velocity)
    {
      xLeftBorder := xLeft;
      xRightBorder := xRight;
      yTopBorder := yTop;
      yBottomBorder := yBottom;
    }

    /** getX: the centre's x truncated toward zero. */
    function GetX(): int
      reads this
    {
      Trunc(point.x)
    }

    /** getY: the centre's y truncated toward zero. */
    function GetY(): int
      reads this
    {
      Trunc(point.y)
    }

    /** setVelocity(Velocity); a null argument clears the velocity. */
    method SetVelocity(v: Option<Velocity>)
      modifies this
      ensures velocity == v
      ensures point == old(point)
      ensures xLeftBorder == old(xLeftBorder) && xRightBorder == old(xRightBorder)
      ensures yBottomBorder == old(yBottomBorder) && yTopBorder == old(yTopBorder)
    {
      velocity := v;
    }

    /** setVelocity(double, double). */
    method SetVelocityComponents(dx: real, dy: real)
      modifies this
      ensures velocity == Some(Velocity(dx, dy))
      ensures point == old(point)
      ensures xLeftBorder == old(xLeftBorder) && xRightBorder == old(xRightBorder)
      ensures yBottomBorder == old(yBottomBorder) && yTopBorder == old(yTopBorder)
    {
      velocity := Some(Velocity(dx, dy));
    }

    /** moveOneStep: without a velocity nothing happens; otherwise the velocity is bounced off the
        walls, judged from the truncated centre, and the untruncated point moves by the new velocity. */
    method MoveOneStep()
      modifies this
      ensures old(velocity).None? ==> point == old(point) && velocity == old(velocity)
      ensures old(velocity).Some? ==>
        velocity == Some(BounceOffWalls(old(velocity).value, Trunc(old(point).x), Trunc(old(point).y), radius,
                                        xLeftBorder, xRightBorder, yBottomBorder, yTopBorder)) &&
        point == ApplyToPoint(velocity.value, old(point))
      ensures xLeftBorder == old(xLeftBorder) && xRightBorder == old(xRightBorder)
      ensures yBottomBorder == old(yBottomBorder) && yTopBorder == old(yTopBorder)
    {
      if velocity.None? {
        return;
      }
      var x1, y1, r := GetX(), GetY(), radius;
      var dx, dy := velocity.value.dx, velocity.value.dy;
      if EPSILON > (xRightBorder as real) - ((x1 as real) + (r as real) + dx)
         || EPSILON > ((x1 as real) - (r as real) + dx) - (xLeftBorder as real) {
        dx := -dx;
      }
      if EPSILON > (yTopBorder as real) - ((y1 as real) + (r as real) + dy)
         || EPSILON > ((y1 as real) - (r as real) + dy) - (yBottomBorder as real) {
        dy := -dy;
      }
      velocity := Some(Velocity(dx, dy));
      point := ApplyToPoint(velocity.value, point);
    }
  }
}
