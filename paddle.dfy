/** The player's paddle (src/Paddle.java): clamped moves between the side borders, five hit regions
    across its top, and the bounce each region chooses. */
module Paddles {
  import opened Points
  import opened Lines
  import opened Rectangles
  import opened Velocities
  import opened Colors

  const PADDLE_WIDTH: real := 100.0
  const PADDLE_HEIGHT: real := 10.0
  const STEP: real := 5.0
  const BORDER_WIDTH: real := 24.0
  const WINDOW_WIDTH: real := 800.0

  /** java.awt.Color.orange, the paddle's fixed colour. */
  const ORANGE: Color := Color(255, 200, 0)

  /** The rectangle the constructor places near the middle of the board. */
  const START: Rectangle := Rectangle(Point(350.0, 35.0), PADDLE_WIDTH, PADDLE_HEIGHT)

  /** The paddle keeps its size and stays strictly between the two side borders. */
  predicate InBounds(r: Rectangle)
  {
    r.width == PADDLE_WIDTH && r.height == PADDLE_HEIGHT &&
    r.upperLeft.x > BORDER_WIDTH && r.upperLeft.x + PADDLE_WIDTH < WINDOW_WIDTH - BORDER_WIDTH
  }

  /** moveLeft: stay put when the new left edge would reach the left border (within EPSILON or
      beyond); otherwise shift one step left. */
  function StepLeft(r: Rectangle): (r': Rectangle)
    ensures r.upperLeft.x - STEP < BORDER_WIDTH + EPSILON ==> r' == r
    ensures r.upperLeft.x - STEP >= BORDER_WIDTH + EPSILON ==>
      r' == Rectangle(Point(r.upperLeft.x - STEP, r.upperLeft.y), r.width, r.height)
    ensures InBounds(r) ==> InBounds(r')
  {
    var newX := r.upperLeft.x - STEP;
    if IsDoubleEqual(newX, BORDER_WIDTH) || newX < BORDER_WIDTH then r
    else Rectangle(Offset(r.upperLeft, -STEP, 0.0), r.width, r.height)
  }

  /** moveRight: stay put when the new right edge would reach the right border (within EPSILON or
      beyond); otherwise shift one step right. */
  function StepRight(r: Rectangle): (r': Rectangle)
    ensures r.upperLeft.x + PADDLE_WIDTH + STEP > WINDOW_WIDTH - BORDER_WIDTH - EPSILON ==> r' == r
    ensures r.upperLeft.x + PADDLE_WIDTH + STEP <= WINDOW_WIDTH - BORDER_WIDTH - EPSILON ==>
      r' == Rectangle(Point(r.upperLeft.x + STEP, r.upperLeft.y), r.width, r.height)
    ensures InBounds(r) ==> InBounds(r')
  {
    var newX := r.upperLeft.x + PADDLE_WIDTH + STEP;
    if IsDoubleEqual(newX, WINDOW_WIDTH - BORDER_WIDTH) || newX > WINDOW_WIDTH - BORDER_WIDTH then r
    else Rectangle(Offset(r.upperLeft, STEP, 0.0), r.width, r.height)
  }

  /** The keys held during one frame. */
  datatype Keys = Keys(left: bool, right: bool)

  /** moveOneStep: moveLeft if the left key is held, then moveRight if the right key is held. */
  function OneStep(r: Rectangle, keys: Keys): Rectangle
  {
    var r1 := if keys.left then StepLeft(r) else r;
    if keys.right then StepRight(r1) else r1
  }

  /** The paddle after a run of frames. */
  function Run(r: Rectangle, frames: seq<Keys>): Rectangle
    decreases |frames|
  {
    if frames == [] then r else Run(OneStep(r, frames[0]), frames[1..])
  }

  /** Whatever keys are held, frame after frame, the paddle never reaches a side border. */
  lemma {:induction false} RunStaysInBounds(r: Rectangle, frames: seq<Keys>)
    requires InBounds(r)
    ensures InBounds(Run(r, frames))
    decreases |frames|
  {
    if frames != [] {
      RunStaysInBounds(OneStep(r, frames[0]), frames[1..]);
    }
  }

  /** From the starting position every sequence of moves keeps x > 24 and x + 100 < 776. */
  lemma PaddleNeverLeavesBoard(frames: seq<Keys>)
    ensures Run(START, frames).upperLeft.x > BORDER_WIDTH
    ensures Run(START, frames).upperLeft.x + PADDLE_WIDTH < WINDOW_WIDTH - BORDER_WIDTH
  {
    RunStaysInBounds(START, frames);
  }

  /** The right edge of the i-th region. */
  function RegionEdge(left: real, regionWidth: real, i: int): real
  {
    left + (i as real) * regionWidth
  }

  /** The region search from i on: the first j in i..4 with x left of the j-th region boundary, else 5. */
  function RegionFrom(x: real, left: real, regionWidth: real, i: int): int
    decreases 5 - i
  {
    if i >= 5 then 5
    else if x < RegionEdge(left, regionWidth, i) then i
    else RegionFrom(x, left, regionWidth, i + 1)
  }

  /** A fifth of the paddle's width. */
  function RegionWidth(r: Rectangle): real
  {
    r.width / 5.0
  }

  /** The value whichRegion returns for a collision at x. */
  function Region(r: Rectangle, x: real): int
  {
    RegionFrom(x, r.upperLeft.x, RegionWidth(r), 1)
  }

  /** The region is the smallest i in 1..4 whose boundary left + i * width / 5 lies to the right of x,
      or 5 when there is none. */
  lemma {:induction false} RegionFromIsSmallest(x: real, left: real, regionWidth: real, i: int)
    requires 1 <= i <= 5
    ensures i <= RegionFrom(x, left, regionWidth, i) <= 5
    ensures RegionFrom(x, left, regionWidth, i) < 5 ==>
      x < RegionEdge(left, regionWidth, RegionFrom(x, left, regionWidth, i))
    ensures forall j :: i <= j < RegionFrom(x, left, regionWidth, i) ==> !(x < RegionEdge(left, regionWidth, j))
    decreases 5 - i
  {
    if i < 5 && !(x < RegionEdge(left, regionWidth, i)) {
      RegionFromIsSmallest(x, left, regionWidth, i + 1);
    }
  }

  /** whichRegion lies in 1..5 and picks the leftmost region boundary past the point. */
  lemma RegionIsSmallest(r: Rectangle, x: real)
    ensures 1 <= Region(r, x) <= 5
    ensures Region(r, x) < 5 ==> x < RegionEdge(r.upperLeft.x, RegionWidth(r), Region(r, x))
    ensures forall j :: 1 <= j < Region(r, x) ==> !(x < RegionEdge(r.upperLeft.x, RegionWidth(r), j))
  {
    RegionFromIsSmallest(x, r.upperLeft.x, RegionWidth(r), 1);
  }

  /** A collision further right never lands in a region further left. */
  lemma RegionIsMonotone(r: Rectangle, x1: real, x2: real)
    requires x1 <= x2
    ensures Region(r, x1) <= Region(r, x2)
  {
    RegionIsSmallest(r, x1);
    RegionIsSmallest(r, x2);
    var k := Region(r, x2);
    if k < 5 {
      assert x1 < RegionEdge(r.upperLeft.x, RegionWidth(r), k);
    }
  }

  /** The outcome of a paddle hit: a new direction given by an angle in degrees and the squared
      speed to keep (fromAngleAndSpeed is not modelled), or a mirrored velocity. */
  datatype Bounce = AngleBounce(angle: int, speedSq: real) | Mirror(velocity: Velocity)

  /** hit: an upper-line hit bounces by region, otherwise a left-line hit and then a right-line hit
      pick the side angles, and a point on none of them mirrors the velocity. Near the left border
      (left edge below 35) the leftward angles turn to 80 degrees, near the right border (right edge
      beyond 765) the rightward ones to 100 degrees. */
  function HitOutcome(r: Rectangle, p: Point, v: Velocity, onLine: (Line, Point) -> bool): (b: Bounce)
    ensures b.AngleBounce? ==> b.speedSq == v.dx * v.dx + v.dy * v.dy && b.angle in {30, 60, 80, 100, 120, 150}
    ensures b.Mirror? ==> Abs(b.velocity.dx) == Abs(v.dx) && Abs(b.velocity.dy) == Abs(v.dy) &&
                          b.velocity.dy == -v.dy
    ensures onLine(r.UpperLine(), p) ==>
      b == (match Region(r, p.x)
            case 1 => AngleBounce(if r.upperLeft.x < 35.0 then 80 else 150, v.dx * v.dx + v.dy * v.dy)
            case 2 => AngleBounce(120, v.dx * v.dx + v.dy * v.dy)
            case 3 => Mirror(Velocity(v.dx, -v.dy))
            case 4 => AngleBounce(60, v.dx * v.dx + v.dy * v.dy)
            case _ => AngleBounce(if r.upperLeft.x + r.width > 765.0 then 100 else 30, v.dx * v.dx + v.dy * v.dy))
    ensures !onLine(r.UpperLine(), p) && onLine(r.LeftLine(), p) ==>
      b == AngleBounce(if r.upperLeft.x < 35.0 then 80 else 150, v.dx * v.dx + v.dy * v.dy)
    ensures !onLine(r.UpperLine(), p) && !onLine(r.LeftLine(), p) && onLine(r.RightLine(), p) ==>
      b == AngleBounce(if r.upperLeft.x + r.width > 765.0 then 100 else 30, v.dx * v.dx + v.dy * v.dy)
    ensures !onLine(r.UpperLine(), p) && !onLine(r.LeftLine(), p) && !onLine(r.RightLine(), p) ==>
      b == Mirror(Reversed(v))
  {
    var speedSq := v.dx * v.dx + v.dy * v.dy;
    if onLine(r.UpperLine(), p) then
      var region := Region(r, p.x);
      if region == 1 then
        if r.LeftLine().start.x < 35.0 then AngleBounce(80, speedSq) else AngleBounce(150, speedSq)
      else if region == 2 then AngleBounce(120, speedSq)
      else if region == 3 then Mirror(Velocity(v.dx, -v.dy))
      else if region == 4 then AngleBounce(60, speedSq)
      else if r.RightLine().start.x > 765.0 then AngleBounce(100, speedSq) else AngleBounce(30, speedSq)
    else if onLine(r.LeftLine(), p) then
      if r.LeftLine().start.x < 35.0 then AngleBounce(80, speedSq) else AngleBounce(150, speedSq)
    else if onLine(r.RightLine(), p) then
      if r.RightLine().start.x > 765.0 then AngleBounce(100, speedSq) else AngleBounce(30, speedSq)
    else Mirror(Velocity(-v.dx, -v.dy))
  }

  /** Away from the borders, the angle of an upper-line hit falls as the hit moves right: 150, 120,
      straight mirror, 60, 30 degrees from region 1 to region 5. */
  lemma TopAnglesFallLeftToRight(r: Rectangle, p: Point, q: Point, v: Velocity, onLine: (Line, Point) -> bool)
    requires r.upperLeft.x >= 35.0 && r.upperLeft.x + r.width <= 765.0
    requires onLine(r.UpperLine(), p) && onLine(r.UpperLine(), q) && p.x <= q.x
    requires HitOutcome(r, p, v, onLine).AngleBounce? && HitOutcome(r, q, v, onLine).AngleBounce?
    ensures HitOutcome(r, q, v, onLine).angle <= HitOutcome(r, p, v, onLine).angle
  {
    RegionIsMonotone(r, p.x, q.x);
    RegionIsSmallest(r, p.x);
    RegionIsSmallest(r, q.x);
  }

  class Paddle {
    var rect: Rectangle
    const color: Color

    /** The paddle starts at (350, 35), 100 wide and 10 high, and is orange. */
    constructor()
      ensures rect == START && color == ORANGE
      ensures Valid()
    {
      rect := START;
      color := ORANGE;
    }

    predicate Valid()
      reads this
    {
      InBounds(rect)
    }

    /** moveLeft. */
    method MoveLeft()
      requires Valid()
      modifies this
      ensures rect == StepLeft(old(rect))
      ensures Valid()
    {
      var newX := rect.upperLeft.x - STEP;
      if IsDoubleEqual(newX, BORDER_WIDTH) || newX < BORDER_WIDTH {
        return;
      }
      var point := Offset(rect.upperLeft, -STEP, 0.0);
      rect := Rectangle(point, rect.width, rect.height);
    }

    /** moveRight. */
    method MoveRight()
      requires Valid()
      modifies this
      ensures rect == StepRight(old(rect))
      ensures Valid()
    {
      var newX := rect.upperLeft.x + PADDLE_WIDTH + STEP;
      if IsDoubleEqual(newX, WINDOW_WIDTH - BORDER_WIDTH) || newX > WINDOW_WIDTH - BORDER_WIDTH {
        return;
      }
      var point := Offset(rect.upperLeft, STEP, 0.0);
      rect := Rectangle(point, rect.width, rect.height);
    }

    /** moveOneStep with the sampled key states as inputs. */
    method MoveOneStep(keys: Keys)
      requires Valid()
      modifies this
      ensures rect == OneStep(old(rect), keys)
      ensures Valid()
    {
      if keys.left {
        MoveLeft();
      }
      if keys.right {
        MoveRight();
      }
    }

    /** whichRegion: the first of the four inner region boundaries to the right of the point, else 5. */
    method WhichRegion(collisionPoint: Point) returns (region: int)
      ensures region == Region(rect, collisionPoint.x)
    {
      var collisionX := collisionPoint.x;
      var upperLeftX := rect.upperLeft.x;
      var regionWidth := rect.width / 5.0;
      for i := 1 to 5
        invariant Region(rect, collisionX) == RegionFrom(collisionX, upperLeftX, regionWidth, i)
      {
        if collisionX < upperLeftX + (i as real) * regionWidth {
          return i;
        }
      }
      return 5;
    }

    /** hit: the bounce chosen for a collision at the point. */
    method Hit(collisionPoint: Point, currentVelocity: Velocity, onLine: (Line, Point) -> bool)
      returns (b: Bounce)
      ensures b == HitOutcome(rect, collisionPoint, currentVelocity, onLine)
    {
      var dx, dy := currentVelocity.dx, currentVelocity.dy;
      var speedSq := dx * dx + dy * dy;
      if onLine(rect.UpperLine(), collisionPoint) {
        var region := WhichRegion(collisionPoint);
        if region == 1 {
          if rect.LeftLine().start.x < 35.0 {
            return AngleBounce(80, speedSq);
          }
          return AngleBounce(150, speedSq);
        } else if region == 2 {
          return AngleBounce(120, speedSq);
        } else if region == 3 {
          return Mirror(Velocity(dx, -dy));
        } else if region == 4 {
          return AngleBounce(60, speedSq);
        } else {
          if rect.RightLine().start.x > 765.0 {
            return AngleBounce(100, speedSq);
          }
          return AngleBounce(30, speedSq);
        }
      }
      if onLine(rect.LeftLine(), collisionPoint) {
        if rect.LeftLine().start.x < 35.0 {
          return AngleBounce(80, speedSq);
        }
        return AngleBounce(150, speedSq);
      }
      if onLine(rect.RightLine(), collisionPoint) {
        if rect.RightLine().start.x > 765.0 {
          return AngleBounce(100, speedSq);
        }
        return AngleBounce(30, speedSq);
      }
      return Mirror(Velocity(-dx, -dy));
    }
  }
}
