/** The helpers of the single bouncing-ball demo (src/BouncingBallAnimation.java): recentring a ball
    that starts outside the 200 by 200 box, and capping a speed. */
module BouncingBallAnimation {
  import opened Points

  const MAX_SPEED: real := 15.0
  const BIGGER_BORDER: real := 200.0
  const SMALLER_BORDER: real := 0.0

  /** The ball of radius r at coordinate z reaches within EPSILON of either border, or past it. */
  predicate OutOfBox(z: real, r: real)
  {
    EPSILON > BIGGER_BORDER - (z + r) || EPSILON > (z - r) - SMALLER_BORDER
  }

  /** outOfBorder: a coordinate that leaves the ball out of the box moves to the box's middle, 100;
      any other coordinate is kept. */
  function OutOfBorder(z: real, r: real): (z': real)
    ensures OutOfBox(z, r) ==> z' == (BIGGER_BORDER - SMALLER_BORDER) / 2.0
    ensures !OutOfBox(z, r) ==> z' == z
  {
    if OutOfBox(z, r) then (BIGGER_BORDER - SMALLER_BORDER) / 2.0 else z
  }

  /** For a ball narrower than the box, the corrected coordinate always leaves the ball inside, so
      correcting twice is the same as correcting once. */
  lemma OutOfBorderPlacesInside(z: real, r: real)
    requires r < 100.0 - EPSILON
    ensures !OutOfBox(OutOfBorder(z, r), r)
    ensures OutOfBorder(OutOfBorder(z, r), r) == OutOfBorder(z, r)
  {
  }

  /** speedLimit: clamp into [-15, 15]. */
  function SpeedLimit(a: real): (s: real)
    ensures -MAX_SPEED <= s <= MAX_SPEED
    ensures -MAX_SPEED <= a <= MAX_SPEED ==> s == a
    ensures a > MAX_SPEED ==> s == MAX_SPEED
    ensures a < -MAX_SPEED ==> s == -MAX_SPEED
  {
    if a > MAX_SPEED then MAX_SPEED
    else if a < -MAX_SPEED then -MAX_SPEED
    else a
  }

  /** Limiting a limited speed changes nothing, and the limit never increases a magnitude. */
  lemma SpeedLimitIsIdempotent(a: real)
    ensures SpeedLimit(SpeedLimit(a)) == SpeedLimit(a)
    ensures Abs(SpeedLimit(a)) <= Abs(a)
  {
  }
}
