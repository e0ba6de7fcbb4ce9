/** Velocities as changes in position per step (src/Velocity.java). */
module Velocities {
  import opened Points

  /** A velocity; its two fields are what getDX and getDY return. */
  datatype Velocity = Velocity(dx: real, dy: real)

  /** applyToPoint: a new point displaced by the velocity; the point and the velocity are values and
      stay as they were. */
  function ApplyToPoint(v: Velocity, p: Point): (q: Point)
    ensures q.x - p.x == v.dx && q.y - p.y == v.dy
  {
    Point(p.x + v.dx, p.y + v.dy)
  }

  /** The velocity pointing the other way with the same magnitude. */
  function Reversed(v: Velocity): (r: Velocity)
    ensures r.dx + v.dx == 0.0 && r.dy + v.dy == 0.0
  {
    Velocity(-v.dx, -v.dy)
  }

  /** A zero velocity leaves the point where it is. */
  lemma ZeroVelocityKeepsPoint(p: Point)
    ensures ApplyToPoint(Velocity(0.0, 0.0), p) == p
  {
  }

  /** Applying a velocity and then its reverse returns the original point. */
  lemma ApplyThenReverse(v: Velocity, p: Point)
    ensures ApplyToPoint(Reversed(v), ApplyToPoint(v, p)) == p
  {
  }

  /** Two steps compose into one step by the summed velocity. */
  lemma ApplyComposes(v: Velocity, w: Velocity, p: Point)
    ensures ApplyToPoint(w, ApplyToPoint(v, p)) == ApplyToPoint(Velocity(v.dx + w.dx, v.dy + w.dy), p)
  {
  }
}
