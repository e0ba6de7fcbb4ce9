/** The block of the later game version (src/objects/Block.java): the reflection rules of Blocks plus
    a list of hit listeners that hear of every hit. */
module NotifyingBlocks {
  import opened Points
  import opened Lines
  import opened Rectangles
  import opened Velocities
  import opened Colors
  import opened Lists
  import Blocks

  /** A hit listener, known by its identity. */
  type Listener = nat

  /** One call hl.hitEvent(block, hitter): the listener and the ball (by identity) that hit. */
  datatype HitEvent = HitEvent(listener: Listener, hitter: nat)

  /** The events one notification pass produces: one per listener entry, in list order. */
  function Events(listeners: seq<Listener>, hitter: nat): (events: seq<HitEvent>)
    ensures |events| == |listeners|
    ensures forall i :: 0 <= i < |listeners| ==> events[i] == HitEvent(listeners[i], hitter)
  {
    seq(|listeners|, i requires 0 <= i < |listeners| => HitEvent(listeners[i], hitter))
  }

  /** Each listener hears of a hit exactly as many times as it occurs in the list, and nothing
      else is notified. */
  lemma {:induction false} EventsCountListeners(listeners: seq<Listener>, hitter: nat, hl: Listener)
    ensures multiset(Events(listeners, hitter))[HitEvent(hl, hitter)] == multiset(listeners)[hl]
    ensures forall e :: e in Events(listeners, hitter) ==> e.hitter == hitter && e.listener in listeners
  {
    if listeners != [] {
      var init, last := listeners[..|listeners| - 1], listeners[|listeners| - 1];
      EventsCountListeners(init, hitter, hl);
      assert listeners == init + [last];
      assert Events(listeners, hitter) == Events(init, hitter) + [HitEvent(last, hitter)];
      assert multiset(listeners) == multiset(init) + multiset{last};
      assert multiset(Events(listeners, hitter)) == multiset(Events(init, hitter)) + multiset{HitEvent(last, hitter)};
    }
    forall e | e in Events(listeners, hitter)
      ensures e.hitter == hitter && e.listener in listeners
    {
      var i :| 0 <= i < |listeners| && Events(listeners, hitter)[i] == e;
    }
  }

  class Block {
    const rect: Rectangle
    const color: Color
    var hitListeners: seq<Listener>
    /** The hitEvent calls made so far, oldest first. */
    var notified: seq<HitEvent>

    /** A new block has no listeners and has notified nobody. */
    constructor(rectangle: Rectangle, c: Color)
      ensures rect == rectangle && color == c
      ensures hitListeners == [] && notified == []
    {
      rect := rectangle;
      color := c;
      hitListeners := [];
      notified := [];
    }

    /** The rectangle and colour as a value of the reflection rules. */
    function Value(): Blocks.Block
    {
      Blocks.Block(rect, color)
    }

    /** addHitListener: append the listener. */
    method AddHitListener(hl: Listener)
      modifies this
      ensures hitListeners == old(hitListeners) + [hl]
      ensures notified == old(notified)
    {
      hitListeners := hitListeners + [hl];
    }

    /** removeHitListener: remove the first occurrence of the listener. */
    method RemoveHitListener(hl: Listener)
      modifies this
      ensures hitListeners == RemoveFirst(old(hitListeners), hl)
      ensures notified == old(notified)
    {
      hitListeners := RemoveFirst(hitListeners, hl);
    }

    /** notifyHit: copy the listener list, then call every listener of the copy once, in order. */
    method NotifyHit(hitter: nat)
      modifies this
      ensures hitListeners == old(hitListeners)
      ensures notified == old(notified) + Events(old(hitListeners), hitter)
    {
      var listeners := hitListeners;
      for i := 0 to |listeners|
        invariant hitListeners == listeners
        invariant notified == old(notified) + Events(listeners[..i], hitter)
      {
        notified := notified + [HitEvent(listeners[i], hitter)];
        assert Events(listeners[..i + 1], hitter) == Events(listeners[..i], hitter) + [HitEvent(listeners[i], hitter)];
      }
      assert listeners[..|listeners|] == listeners;
    }

    /** hitMultiCollidables: notify the listeners, then compute the flags of the reflection rules. */
    method HitMultiCollidables(hitter: nat, collisionPoint: Point, currentVelocity: Velocity)
      returns (flags: Blocks.Flags)
      modifies this
      ensures hitListeners == old(hitListeners)
      ensures notified == old(notified) + Events(old(hitListeners), hitter)
      ensures flags == Blocks.HitMultiCollidables(Value(), collisionPoint, currentVelocity)
    {
      NotifyHit(hitter);
      flags := Blocks.HitMultiCollidables(Value(), collisionPoint, currentVelocity);
    }

    /** hit: notify the listeners, then reflect the velocity by the reflection rules. */
    method Hit(hitter: nat, collisionPoint: Point, currentVelocity: Velocity, onLine: (Line, Point) -> bool)
      returns (v: Velocity)
      modifies this
      ensures hitListeners == old(hitListeners)
      ensures notified == old(notified) + Events(old(hitListeners), hitter)
      ensures v == Blocks.Hit(Value(), collisionPoint, currentVelocity, onLine)
    {
      NotifyHit(hitter);
      v := Blocks.Hit(Value(), collisionPoint, currentVelocity, onLine);
    }
  }
}
