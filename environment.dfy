/** The collision broker (src/physics/GameEnvironment.java): the list of collidables and the two
    queries the ball asks of it. */
module Environment {
  import opened Wrappers
  import opened Points
  import opened Lines
  import opened Rectangles
  import opened Collidables
  import opened Lists

  // ---------------------------------------------------------------------------
  // Specification functions

  /** Whether the point lies on one of the four boundary lines, as judged by Line.isPointOnLine. */
  predicate OnBoundary(r: Rectangle, p: Point, onLine: (Line, Point) -> bool)
  {
    onLine(r.UpperLine(), p) || onLine(r.LowerLine(), p) || onLine(r.LeftLine(), p) || onLine(r.RightLine(), p)
  }

  /** The value getCollidablesOnPoint returns: the Block-tagged members whose boundary holds the point,
      in list order. */
  function BlocksOnPoint(cs: seq<Collidable>, p: Point, onLine: (Line, Point) -> bool): seq<Collidable>
  {
    if cs == [] then []
    else
      var c := cs[|cs| - 1];
      BlocksOnPoint(cs[..|cs| - 1], p, onLine) +
        (if OnBoundary(c.rect, p, onLine) && ClassName(c.kind) == "Block" then [c] else [])
  }

  /** getCollidablesOnPoint keeps exactly the blocks whose boundary holds the point, each as often as it
      occurs in the list, and no more elements than the list has. */
  lemma {:induction false} BlocksOnPointProperties(cs: seq<Collidable>, p: Point, onLine: (Line, Point) -> bool)
    ensures |BlocksOnPoint(cs, p, onLine)| <= |cs|
    ensures forall c :: c in BlocksOnPoint(cs, p, onLine) <==>
      c in cs && c.kind == BlockKind && OnBoundary(c.rect, p, onLine)
    ensures forall c: Collidable :: c.kind == BlockKind && OnBoundary(c.rect, p, onLine) ==>
      multiset(BlocksOnPoint(cs, p, onLine))[c] == multiset(cs)[c]
  {
    if cs != [] {
      var init, c := cs[..|cs| - 1], cs[|cs| - 1];
      BlocksOnPointProperties(init, p, onLine);
      assert cs == init + [c];
    }
  }

  /** The squared distance from the trajectory start to a collision point. */
  function Dist(start: Point, info: CollisionInfo): real
  {
    DistanceSq(start, info.collisionPoint)
  }

  /** The collisions gathered by the first loop of getClosestCollision: one per member whose rectangle
      yields a closest intersection, in list order. */
  function Hits(cs: seq<Collidable>, trajectory: Line, closest: (Line, Rectangle) -> Option<Point>): seq<CollisionInfo>
  {
    if cs == [] then []
    else
      var c := cs[|cs| - 1];
      var rest := Hits(cs[..|cs| - 1], trajectory, closest);
      match closest(trajectory, c.rect)
      case None => rest
      case Some(p) => rest + [CollisionInfo(p, c)]
  }

  /** Every gathered collision is a member's closest intersection, and there is none exactly when no
      member's rectangle yields one. */
  lemma {:induction false} HitsProperties(cs: seq<Collidable>, trajectory: Line, closest: (Line, Rectangle) -> Option<Point>)
    ensures |Hits(cs, trajectory, closest)| <= |cs|
    ensures forall i :: 0 <= i < |Hits(cs, trajectory, closest)| ==>
      Hits(cs, trajectory, closest)[i].collisionObject in cs &&
      closest(trajectory, Hits(cs, trajectory, closest)[i].collisionObject.rect) ==
        Some(Hits(cs, trajectory, closest)[i].collisionPoint)
    ensures forall c :: c in cs && closest(trajectory, c.rect).Some? ==>
      CollisionInfo(closest(trajectory, c.rect).value, c) in Hits(cs, trajectory, closest)
    ensures Hits(cs, trajectory, closest) == [] <==> forall c :: c in cs ==> closest(trajectory, c.rect).None?
  {
    if cs != [] {
      var init, c := cs[..|cs| - 1], cs[|cs| - 1];
      HitsProperties(init, trajectory, closest);
      assert cs == init + [c];
    }
  }

  /** The index the second loop of getClosestCollision settles on: a candidate replaces the current one
      whenever it is at least as close. */
  function ClosestIndex(infos: seq<CollisionInfo>, start: Point): (i: nat)
    requires infos != []
    ensures i < |infos|
  {
    if |infos| == 1 then 0
    else
      var i := ClosestIndex(infos[..|infos| - 1], start);
      if Dist(start, infos[i]) >= Dist(start, infos[|infos| - 1]) then |infos| - 1 else i
  }

  /** The chosen candidate is no farther than any other, and every later candidate is strictly
      farther: among equally close candidates the last one wins. */
  lemma {:induction false} ClosestIndexIsLastMinimum(infos: seq<CollisionInfo>, start: Point)
    requires infos != []
    ensures forall j :: 0 <= j < |infos| ==> Dist(start, infos[ClosestIndex(infos, start)]) <= Dist(start, infos[j])
    ensures forall j :: ClosestIndex(infos, start) < j < |infos| ==>
      Dist(start, infos[ClosestIndex(infos, start)]) < Dist(start, infos[j])
  {
    if |infos| > 1 {
      var init := infos[..|infos| - 1];
      ClosestIndexIsLastMinimum(init, start);
      forall j | 0 <= j < |init| ensures init[j] == infos[j] { }
    }
  }

  /** The last closest candidate is the only index with both properties. */
  lemma ClosestIndexIsUnique(infos: seq<CollisionInfo>, start: Point, k: nat)
    requires k < |infos|
    requires forall j :: 0 <= j < |infos| ==> Dist(start, infos[k]) <= Dist(start, infos[j])
    requires forall j :: k < j < |infos| ==> Dist(start, infos[k]) < Dist(start, infos[j])
    ensures k == ClosestIndex(infos, start)
  {
    ClosestIndexIsLastMinimum(infos, start);
  }

  /** The value getClosestCollision returns. */
  function ClosestCollision(cs: seq<Collidable>, trajectory: Line, closest: (Line, Rectangle) -> Option<Point>): Option<CollisionInfo>
  {
    var hits := Hits(cs, trajectory, closest);
    if hits == [] then None else Some(hits[ClosestIndex(hits, trajectory.start)])
  }

  /** getClosestCollision is null exactly when no member's rectangle yields a closest intersection;
      otherwise it pairs a member with that member's closest intersection, and no other member's
      closest intersection is nearer to the start of the trajectory. */
  lemma ClosestCollisionProperties(cs: seq<Collidable>, trajectory: Line, closest: (Line, Rectangle) -> Option<Point>)
    ensures ClosestCollision(cs, trajectory, closest).None? <==>
      forall c :: c in cs ==> closest(trajectory, c.rect).None?
    ensures ClosestCollision(cs, trajectory, closest).Some? ==>
      var info := ClosestCollision(cs, trajectory, closest).value;
      info.collisionObject in cs &&
      closest(trajectory, info.collisionObject.rect) == Some(info.collisionPoint) &&
      forall c :: c in cs && closest(trajectory, c.rect).Some? ==>
        DistanceSq(trajectory.start, info.collisionPoint) <= DistanceSq(trajectory.start, closest(trajectory, c.rect).value)
  {
    var hits := Hits(cs, trajectory, closest);
    HitsProperties(cs, trajectory, closest);
    if hits != [] {
      ClosestIndexIsLastMinimum(hits, trajectory.start);
      var info := hits[ClosestIndex(hits, trajectory.start)];
      forall c | c in cs && closest(trajectory, c.rect).Some?
        ensures DistanceSq(trajectory.start, info.collisionPoint) <= DistanceSq(trajectory.start, closest(trajectory, c.rect).value)
      {
        var j :| 0 <= j < |hits| && hits[j] == CollisionInfo(closest(trajectory, c.rect).value, c);
        assert Dist(trajectory.start, info) <= Dist(trajectory.start, hits[j]);
      }
    }
  }

  // ---------------------------------------------------------------------------
  // The environment

  class GameEnvironment {
    var collidables: seq<Collidable>

    /** A new environment holds no collidables. */
    constructor()
      ensures collidables == []
    {
      collidables := [];
    }

    /** addCollidable: append c; a null argument changes nothing. */
    method AddCollidable(c: Option<Collidable>)
      modifies this
      ensures c.None? ==> collidables == old(collidables)
      ensures c.Some? ==> collidables == old(collidables) + [c.value]
    {
      if c.None? {
        return;
      }
      collidables := collidables + [c.value];
    }

    /** removeCollidable: remove the first occurrence of c; a null argument changes nothing. */
    method RemoveCollidable(c: Option<Collidable>)
      modifies this
      ensures c.None? ==> collidables == old(collidables)
      ensures c.Some? ==> collidables == RemoveFirst(old(collidables), c.value)
    {
      if c.None? {
        return;
      }
      collidables := RemoveFirst(collidables, c.value);
    }

    /** getCollidablesOnPoint: scan the members and keep the Block-tagged ones whose boundary holds the
        point; the member list is only read. */
    method GetCollidablesOnPoint(collisionPoint: Point, onLine: (Line, Point) -> bool) returns (result: seq<Collidable>)
      ensures result == BlocksOnPoint(collidables, collisionPoint, onLine)
    {
      result := [];
      for k := 0 to |collidables|
        invariant result == BlocksOnPoint(collidables[..k], collisionPoint, onLine)
      {
        var c := collidables[k];
        var r := c.rect;
        if onLine(r.UpperLine(), collisionPoint) || onLine(r.LowerLine(), collisionPoint)
           || onLine(r.LeftLine(), collisionPoint) || onLine(r.RightLine(), collisionPoint) {
          if ClassName(c.kind) == "Block" {
            result := result + [c];
          }
        }
        assert collidables[..k + 1][..k] == collidables[..k];
      }
      assert collidables[..|collidables|] == collidables;
    }

    /** getClosestCollision: gather each member's closest intersection with the trajectory, then keep
        the candidate nearest to the trajectory start, the later one on ties. */
    method GetClosestCollision(trajectory: Line, closest: (Line, Rectangle) -> Option<Point>)
      returns (info: Option<CollisionInfo>)
      ensures info == ClosestCollision(collidables, trajectory, closest)
    {
      var infos: seq<CollisionInfo> := [];
      for k := 0 to |collidables|
        invariant infos == Hits(collidables[..k], trajectory, closest)
      {
        var c := collidables[k];
        var p := closest(trajectory, c.rect);
        if p.Some? {
          infos := infos + [CollisionInfo(p.value, c)];
        }
        assert collidables[..k + 1][..k] == collidables[..k];
      }
      assert collidables[..|collidables|] == collidables;
      if infos == [] {
        return None;
      }
      var start := trajectory.start;
      var smallerDistance := DistanceSq(start, infos[0].collisionPoint);
      info := None;
      for k := 0 to |infos|
        invariant k == 0 ==> info.None? && smallerDistance == Dist(start, infos[0])
        invariant k > 0 ==> info == Some(infos[ClosestIndex(infos[..k], start)]) &&
                            smallerDistance == Dist(start, info.value)
      {
        if smallerDistance >= DistanceSq(start, infos[k].collisionPoint) {
          smallerDistance := DistanceSq(start, infos[k].collisionPoint);
          info := Some(infos[k]);
        }
        assert infos[..k + 1][..k] == infos[..k];
      }
      assert infos[..|infos|] == infos;
    }
  }
}
