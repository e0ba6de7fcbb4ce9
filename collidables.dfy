/** The objects a ball can collide with (src/physics/Collidable.java) and the record of one collision
    (src/CollisionInfo.java). */
module Collidables {
  import opened Points
  import opened Rectangles

  /** Which implementation of Collidable an object is. */
  datatype Kind = BlockKind | PaddleKind

  /** className: "Block" for blocks, "Paddle" for the paddle. */
  function ClassName(k: Kind): (name: string)
    ensures name == "Block" <==> k == BlockKind
    ensures name == "Paddle" <==> k == PaddleKind
  {
    match k
    case BlockKind => "Block"
    case PaddleKind => "Paddle"
  }

  /** A collidable object: its identity (Java compares collidables by reference), its collision
      rectangle and its kind. */
  datatype Collidable = Collidable(id: nat, rect: Rectangle, kind: Kind)

  /** CollisionInfo: where a trajectory meets a collidable, and which one. */
  datatype CollisionInfo = CollisionInfo(collisionPoint: Point, collisionObject: Collidable)
}
