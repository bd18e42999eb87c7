/** The shot entity of the second generation (src/game/core/classes/Shot.ts,
    built on the game/core `GameObject`) and its deprecated copy
    (src/deprecated/Shot.ts, built on the server `GameObject`). Both are a
    0.3 x 0.3 circle in group "shots" with a fresh UUID and a creation
    time, and both integrate their velocity on every update. */
module CoreShot {
  import opened Common
  import Kinematics

  const ShotSize := Size(0.3, 0.3)

  class Shot {
    const id: string
    var position: Vec
    var velocity: Vec
    var size: Size
    var geometry: Geometry
    var colliders: map<string, Collider>
    var group: Option<string>
    var children: map<string, Shot>
    const playerId: string
    /** Construction time in milliseconds. */
    const createdAt: int

    /** `freshId` is the UUID always drawn for a shot, `now` the clock reading. */
    constructor (playerId: string, position: Vec, velocity: Vec, freshId: string, now: int)
      ensures id == freshId && this.playerId == playerId && createdAt == now
      ensures this.position == position && this.velocity == velocity
      ensures geometry == Circle && size == ShotSize && group == Some("shots")
      ensures colliders == map[] && children == map[]
    {
      id := freshId;
      this.position := position;
      this.velocity := velocity;
      size := ShotSize;
      geometry := Circle;
      group := Some("shots");
      colliders := map[];
      children := map[];
      this.playerId := playerId;
      createdAt := now;
    }

    /** Adds the velocity to the position on both axes; nothing else changes. */
    method Update()
      modifies this
      ensures position == Kinematics.Advance(old(position), velocity)
      ensures velocity == old(velocity) && size == old(size) && geometry == old(geometry)
      ensures colliders == old(colliders) && group == old(group) && children == old(children)
    {
      position := Vec(position.x + velocity.x, position.y + velocity.y);
    }
  }
}

module DeprecatedShot {
  import opened Common
  import Kinematics

  const ShotSize := Size(0.3, 0.3)

  class Shot {
    const id: string
    var position: Vec
    var velocity: Vec
    var size: Size
    var geometry: Geometry
    var colliders: map<string, Collider>
    var group: Option<string>
    var children: map<string, Shot>
    var movement: Option<Movement>
    const playerId: string
    /** Construction time in milliseconds, set once. */
    const createdAt: int

    constructor (playerId: string, position: Vec, velocity: Vec, freshId: string, now: int)
      ensures id == freshId && this.playerId == playerId && createdAt == now
      ensures this.position == position && this.velocity == velocity
      ensures geometry == Circle && size == ShotSize && group == Some("shots")
      ensures colliders == map[] && children == map[] && movement == None
    {
      id := freshId;
      this.position := position;
      this.velocity := velocity;
      size := ShotSize;
      geometry := Circle;
      group := Some("shots");
      colliders := map[];
      children := map[];
      movement := None;
      this.playerId := playerId;
      createdAt := now;
    }

    /** Adds the velocity to the position on both axes; nothing else changes. */
    method Update()
      modifies this
      ensures position == Kinematics.Advance(old(position), velocity)
      ensures velocity == old(velocity) && size == old(size) && geometry == old(geometry)
      ensures colliders == old(colliders) && group == old(group) && children == old(children)
      ensures movement == old(movement)
    {
      position := Vec(position.x + velocity.x, position.y + velocity.y);
    }
  }
}
