/** The third generation server player entity (`Player` in
    src/classes/Player.ts, built on the server `GameObject`): a body that
    moves by the bounded movement rule, a weapon that follows its centre,
    and an aim update. */
module EntityPlayer {
  import opened Common
  import Motion
  import opened Aim

  const SpawnPoint := Vec(100.0, 100.0)
  const SpawnVelocity := Vec(2.0, 2.0)
  const BodySize := Size(8.0, 16.0)

  class Player {
    const id: string
    var position: Vec
    var velocity: Vec
    var size: Size
    var geometry: Geometry
    var colliders: map<string, Collider>
    var group: Option<string>
    var children: map<string, Player>
    /** The base entity's movement field; the player steers by `move` instead. */
    var movement: Option<Movement>
    var username: string
    var move: Movement
    var screen: Screen
    var weapon: Weapon

    constructor (id: string, username: string, screen: Screen)
      ensures this.id == id && this.username == username && this.screen == screen
      ensures position == SpawnPoint && velocity == SpawnVelocity && size == BodySize
      ensures geometry == Box && group == Some("players") && movement == None
      ensures colliders == map[] && children == map[]
      ensures move == Still && weapon == InitialWeapon
      // the weapon starts one unit right of the body's centre
      ensures weapon.position != Centre(position, size)
    {
      this.id := id;
      position := SpawnPoint;
      velocity := SpawnVelocity;
      size := BodySize;
      geometry := Box;
      group := Some("players");
      colliders := map[];
      children := map[];
      movement := None;
      this.username := username;
      this.screen := screen;
      move := Still;
      weapon := InitialWeapon;
    }

    /** `update({map})`: the four guarded branches against the map's size,
        then the weapon placed on the body's centre. */
    method Update(bounds: Size)
      modifies this
      ensures position == Motion.Step(old(position), size, velocity, move, bounds)
      ensures weapon.position == Centre(position, size)
      ensures weapon.(position := old(weapon).position) == old(weapon)
      ensures velocity == old(velocity) && size == old(size) && move == old(move)
      ensures username == old(username) && screen == old(screen) && movement == old(movement)
      ensures geometry == old(geometry) && group == old(group)
      ensures colliders == old(colliders) && children == old(children)
    {
      var p := position;
      if move.up && p.y > 0.0 {
        p := p.(y := p.y - velocity.y);
      }
      if move.down && p.y + size.height + velocity.y <= bounds.height {
        p := p.(y := p.y + velocity.y);
      }
      if move.right && p.x + size.width + velocity.x <= bounds.width {
        p := p.(x := p.x + velocity.x);
      }
      if move.left && p.x > 0.0 {
        p := p.(x := p.x - velocity.x);
      }
      var w := weapon.(position := Vec(p.x + size.width / 2.0, p.y + size.height / 2.0));
      position, weapon := p, w;
    }

    /** `updateAim`: `raw` is the atan2 angle in degrees and (`dx`, `dy`) the
        unit direction from the body's centre to the mouse, both computed
        outside; only the weapon's aim fields change. */
    method UpdateAim(raw: real, dx: real, dy: real)
      modifies this
      ensures weapon == Aimed(old(weapon), raw, dx, dy)
      ensures position == old(position) && velocity == old(velocity) && size == old(size)
      ensures move == old(move) && username == old(username) && screen == old(screen)
      ensures geometry == old(geometry) && group == old(group) && colliders == old(colliders)
      ensures children == old(children) && movement == old(movement)
    {
      weapon := weapon.(rotation := NormalizeRotation(raw), dx := dx, dy := dy);
    }
  }

  /** From the spawn point, on a map at least 108 x 116, any sequence of
      updates keeps the body inside the map with even, non-negative
      coordinates: up/left only fire on a positive coordinate, which on
      the 2-unit grid is at least 2. */
  lemma SpawnStaysInside(moves: seq<Movement>, bounds: Size) returns (kx: nat, ky: nat)
    requires bounds.width >= 108.0 && bounds.height >= 116.0
    ensures var p := Motion.Run(SpawnPoint, BodySize, SpawnVelocity, moves, bounds);
            && 0.0 <= p.x && p.x + BodySize.width <= bounds.width
            && 0.0 <= p.y && p.y + BodySize.height <= bounds.height
            && p.x == 2.0 * kx as real && p.y == 2.0 * ky as real
  {
    assert Motion.InsideAt(SpawnPoint, BodySize, SpawnVelocity, bounds, 50, 50);
    kx, ky := Motion.RunKeepsInside(SpawnPoint, BodySize, SpawnVelocity, moves, bounds, 50, 50);
  }
}
