/** The client's player entity (`Player` in src/core/client/OldPlayer.ts,
    built on the client `GameObject`): spawned like the server's, steered
    by its `movement` flags, and frozen while the game has no map yet. */
module ClientPlayer {
  import opened Common
  import Motion
  import TileMap

  class Player {
    const id: string
    var position: Vec
    var velocity: Vec
    var size: Size
    var geometry: Geometry
    var colliders: map<string, Collider>
    var group: Option<string>
    var children: map<string, Player>
    var movement: Movement
    var username: string
    var screen: Screen

    constructor (id: string, username: string, screen: Screen)
      ensures this.id == id && this.username == username && this.screen == screen
      ensures position == Vec(100.0, 100.0) && velocity == Vec(2.0, 2.0) && size == Size(8.0, 16.0)
      ensures geometry == Box && group == Some("players") && movement == Still
      ensures colliders == map[] && children == map[]
    {
      this.id := id;
      position := Vec(100.0, 100.0);
      velocity := Vec(2.0, 2.0);
      size := Size(8.0, 16.0);
      geometry := Box;
      group := Some("players");
      colliders := map[];
      children := map[];
      this.username := username;
      this.screen := screen;
      movement := Still;
    }

    /** `update({map})`: nothing while the game has no map, otherwise the
        four guarded branches against the map's size. */
    method Update(world: Option<TileMap.Map>)
      modifies this
      ensures world.None? ==> position == old(position)
      ensures world.Some? ==> position == Motion.Step(old(position), size, velocity, movement, world.value.size)
      ensures velocity == old(velocity) && size == old(size) && movement == old(movement)
      ensures geometry == old(geometry) && group == old(group) && username == old(username)
      ensures screen == old(screen) && colliders == old(colliders) && children == old(children)
    {
      if world.None? { return; }
      var bounds := world.value.size;
      var p := position;
      if movement.up && p.y > 0.0 {
        p := p.(y := p.y - velocity.y);
      }
      if movement.down && p.y + size.height + velocity.y <= bounds.height {
        p := p.(y := p.y + velocity.y);
      }
      if movement.right && p.x + size.width + velocity.x <= bounds.width {
        p := p.(x := p.x + velocity.x);
      }
      if movement.left && p.x > 0.0 {
        p := p.(x := p.x - velocity.x);
      }
      position := p;
    }
  }
}
