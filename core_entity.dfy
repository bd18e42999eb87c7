/** The second generation entity classes: the base `GameObject`
    (src/game/core/classes/GameObject.ts) and the `Player` built on it
    (src/game/core/classes/Player.ts), whose constructor fixes the spawn,
    the body and the initial weapon. */
module CoreEntity {
  import opened Common

  class GameObject {
    const id: string
    var position: Vec
    var velocity: Vec
    var size: Size
    var geometry: Geometry
    var colliders: map<string, Collider>
    var group: Option<string>
    var children: map<string, GameObject>

    /** Every stored collider sits under its own name. */
    ghost predicate Valid()
      reads this
    {
      forall name :: name in colliders ==> colliders[name].name == name
    }

    /** `freshId` stands for the UUID drawn when `props.id` is absent. */
    constructor (props: ObjectProps, freshId: string)
      ensures Valid()
      ensures id == ChosenId(props, freshId)
      ensures position == props.position && size == props.size && velocity == props.velocity
      ensures geometry == (if props.geometry.Some? then props.geometry.value else Box)
      ensures group == props.group
      ensures colliders == map[] && children == map[]
    {
      id := ChosenId(props, freshId);
      position := props.position;
      velocity := props.velocity;
      size := props.size;
      geometry := if props.geometry.Some? then props.geometry.value else Box;
      group := props.group;
      colliders := map[];
      children := map[];
    }

    /** Replaces the position and nothing else. */
    method UpdatePosition(position: Vec)
      modifies this
      ensures this.position == position
      ensures velocity == old(velocity) && size == old(size) && geometry == old(geometry)
      ensures colliders == old(colliders) && group == old(group) && children == old(children)
    {
      this.position := position;
    }

    /** Stores the collider under its name, replacing one of the same name. */
    method AddCollider(collider: Collider)
      requires Valid()
      modifies this
      ensures Valid()
      ensures colliders == old(colliders)[collider.name := collider]
      ensures position == old(position) && velocity == old(velocity) && size == old(size)
      ensures geometry == old(geometry) && group == old(group) && children == old(children)
    {
      colliders := colliders[collider.name := collider];
    }
  }
}

module CorePlayer {
  import opened Common
  import opened Aim

  class Player {
    const id: string
    var position: Vec
    var velocity: Vec
    var size: Size
    var geometry: Geometry
    var colliders: map<string, Collider>
    var group: Option<string>
    var children: map<string, Player>
    var username: string
    var move: Movement
    var screen: Screen
    var weapon: Weapon

    /** Spawn (100, 100), velocity (2, 2), body 8 x 16 in group "players",
        no movement intent and the initial weapon. */
    constructor (id: string, username: string, screen: Screen)
      ensures this.id == id && this.username == username && this.screen == screen
      ensures position == Vec(100.0, 100.0) && velocity == Vec(2.0, 2.0) && size == Size(8.0, 16.0)
      ensures geometry == Box && group == Some("players") && colliders == map[] && children == map[]
      ensures move == Still
      ensures weapon.rotation == 0.0 && weapon.dx == 0.0 && weapon.dy == 0.0
      ensures weapon.position == Vec(105.0, 108.0) && weapon.size == Size(1.0, 5.0)
      ensures weapon.position != Centre(position, size)
    {
      this.id := id;
      position := Vec(100.0, 100.0);
      velocity := Vec(2.0, 2.0);
      size := Size(8.0, 16.0);
      geometry := Box;
      group := Some("players");
      colliders := map[];
      children := map[];
      this.username := username;
      this.screen := screen;
      move := Still;
      weapon := InitialWeapon;
      InitialWeaponIsOffCentre();
    }
  }
}
