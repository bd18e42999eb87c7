/** The client-side entity records: `GameObject` in
    src/core/client/GameObject.ts and its legacy JavaScript form in
    src/core/client/classes/GameObject.js. Neither draws an id; both are
    filled from server state. */
module ClientEntity {
  import opened Common

  /** `GameObjectProps` of the client: the id is required. */
  datatype ClientProps = ClientProps(id: string, position: Vec, size: Size, velocity: Vec,
                                     geometry: Option<Geometry>, group: Option<string>,
                                     movement: Option<Movement>)

  class GameObject {
    const id: string
    var position: Vec
    var velocity: Vec
    var size: Size
    var geometry: Geometry
    var colliders: map<string, Collider>
    var group: Option<string>
    var children: map<string, GameObject>
    var movement: Option<Movement>

    /** Copies the props; `movement` is written only when one is supplied. */
    constructor (props: ClientProps)
      ensures id == props.id && position == props.position && size == props.size
      ensures velocity == props.velocity && group == props.group
      ensures geometry == (if props.geometry.Some? then props.geometry.value else Box)
      ensures movement == props.movement
      ensures colliders == map[] && children == map[]
    {
      id := props.id;
      position := props.position;
      velocity := props.velocity;
      size := props.size;
      geometry := if props.geometry.Some? then props.geometry.value else Box;
      group := props.group;
      colliders := map[];
      children := map[];
      if props.movement.Some? {
        movement := props.movement;
      } else {
        movement := None;
      }
    }

    /** The base `update(game)` does nothing. */
    method Update()
      ensures position == old(position) && velocity == old(velocity) && movement == old(movement)
    {
    }
  }
}

module LegacyClientEntity {
  import opened Common
  import ClientEntity

  class GameObject {
    const id: string
    var position: Vec
    var velocity: Vec
    var size: Size
    var geometry: Geometry
    /** Declared without a value: `colliders`, `children` and `movement` stay undefined. */
    var colliders: Option<map<string, Collider>>
    var group: Option<string>
    var children: Option<map<string, GameObject>>
    var movement: Option<Movement>

    /** Copies the props; a supplied movement is not read. */
    constructor (props: ClientEntity.ClientProps)
      ensures id == props.id && position == props.position && size == props.size
      ensures velocity == props.velocity && group == props.group
      ensures geometry == (if props.geometry.Some? then props.geometry.value else Box)
      ensures movement == None && colliders == None && children == None
    {
      id := props.id;
      position := props.position;
      velocity := props.velocity;
      size := props.size;
      geometry := if props.geometry.Some? then props.geometry.value else Box;
      group := props.group;
      colliders := None;
      children := None;
      movement := None;
    }

    /** `update(game)` does nothing. */
    method Update()
      ensures position == old(position) && velocity == old(velocity) && movement == old(movement)
    {
    }
  }
}
