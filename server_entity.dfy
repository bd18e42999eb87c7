/** The third generation server entity (`GameObject` in
    src/core/server/GameObject.ts): a mutable record of position, size,
    velocity, geometry, named colliders, group, children and movement
    intent. Its id is fixed at construction and never reassigned. */
module ServerEntity {
  import opened Common

  class GameObject {
    const id: string
    var position: Vec
    var velocity: Vec
    var size: Size
    var geometry: Geometry
    var colliders: map<string, Collider>
    var group: Option<string>
    var children: map<string, GameObject>
    var movement: Option<Movement>

    /** Every stored collider sits under its own name. */
    ghost predicate Valid()
      reads this
    {
      forall name :: name in colliders ==> colliders[name].name == name
    }

    /** `freshId` stands for the UUID the constructor draws when `props.id`
        is absent. */
    constructor (props: ObjectProps, freshId: string)
      ensures Valid()
      ensures id == ChosenId(props, freshId)
      ensures position == props.position && size == props.size && velocity == props.velocity
      ensures geometry == (if props.geometry.Some? then props.geometry.value else Box)
      ensures group == props.group
      // the colliders prop is ignored; movement starts unset
      ensures colliders == map[] && children == map[] && movement == None
    {
      id := ChosenId(props, freshId);
      position := props.position;
      velocity := props.velocity;
      size := props.size;
      geometry := if props.geometry.Some? then props.geometry.value else Box;
      group := props.group;
      colliders := map[];
      children := map[];
      movement := None;
    }

    /** Stores the collider under its name, replacing one of the same name. */
    method AddCollider(collider: Collider)
      requires Valid()
      modifies this
      ensures Valid()
      ensures colliders == old(colliders)[collider.name := collider]
      ensures position == old(position) && velocity == old(velocity) && size == old(size)
      ensures geometry == old(geometry) && group == old(group) && children == old(children)
      ensures movement == old(movement)
    {
      colliders := colliders[collider.name := collider];
    }

    method SetPosition(position: Vec)
      modifies this
      ensures this.position == position
      ensures velocity == old(velocity) && size == old(size) && geometry == old(geometry)
      ensures colliders == old(colliders) && group == old(group) && children == old(children)
      ensures movement == old(movement)
    {
      this.position := position;
    }

    method SetSize(size: Size)
      modifies this
      ensures this.size == size
      ensures position == old(position) && velocity == old(velocity) && geometry == old(geometry)
      ensures colliders == old(colliders) && group == old(group) && children == old(children)
      ensures movement == old(movement)
    {
      this.size := size;
    }

    method SetVelocity(velocity: Vec)
      modifies this
      ensures this.velocity == velocity
      ensures position == old(position) && size == old(size) && geometry == old(geometry)
      ensures colliders == old(colliders) && group == old(group) && children == old(children)
      ensures movement == old(movement)
    {
      this.velocity := velocity;
    }

    method SetMovement(movement: Movement)
      modifies this
      ensures this.movement == Some(movement)
      ensures position == old(position) && velocity == old(velocity) && size == old(size)
      ensures geometry == old(geometry) && colliders == old(colliders) && group == old(group)
      ensures children == old(children)
    {
      this.movement := Some(movement);
    }

    /** The base `update(game)` does nothing. */
    method Update()
      ensures position == old(position) && velocity == old(velocity) && movement == old(movement)
    {
    }
  }
}
