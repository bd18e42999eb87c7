/** Value types shared by every generation of the simulation: the plain
    records that the source declares in its `types` files (positions,
    sizes, movement flags, geometry, colliders) and an Option for the
    fields and lookups that may be `undefined`. */
module Common {

  /** A JavaScript value that may be `undefined`. */
  datatype Option<+T> = None | Some(value: T)

  /** `{x, y}`: used for positions and velocities alike. */
  datatype Vec = Vec(x: real, y: real)

  /** `{width, height}`. */
  datatype Size = Size(width: real, height: real)

  /** The four movement intent flags `{up, down, left, right}`. */
  datatype Movement = Movement(up: bool, down: bool, left: bool, right: bool)

  /** All four flags false: the intent every new player starts with. */
  const Still := Movement(false, false, false, false)

  datatype Geometry = Box | Circle

  /** `BoxCollider | CircleCollider`; both carry the name they are stored under. */
  datatype Collider =
    | BoxCollider(name: string, size: Size, position: Vec)
    | CircleCollider(name: string, radius: real, position: Vec)

  /** `GameObjectProps` of the entity constructors that may draw their own
      id; `colliders` is part of the type but no constructor reads it. */
  datatype ObjectProps = ObjectProps(id: Option<string>, position: Vec, size: Size, velocity: Vec,
                                     geometry: Option<Geometry>, colliders: Option<map<string, Collider>>,
                                     group: Option<string>)

  /** `id ?? crypto.randomUUID()`: a supplied id is kept, the drawn one is
      used only when the id is absent. */
  function ChosenId(props: ObjectProps, freshId: string): (id: string)
    ensures props.id.Some? ==> id == props.id.value
    ensures props.id.None? ==> id == freshId
  {
    match props.id
    case Some(given) => given
    case None => freshId
  }

  /** The player's client viewport metadata `{size, proportion}`. */
  datatype Screen = Screen(size: Size, proportion: real)

  /** The centre of a box whose top-left corner is `p`. */
  function Centre(p: Vec, s: Size): (c: Vec)
    ensures c.x - p.x == s.width / 2.0 && c.y - p.y == s.height / 2.0
  {
    Vec(p.x + s.width / 2.0, p.y + s.height / 2.0)
  }
}
