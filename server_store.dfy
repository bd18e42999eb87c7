/** The server entity store (`GameObjects` in src/core/server/GameObjects.ts):
    a record of entities keyed by their own id. */
module ServerStore {
  import opened Common
  import opened ServerEntity

  class GameObjects {
    var objects: map<string, GameObject>

    /** No key names an entity with another id, so one id never maps to
        two entities. */
    ghost predicate Valid()
      reads this
    {
      forall key :: key in objects ==> objects[key].id == key
    }

    constructor ()
      ensures Valid() && objects == map[]
    {
      objects := map[];
    }

    /** Constructs an entity from `data` and stores it under its id,
        replacing any entity with that id. */
    method Add(data: ObjectProps, freshId: string)
      requires Valid()
      modifies this
      ensures Valid()
      ensures var id := ChosenId(data, freshId);
              && id in objects && fresh(objects[id])
              && objects == old(objects)[id := objects[id]]
              && objects[id].position == data.position && objects[id].size == data.size
              && objects[id].velocity == data.velocity && objects[id].movement == None
              && objects[id].geometry == (if data.geometry.Some? then data.geometry.value else Box)
              && objects[id].group == data.group
              && objects[id].colliders == map[] && objects[id].children == map[]
              && |objects| == |old(objects)| + (if id in old(objects) then 0 else 1)
    {
      var gameObject := new GameObject(data, freshId);
      objects := objects[gameObject.id := gameObject];
    }

    /** `find(id)`: the entity stored under `id`, whose own id is `id`. */
    function Find(id: string): (r: Option<GameObject>)
      reads this
      requires Valid()
      ensures r.Some? <==> id in objects
      ensures r.Some? ==> r.value.id == id && r.value == objects[id]
    {
      if id in objects then Some(objects[id]) else None
    }

    /** `findAll()`: the stored record itself. */
    function FindAll(): (r: map<string, GameObject>)
      reads this
      requires Valid()
      ensures forall key :: key in r ==> r[key].id == key
      ensures r.Keys == objects.Keys
    {
      objects
    }

    /** Deletes the entity found under `id`; a missing id is a silent
        no-op, so removing twice is the same as removing once. */
    method Remove(id: string)
      requires Valid()
      modifies this
      ensures Valid()
      ensures objects == old(objects) - {id}
      ensures id !in old(objects) ==> objects == old(objects)
      ensures id in old(objects) ==> |objects| == |old(objects)| - 1
    {
      var gameObject := Find(id);
      if gameObject.None? { return; }
      objects := objects - {gameObject.value.id};
    }

    method Reset()
      modifies this
      ensures Valid() && objects == map[]
    {
      objects := map[];
    }

    /** `size()`: the number of keys. */
    function Count(): (n: nat)
      reads this
      ensures n == |objects|
      ensures n == 0 <==> objects == map[]
      ensures forall key :: key in objects ==> n >= 1
    {
      |objects.Keys|
    }
  }
}
