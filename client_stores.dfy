/** The client's keyed stores: `GameObjects` (src/core/client/GameObjects.ts),
    `Players` (src/core/client/Players.ts) and the legacy JavaScript
    `GameObjects` (src/core/client/classes/GameObjects.js). The first two
    can be overwritten wholesale by `set`, so nothing guarantees that a key
    names an entity with the same id; `remove(k)` deletes the key of the
    entity found under `k`, which is `k` itself exactly when the entry is
    keyed by its own id. */
module ClientStore {
  import opened Common
  import opened ClientEntity

  /** Every entity sits under its own id. */
  predicate Keyed(objects: map<string, GameObject>)
  {
    forall key :: key in objects ==> objects[key].id == key
  }

  /** What `remove(id)` leaves: the key of the entity found under `id` is
      deleted, nothing when there is none. */
  function Removed(objects: map<string, GameObject>, id: string): (r: map<string, GameObject>)
    ensures id !in objects ==> r == objects
    ensures id in objects ==> r == objects - {objects[id].id}
    ensures Keyed(objects) ==> r == objects - {id} && Keyed(r)
    // a store filled by `set` may be keyed otherwise: then `id` survives
    ensures id in objects && objects[id].id != id ==> id in r
  {
    if id !in objects then objects else objects - {objects[id].id}
  }

  /** Removing twice is removing once, however the store is keyed. */
  lemma RemoveIsIdempotent(objects: map<string, GameObject>, id: string)
    ensures Removed(Removed(objects, id), id) == Removed(objects, id)
  {
  }

  class GameObjects {
    var objects: map<string, GameObject>

    constructor ()
      ensures objects == map[]
    {
      objects := map[];
    }

    /** Constructs an entity from `data` and stores it under its id. */
    method Add(data: ClientProps)
      modifies this
      ensures data.id in objects && fresh(objects[data.id])
      ensures objects == old(objects)[data.id := objects[data.id]]
      ensures objects[data.id].position == data.position && objects[data.id].movement == data.movement
      ensures objects[data.id].velocity == data.velocity && objects[data.id].size == data.size
      ensures objects[data.id].group == data.group
      ensures objects[data.id].geometry == (if data.geometry.Some? then data.geometry.value else Box)
      ensures objects[data.id].colliders == map[] && objects[data.id].children == map[]
      ensures Keyed(old(objects)) ==> Keyed(objects)
    {
      var gameObject := new GameObject(data);
      objects := objects[gameObject.id := gameObject];
    }

    /** Replaces the whole record. */
    method Set(objects: map<string, GameObject>)
      modifies this
      ensures this.objects == objects && FindAll() == objects
    {
      this.objects := objects;
    }

    function Find(id: string): (r: Option<GameObject>)
      reads this
      ensures r.Some? <==> id in objects
      ensures r.Some? ==> r.value == objects[id]
    {
      if id in objects then Some(objects[id]) else None
    }

    /** `findAll()`: the stored record itself. */
    function FindAll(): (r: map<string, GameObject>)
      reads this
      ensures r.Keys == objects.Keys && forall key :: key in r ==> r[key] == objects[key]
    {
      objects
    }

    method Remove(id: string)
      modifies this
      ensures objects == Removed(old(objects), id)
    {
      var gameObject := Find(id);
      if gameObject.None? { return; }
      objects := objects - {gameObject.value.id};
    }

    method Reset()
      modifies this
      ensures objects == map[] && Count() == 0
    {
      objects := map[];
    }

    /** `size()`: the number of keys. */
    function Count(): (n: nat)
      reads this
      ensures n == |objects|
      ensures n == 0 <==> objects == map[]
    {
      |objects.Keys|
    }
  }
}

module ClientPlayers {
  import opened Common
  import opened ClientPlayer

  /** `PlayerProps`: position or movement in the message are not read. */
  datatype PlayerProps = PlayerProps(id: string, username: string, screen: Screen)

  predicate Keyed(players: map<string, Player>)
  {
    forall key :: key in players ==> players[key].id == key
  }

  /** What `remove(id)` leaves: the key of the player found under `id` is deleted. */
  function Removed(players: map<string, Player>, id: string): (r: map<string, Player>)
    ensures id !in players ==> r == players
    ensures id in players ==> r == players - {players[id].id}
    ensures Keyed(players) ==> r == players - {id} && Keyed(r)
  {
    if id !in players then players else players - {players[id].id}
  }

  class Players {
    var players: map<string, Player>

    constructor ()
      ensures players == map[]
    {
      players := map[];
    }

    method Set(players: map<string, Player>)
      modifies this
      ensures this.players == players
    {
      this.players := players;
    }

    /** Stores a freshly spawned player under `data.id`. */
    method Add(data: PlayerProps)
      modifies this
      ensures data.id in players && fresh(players[data.id])
      ensures players == old(players)[data.id := players[data.id]]
      ensures players[data.id].position == Vec(100.0, 100.0) && players[data.id].movement == Still
      ensures players[data.id].velocity == Vec(2.0, 2.0) && players[data.id].size == Size(8.0, 16.0)
      ensures players[data.id].geometry == Box && players[data.id].group == Some("players")
      ensures players[data.id].colliders == map[] && players[data.id].children == map[]
      ensures players[data.id].username == data.username && players[data.id].screen == data.screen
      ensures Keyed(old(players)) ==> Keyed(players)
    {
      var player := new Player(data.id, data.username, data.screen);
      players := players[player.id := player];
    }

    function Find(id: string): (r: Option<Player>)
      reads this
      ensures r.Some? <==> id in players
      ensures r.Some? ==> r.value == players[id]
    {
      if id in players then Some(players[id]) else None
    }

    function FindAll(): (r: map<string, Player>)
      reads this
      ensures r.Keys == players.Keys && forall key :: key in r ==> r[key] == players[key]
    {
      players
    }

    method Remove(id: string)
      modifies this
      ensures players == Removed(old(players), id)
    {
      var player := Find(id);
      if player.None? { return; }
      players := players - {player.value.id};
    }

    method Reset()
      modifies this
      ensures players == map[] && Count() == 0
    {
      players := map[];
    }

    function Count(): (n: nat)
      reads this
      ensures n == |players|
      ensures n == 0 <==> players == map[]
    {
      |players.Keys|
    }
  }
}

module LegacyClientStore {
  import opened Common
  import ClientEntity
  import opened LegacyClientEntity

  /** The legacy store has no `set`: entries stay keyed by their own ids. */
  class GameObjects {
    var objects: map<string, GameObject>

    ghost predicate Valid()
      reads this
    {
      forall key :: key in objects ==> objects[key].id == key
    }

    constructor ()
      ensures Valid() && objects == map[]
    {
      objects := map[];
    }

    method Add(data: ClientEntity.ClientProps)
      requires Valid()
      modifies this
      ensures Valid()
      ensures data.id in objects && fresh(objects[data.id])
      ensures objects == old(objects)[data.id := objects[data.id]]
      ensures objects[data.id].position == data.position && objects[data.id].movement == None
      ensures objects[data.id].velocity == data.velocity && objects[data.id].size == data.size
      ensures objects[data.id].group == data.group
      ensures objects[data.id].geometry == (if data.geometry.Some? then data.geometry.value else Box)
      ensures objects[data.id].colliders == None && objects[data.id].children == None
    {
      var gameObject := new GameObject(data);
      objects := objects[gameObject.id := gameObject];
    }

    function Find(id: string): (r: Option<GameObject>)
      reads this
      requires Valid()
      ensures r.Some? <==> id in objects
      ensures r.Some? ==> r.value == objects[id] && r.value.id == id
    {
      if id in objects then Some(objects[id]) else None
    }

    /** A missing id is a silent no-op; otherwise only that key goes. */
    method Remove(id: string)
      requires Valid()
      modifies this
      ensures Valid()
      ensures objects == old(objects) - {id}
    {
      var gameObject := Find(id);
      if gameObject.None? { return; }
      objects := objects - {gameObject.value.id};
    }

    method Reset()
      modifies this
      ensures Valid() && objects == map[]
    {
      objects := map[];
    }
  }
}
