/** The third generation game loop (`Game` in src/core/server/Game.ts): a
    STOPPED/RUNNING machine around an entity store, with a setup hook run
    on `start` and an update hook run after each per-entity pass. The hooks
    are user code; the model records each invocation in a call log and
    leaves their effects out. */
module ServerGame {
  import opened Common
  import opened ServerEntity
  import opened ServerStore
  import TileMap

  datatype Status = Stopped | Running

  /** A hook: the default `() => { }` or the function supplied in the config. */
  datatype Hook = NoOp | Supplied(name: string)

  /** One invocation the loop performs. */
  datatype Call = SetupRan(setup: Hook) | EntityUpdated(id: string) | UpdateRan(update: Hook)

  /** The hook a config entry selects: the supplied one if present, else the default. */
  function HookFor(configured: Option<string>): (h: Hook)
    ensures configured.None? <==> h == NoOp
    ensures configured.Some? ==> h == Supplied(configured.value)
  {
    if configured.Some? then Supplied(configured.value) else NoOp
  }

  /** `config.fps || 1000 / 30`: absent and 0 both fall back to the default. */
  function FpsFor(configured: Option<real>): (fps: real)
    ensures configured.Some? && configured.value != 0.0 ==> fps == configured.value
    ensures configured.None? || configured.value == 0.0 ==> fps == 1000.0 / 30.0
  {
    if configured.None? || configured.value == 0.0 then 1000.0 / 30.0 else configured.value
  }

  /** `Object.keys(this.gameObjects)`: the own keys of the store wrapper,
      whose one own property is its private record `gameObjects`. */
  const WrapperKeys: seq<string> := ["gameObjects"]

  /** The entity updates a pass over `keys` performs: one per key that
      `find` resolves, in key order; unresolved keys are skipped. */
  function EntityPass(objects: map<string, GameObject>, keys: seq<string>): (r: seq<Call>)
    ensures |r| <= |keys|
    ensures forall i :: 0 <= i < |r| ==> r[i].EntityUpdated? && r[i].id in objects && r[i].id in keys
    ensures (forall k :: k in keys ==> k !in objects) ==> r == []
  {
    if keys == [] then []
    else
      var last := keys[|keys| - 1];
      EntityPass(objects, keys[..|keys| - 1]) + (if last in objects then [EntityUpdated(last)] else [])
  }

  /** The pass misses no key that resolves to an entity. */
  lemma {:induction false} EntityPassComplete(objects: map<string, GameObject>, keys: seq<string>, i: nat)
    requires i < |keys| && keys[i] in objects
    ensures EntityUpdated(keys[i]) in EntityPass(objects, keys)
  {
    var n := |keys| - 1;
    if i < n {
      assert keys[i] == keys[..n][i];
      EntityPassComplete(objects, keys[..n], i);
    }
  }

  /** The pass follows the key order: one more key appends that key's
      update, if it resolves, after the updates of the keys before it. */
  lemma {:induction false} EntityPassAppend(objects: map<string, GameObject>, keys: seq<string>, k: string)
    ensures EntityPass(objects, keys + [k]) ==
              EntityPass(objects, keys) + (if k in objects then [EntityUpdated(k)] else [])
  {
    assert (keys + [k])[..|keys|] == keys;
  }

  /** Because the pass walks the wrapper's keys, an entity is updated only
      if its id is literally "gameObjects"; every other entity is skipped. */
  lemma WrapperPassSkipsEntities(objects: map<string, GameObject>)
    ensures EntityPass(objects, WrapperKeys) ==
              if "gameObjects" in objects then [EntityUpdated("gameObjects")] else []
  {
    assert WrapperKeys[..0] == [];
  }

  class Game {
    const store: GameObjects
    /** The map built from the config (src/core/server/Map.ts is not part of this model). */
    const world: TileMap.Map
    /** Also the interval period, in milliseconds, that `start` schedules. */
    const fps: real
    const setup: Hook
    const update: Hook
    var status: Status
    /** Whether `gameLoop` holds an interval handle. */
    var gameLoop: bool
    /** Intervals scheduled and not yet cleared. */
    var liveTimers: nat
    /** Every hook and entity update invoked so far, in order. */
    var calls: seq<Call>

    ghost predicate Valid()
      reads this, store
    {
      && store.Valid()
      && (gameLoop <==> status == Running)
      && (gameLoop ==> liveTimers >= 1)
    }

    constructor (world: TileMap.Map, fps: Option<real>, setup: Option<string>, update: Option<string>)
      ensures Valid() && fresh(store) && store.objects == map[]
      ensures this.world == world && this.fps == FpsFor(fps)
      ensures this.setup == HookFor(setup) && this.update == HookFor(update)
      ensures status == Stopped && !gameLoop && liveTimers == 0 && calls == []
    {
      store := new GameObjects();
      this.world := world;
      this.fps := FpsFor(fps);
      this.setup := HookFor(setup);
      this.update := HookFor(update);
      status := Stopped;
      gameLoop := false;
      liveTimers := 0;
      calls := [];
    }

    /** Sets RUNNING, runs the setup hook once, then schedules the interval. */
    method Start()
      requires Valid()
      modifies this
      ensures Valid()
      ensures status == Running && gameLoop && liveTimers == old(liveTimers) + 1
      ensures calls == old(calls) + [SetupRan(setup)]
    {
      status := Running;
      calls := calls + [SetupRan(setup)];
      gameLoop := true;
      liveTimers := liveTimers + 1;
    }

    /** Clears the interval, sets STOPPED and empties the store. */
    method Stop()
      requires Valid()
      modifies this, store
      ensures Valid()
      ensures status == Stopped && !gameLoop
      ensures liveTimers == old(liveTimers) - (if old(gameLoop) then 1 else 0)
      ensures store.objects == map[] && store.Count() == 0
      ensures calls == old(calls)
    {
      if gameLoop { liveTimers := liveTimers - 1; }
      gameLoop := false;
      status := Stopped;
      store.Reset();
    }

    /** `_update`, one interval tick: the entity pass over the wrapper's
        keys, then the update hook exactly once. Entities are those the
        store constructs, whose `update` changes nothing. */
    method Tick()
      requires Valid()
      modifies this
      ensures Valid()
      ensures calls == old(calls) + EntityPass(store.objects, WrapperKeys) + [UpdateRan(update)]
      ensures calls[|old(calls)|..] ==
                (if "gameObjects" in store.objects then [EntityUpdated("gameObjects")] else []) + [UpdateRan(update)]
      ensures status == old(status) && gameLoop == old(gameLoop) && liveTimers == old(liveTimers)
    {
      var keys := WrapperKeys;
      var i := 0;
      while i < |keys|
        invariant 0 <= i <= |keys|
        invariant calls == old(calls) + EntityPass(store.objects, keys[..i])
        invariant store.objects == old(store.objects) && store.Valid()
        invariant status == old(status) && gameLoop == old(gameLoop) && liveTimers == old(liveTimers)
      {
        assert keys[..i + 1][..i] == keys[..i];
        var gameObject := store.Find(keys[i]);
        if gameObject.Some? {
          gameObject.value.Update();
          calls := calls + [EntityUpdated(keys[i])];
        }
        i := i + 1;
      }
      assert keys[..|keys|] == keys;
      calls := calls + [UpdateRan(update)];
      assert calls[|old(calls)|..] == EntityPass(store.objects, WrapperKeys) + [UpdateRan(update)];
      WrapperPassSkipsEntities(store.objects);
    }
  }
}
