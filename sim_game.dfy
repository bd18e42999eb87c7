/** The second generation authoritative simulation (`Game` in
    src/game/core/classes/Game.ts): a record of players keyed by id, the
    ordered record of shots, a STOPPED/RUNNING status and the interval
    handle. One call of `Update` is one tick of the interval; the state
    broadcast that follows it is not modelled. */
module SimGame {
  import opened Common
  import Motion
  import opened Aim
  import opened ShotLog
  import TileMap

  datatype Status = Stopped | Running

  /** The player record the game stores (velocity is one scalar for both axes). */
  datatype Player = Player(id: string, username: string, move: Movement, velocity: real,
                           size: Size, position: Vec, screen: Screen, weapon: Weapon)

  /** Speed factor applied to the aim direction of a new shot. */
  const MuzzleSpeed := 10.0

  /** The record `addPlayer` stores: spawn (100, 100), step 2, body 8 x 16,
      no movement intent, the initial weapon. */
  function Spawn(id: string, username: string, screen: Screen): (p: Player)
    ensures p.id == id && p.username == username && p.screen == screen
    ensures p.move == Still && p.velocity == 2.0
    ensures p.size == Size(8.0, 16.0) && p.position == Vec(100.0, 100.0)
    ensures p.weapon == InitialWeapon
    ensures p.weapon.position != Centre(p.position, p.size)
  {
    Player(id, username, Still, 2.0, Size(8.0, 16.0), Vec(100.0, 100.0), screen, InitialWeapon)
  }

  /** A player after one tick: bounded movement with its scalar velocity on
      both axes, then the weapon re-centred on the body. */
  function Tick(p: Player, bounds: Size): (r: Player)
    ensures r.position == Motion.Step(p.position, p.size, Vec(p.velocity, p.velocity), p.move, bounds)
    ensures r.weapon.position == Centre(r.position, r.size)
    ensures r.weapon.(position := p.weapon.position) == p.weapon
    ensures r.(position := p.position, weapon := p.weapon) == p
  {
    var pos := Motion.Step(p.position, p.size, Vec(p.velocity, p.velocity), p.move, bounds);
    p.(position := pos, weapon := p.weapon.(position := Centre(pos, p.size)))
  }

  /** The shot an accepted fire command creates: owned by the player, at
      the weapon's position, moving along the aim direction times 10. */
  function NewShot(p: Player, shotId: string, now: int): (s: Shot)
    ensures s.id == shotId && s.playerId == p.id && s.createdAt == now
    ensures s.position == p.weapon.position
    ensures s.velocity == Vec(p.weapon.dx * MuzzleSpeed, p.weapon.dy * MuzzleSpeed)
  {
    Shot(shotId, p.id, 0.3, p.weapon.position, Vec(p.weapon.dx * MuzzleSpeed, p.weapon.dy * MuzzleSpeed), now)
  }

  /** The shots record after a fire command at time `now`: unchanged for an
      unknown player or inside that player's cooldown, otherwise the new
      shot stored under `shotId`. */
  function Fire(players: map<string, Player>, shots: seq<Shot>, playerId: string, shotId: string, now: int)
    : (r: seq<Shot>)
    ensures playerId !in players ==> r == shots
    ensures !CooldownAllows(shots, playerId, now) ==> r == shots
    ensures playerId in players && CooldownAllows(shots, playerId, now) && !HasId(shots, shotId) ==>
              r == shots + [NewShot(players[playerId], shotId, now)]
    ensures UniqueIds(shots) ==> UniqueIds(r)
  {
    if playerId in players && CooldownAllows(shots, playerId, now)
    then Put(shots, NewShot(players[playerId], shotId, now))
    else shots
  }

  /** Under fresh shot ids, every player's stored shots stay at least one
      cooldown apart however fire commands are interleaved. */
  lemma FireKeepsSpaced(players: map<string, Player>, shots: seq<Shot>, playerId: string, shotId: string, now: int)
    requires Spaced(shots) && !HasId(shots, shotId)
    requires forall id :: id in players ==> players[id].id == id
    ensures Spaced(Fire(players, shots, playerId, shotId, now))
  {
    if playerId in players && CooldownAllows(shots, playerId, now) {
      AppendKeepsSpaced(shots, NewShot(players[playerId], shotId, now));
    }
  }

  /** The interval period used by `start`, whatever `fps` says. */
  const TickPeriod := 1000.0 / 30.0

  class Game {
    const world: TileMap.Map
    /** `config.fps || 1000 / 60`; stored but never read by the loop. */
    const fps: real
    var players: map<string, Player>
    var shots: seq<Shot>
    var status: Status
    /** Whether `gameLoop` holds an interval handle. */
    var gameLoop: bool
    /** Intervals scheduled and not yet cleared. */
    var liveTimers: nat

    ghost predicate Valid()
      reads this
    {
      && (forall id :: id in players ==> players[id].id == id)
      && UniqueIds(shots)
      && (gameLoop <==> status == Running)
      && (gameLoop ==> liveTimers >= 1)
    }

    /** `Object.keys(this.players).length`. */
    function PlayersCount(): (n: nat)
      reads this
      ensures n == |players|
      ensures n == 0 <==> players == map[]
    {
      |players.Keys|
    }

    constructor (world: TileMap.Map, fps: Option<real>)
      ensures Valid() && this.world == world
      ensures this.fps == if fps.None? || fps.value == 0.0 then 1000.0 / 60.0 else fps.value
      ensures players == map[] && shots == [] && status == Stopped && !gameLoop && liveTimers == 0
    {
      this.world := world;
      this.fps := if fps.None? || fps.value == 0.0 then 1000.0 / 60.0 else fps.value;
      players := map[];
      shots := [];
      status := Stopped;
      gameLoop := false;
      liveTimers := 0;
    }

    /** Sets RUNNING and schedules a new interval of period `TickPeriod`. */
    method Start()
      requires Valid()
      modifies this
      ensures Valid()
      ensures status == Running && gameLoop && liveTimers == old(liveTimers) + 1
      ensures players == old(players) && shots == old(shots)
    {
      status := Running;
      gameLoop := true;
      liveTimers := liveTimers + 1;
    }

    /** Clears the interval, sets STOPPED and empties the world. */
    method Stop()
      requires Valid()
      modifies this
      ensures Valid()
      ensures status == Stopped && !gameLoop
      ensures liveTimers == old(liveTimers) - (if old(gameLoop) then 1 else 0)
      ensures players == map[] && shots == []
    {
      if gameLoop { liveTimers := liveTimers - 1; }
      gameLoop := false;
      status := Stopped;
      players := map[];
      shots := [];
    }

    /** Stores a fresh spawn under `id`, replacing any player with that id. */
    method AddPlayer(id: string, username: string, screen: Screen)
      requires Valid()
      modifies this
      ensures Valid()
      ensures players == old(players)[id := Spawn(id, username, screen)]
      ensures shots == old(shots) && status == old(status) && gameLoop == old(gameLoop)
      ensures liveTimers == old(liveTimers)
    {
      players := players[id := Spawn(id, username, screen)];
    }

    /** Replaces the movement intent of a known player (last write wins). */
    method MovePlayer(id: string, move: Movement)
      requires Valid()
      modifies this
      ensures Valid()
      ensures id !in old(players) ==> players == old(players)
      ensures id in old(players) ==> players == old(players)[id := old(players)[id].(move := move)]
      ensures shots == old(shots) && status == old(status) && gameLoop == old(gameLoop)
      ensures liveTimers == old(liveTimers)
    {
      if id !in players { return; }
      players := players[id := players[id].(move := move)];
    }

    /** Deletes the player; when none is left and a loop exists, stops the game. */
    method RemovePlayer(id: string)
      requires Valid()
      modifies this
      ensures Valid()
      ensures old(players) - {id} == map[] && old(gameLoop) ==>
                players == map[] && shots == [] && status == Stopped && !gameLoop
                && liveTimers == old(liveTimers) - 1
      ensures !(old(players) - {id} == map[] && old(gameLoop)) ==>
                players == old(players) - {id} && shots == old(shots) && status == old(status)
                && gameLoop == old(gameLoop) && liveTimers == old(liveTimers)
    {
      players := players - {id};
      if PlayersCount() == 0 && gameLoop {
        Stop();
      }
    }

    /** Stores the new aim of a known player; `raw` is the atan2 angle in
        degrees and (`dx`, `dy`) the unit direction, both computed outside. */
    method PlayerAim(id: string, raw: real, dx: real, dy: real)
      requires Valid()
      modifies this
      ensures Valid()
      ensures id !in old(players) ==> players == old(players)
      ensures id in old(players) ==>
                players == old(players)[id := old(players)[id].(weapon := Aimed(old(players)[id].weapon, raw, dx, dy))]
      ensures shots == old(shots) && status == old(status) && gameLoop == old(gameLoop)
      ensures liveTimers == old(liveTimers)
    {
      if id !in players { return; }
      var player := players[id];
      players := players[id := player.(weapon := Aimed(player.weapon, raw, dx, dy))];
    }

    /** A fire command at time `now`; `shotId` is the UUID the source draws.
        `mousePosition` is accepted and ignored, as in the source. */
    method AddShot(playerId: string, mousePosition: Vec, shotId: string, now: int)
      requires Valid()
      modifies this
      ensures Valid()
      ensures shots == Fire(old(players), old(shots), playerId, shotId, now)
      ensures !HasId(old(shots), shotId) && Spaced(old(shots)) ==> Spaced(shots)
      ensures players == old(players) && status == old(status) && gameLoop == old(gameLoop)
      ensures liveTimers == old(liveTimers)
    {
      if playerId !in players { return; }
      var player := players[playerId];
      var last := LastShotBy(shots, player.id);
      if last.Some? && now - last.value.createdAt < Cooldown { return; }
      var shot := NewShot(player, shotId, now);
      shots := Put(shots, shot);
      if !HasId(old(shots), shotId) && Spaced(old(shots)) {
        FireKeepsSpaced(old(players), old(shots), playerId, shotId, now);
      }
    }

    /** One tick: every player moves and re-centres its weapon, then every
        shot moves by its velocity. No shot is removed. */
    method Update()
      requires Valid()
      modifies this
      ensures Valid()
      ensures players.Keys == old(players).Keys
      ensures forall id :: id in players ==> players[id] == Tick(old(players)[id], world.size)
      ensures shots == DriftAll(old(shots))
      ensures Spaced(old(shots)) ==> Spaced(shots)
      ensures status == old(status) && gameLoop == old(gameLoop) && liveTimers == old(liveTimers)
    {
      MovePlayers();
      MoveShots();
    }

    /** The first half of a tick: each player in turn. */
    method MovePlayers()
      requires Valid()
      modifies this
      ensures Valid()
      ensures players.Keys == old(players).Keys
      ensures forall id :: id in players ==> players[id] == Tick(old(players)[id], world.size)
      ensures shots == old(shots) && status == old(status) && gameLoop == old(gameLoop)
      ensures liveTimers == old(liveTimers)
    {
      var pending := players.Keys;
      while pending != {}
        invariant pending <= players.Keys == old(players).Keys
        invariant forall id :: id in players ==>
                    players[id] == if id in pending then old(players)[id] else Tick(old(players)[id], world.size)
        invariant shots == old(shots) && status == old(status) && gameLoop == old(gameLoop)
        invariant liveTimers == old(liveTimers)
        decreases pending
      {
        var id :| id in pending;
        var moved := Tick(players[id], world.size);
        assert moved.id == old(players)[id].id;
        players := players[id := moved];
        pending := pending - {id};
      }
    }

    /** The second half of a tick: each shot in record order. */
    method MoveShots()
      requires Valid()
      modifies this
      ensures Valid()
      ensures shots == DriftAll(old(shots))
      ensures Spaced(old(shots)) ==> Spaced(shots)
      ensures players == old(players) && status == old(status) && gameLoop == old(gameLoop)
      ensures liveTimers == old(liveTimers)
    {
      var i := 0;
      while i < |shots|
        invariant 0 <= i <= |shots| == |old(shots)|
        invariant forall j :: 0 <= j < |shots| ==> shots[j] == if j < i then Drift(old(shots)[j]) else old(shots)[j]
        invariant players == old(players)
        invariant status == old(status) && gameLoop == old(gameLoop) && liveTimers == old(liveTimers)
      {
        shots := shots[i := Drift(shots[i])];
        i := i + 1;
      }
      DriftKeepsRecord(old(shots));
    }
  }

  /** Every tick leaves each player's weapon at the centre of its body,
      and a player that starts inside the map stays inside it. */
  lemma TickKeepsPlayerInside(p: Player, bounds: Size, kx: nat, ky: nat) returns (kx': nat, ky': nat)
    requires Motion.InsideAt(p.position, p.size, Vec(p.velocity, p.velocity), bounds, kx, ky)
    ensures Motion.InsideAt(Tick(p, bounds).position, p.size, Vec(p.velocity, p.velocity), bounds, kx', ky')
    ensures 0.0 <= Tick(p, bounds).position.x && 0.0 <= Tick(p, bounds).position.y
  {
    kx', ky' := Motion.StepKeepsInside(p.position, p.size, Vec(p.velocity, p.velocity), p.move, bounds, kx, ky);
  }
}
