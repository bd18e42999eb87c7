/** The first generation authoritative simulation (`Game` in index.ts) and
    the socket commands that drive it. Players are 20 x 20 bodies moving 10
    units a tick inside a fixed 960 x 960 map; shots are spawned centred on
    the shooter and fly at 40 units a tick towards the mouse. One call of
    `Update` is one tick of the interval; the state broadcast after it, and
    every socket emit, are not modelled. */
module LegacyGame {
  import opened Common
  import Motion
  import opened ShotLog

  datatype Status = Stopped | Running

  /** The player record the game stores (velocity is one scalar for both axes). */
  datatype Player = Player(id: string, username: string, move: Movement, velocity: real, size: Size, position: Vec)

  const TilesX: nat := 30
  const TilesY: nat := 30
  const TileSize: nat := 32

  /** The map the server is launched with: `TILES_X * TILE_SIZE` by `TILES_Y * TILE_SIZE`. */
  const WorldSize := Size((TilesX * TileSize) as real, (TilesY * TileSize) as real)

  /** Side of the square a shot is drawn in; its spawn point is offset by half of it. */
  const ShotSide := 5.0
  const ShotRadius := 1.5
  const ShotSpeed := 40.0

  /** `createPlayer`: spawn (100, 100), step 10, body 20 x 20, no movement intent. */
  function CreatePlayer(id: string, username: string): (p: Player)
    ensures p.id == id && p.username == username
    ensures p.move == Still && p.velocity == 10.0
    ensures p.size == Size(20.0, 20.0) && p.position == Vec(100.0, 100.0)
    // a fresh player starts on the 10-unit grid, inside the map
    ensures Motion.InsideAt(p.position, p.size, Vec(p.velocity, p.velocity), WorldSize, 10, 10)
  {
    Player(id, username, Still, 10.0, Size(20.0, 20.0), Vec(100.0, 100.0))
  }

  /** A player after one tick: the four guarded branches with its velocity on both axes. */
  function Tick(p: Player, bounds: Size): (r: Player)
    ensures r.position == Motion.Step(p.position, p.size, Vec(p.velocity, p.velocity), p.move, bounds)
    ensures r.(position := p.position) == p
  {
    p.(position := Motion.Step(p.position, p.size, Vec(p.velocity, p.velocity), p.move, bounds))
  }

  /** The shot an accepted fire command creates. (`dx`, `dy`) is the unit
      vector from the player's corner towards the mouse, computed outside. */
  function NewShot(p: Player, shotId: string, dx: real, dy: real, now: int): (s: Shot)
    ensures s.id == shotId && s.playerId == p.id && s.createdAt == now && s.radius == ShotRadius
    // the 5 x 5 square of the shot is centred on the player's body
    ensures Centre(s.position, Size(ShotSide, ShotSide)) == Centre(p.position, p.size)
    ensures s.velocity == Vec(ShotSpeed * dx, ShotSpeed * dy)
  {
    Shot(shotId, p.id, ShotRadius,
         Vec(p.position.x + (p.size.width / 2.0 - ShotSide / 2.0), p.position.y + (p.size.height / 2.0 - ShotSide / 2.0)),
         Vec(dx * ShotSpeed, dy * ShotSpeed), now)
  }

  /** The shots record after a fire command at time `now`: unchanged for an
      unknown player or inside that player's cooldown, otherwise the new
      shot stored under `shotId`. */
  function Fire(players: map<string, Player>, shots: seq<Shot>, playerId: string, shotId: string,
                dx: real, dy: real, now: int): (r: seq<Shot>)
    ensures playerId !in players ==> r == shots
    ensures !CooldownAllows(shots, playerId, now) ==> r == shots
    ensures playerId in players && CooldownAllows(shots, playerId, now) && !HasId(shots, shotId) ==>
              r == shots + [NewShot(players[playerId], shotId, dx, dy, now)]
    ensures UniqueIds(shots) ==> UniqueIds(r)
  {
    if playerId in players && CooldownAllows(shots, playerId, now)
    then Put(shots, NewShot(players[playerId], shotId, dx, dy, now))
    else shots
  }

  /** Under fresh shot ids, every player's stored shots stay at least one
      cooldown apart however fire commands are interleaved. */
  lemma FireKeepsSpaced(players: map<string, Player>, shots: seq<Shot>, playerId: string, shotId: string,
                        dx: real, dy: real, now: int)
    requires Spaced(shots) && !HasId(shots, shotId)
    requires forall id :: id in players ==> players[id].id == id
    ensures Spaced(Fire(players, shots, playerId, shotId, dx, dy, now))
  {
    if playerId in players && CooldownAllows(shots, playerId, now) {
      AppendKeepsSpaced(shots, NewShot(players[playerId], shotId, dx, dy, now));
    }
  }

  class Game {
    const world: Size
    /** `config.fps || 1000 / 60`; stored but never read by the loop. */
    const fps: real
    var players: map<string, Player>
    var shots: seq<Shot>
    var status: Status
    /** Whether `gameLoop` holds an interval handle. */
    var gameLoop: bool
    /** Intervals scheduled and not yet cleared. */
    var liveTimers: nat

    ghost predicate Valid()
      reads this
    {
      && (forall id :: id in players ==> players[id].id == id)
      && UniqueIds(shots)
      && (gameLoop <==> status == Running)
      && (gameLoop ==> liveTimers >= 1)
    }

    /** `Object.keys(this.players).length`. */
    function PlayersCount(): (n: nat)
      reads this
      ensures n == |players|
      ensures n == 0 <==> players == map[]
    {
      |players.Keys|
    }

    constructor (world: Size, fps: Option<real>)
      ensures Valid() && this.world == world
      ensures this.fps == if fps.None? || fps.value == 0.0 then 1000.0 / 60.0 else fps.value
      ensures players == map[] && shots == [] && status == Stopped && !gameLoop && liveTimers == 0
    {
      this.world := world;
      this.fps := if fps.None? || fps.value == 0.0 then 1000.0 / 60.0 else fps.value;
      players := map[];
      shots := [];
      status := Stopped;
      gameLoop := false;
      liveTimers := 0;
    }

    /** Sets RUNNING and schedules a new interval of period 1000 / 30. */
    method Start()
      requires Valid()
      modifies this
      ensures Valid()
      ensures status == Running && gameLoop && liveTimers == old(liveTimers) + 1
      ensures players == old(players) && shots == old(shots)
    {
      status := Running;
      gameLoop := true;
      liveTimers := liveTimers + 1;
    }

    /** Clears the interval, sets STOPPED and empties the world. */
    method Stop()
      requires Valid()
      modifies this
      ensures Valid()
      ensures status == Stopped && !gameLoop
      ensures liveTimers == old(liveTimers) - (if old(gameLoop) then 1 else 0)
      ensures players == map[] && shots == []
    {
      if gameLoop { liveTimers := liveTimers - 1; }
      gameLoop := false;
      status := Stopped;
      players := map[];
      shots := [];
    }

    /** Stores a fresh player under `id`, replacing any player with that id. */
    method AddPlayer(id: string, username: string)
      requires Valid()
      modifies this
      ensures Valid()
      ensures players == old(players)[id := CreatePlayer(id, username)]
      ensures shots == old(shots) && status == old(status) && gameLoop == old(gameLoop)
      ensures liveTimers == old(liveTimers)
    {
      players := players[id := CreatePlayer(id, username)];
    }

    /** Replaces the movement intent of a known player (last write wins). */
    method MovePlayer(id: string, move: Movement)
      requires Valid()
      modifies this
      ensures Valid()
      ensures id !in old(players) ==> players == old(players)
      ensures id in old(players) ==> players == old(players)[id := old(players)[id].(move := move)]
      ensures shots == old(shots) && status == old(status) && gameLoop == old(gameLoop)
      ensures liveTimers == old(liveTimers)
    {
      if id !in players { return; }
      players := players[id := players[id].(move := move)];
    }

    /** Deletes the player; when none is left and a loop exists, stops the game. */
    method RemovePlayer(id: string)
      requires Valid()
      modifies this
      ensures Valid()
      ensures old(players) - {id} == map[] && old(gameLoop) ==>
                players == map[] && shots == [] && status == Stopped && !gameLoop
                && liveTimers == old(liveTimers) - 1
      ensures !(old(players) - {id} == map[] && old(gameLoop)) ==>
                players == old(players) - {id} && shots == old(shots) && status == old(status)
                && gameLoop == old(gameLoop) && liveTimers == old(liveTimers)
    {
      players := players - {id};
      if PlayersCount() == 0 && gameLoop {
        Stop();
      }
    }

    /** A fire command at time `now`; `shotId` is the UUID the source draws
        and (`dx`, `dy`) the unit vector from the player towards
        `mousePosition`, which the source computes with a square root. */
    method AddShot(playerId: string, mousePosition: Vec, shotId: string, dx: real, dy: real, now: int)
      requires Valid()
      modifies this
      ensures Valid()
      ensures shots == Fire(old(players), old(shots), playerId, shotId, dx, dy, now)
      ensures !HasId(old(shots), shotId) && Spaced(old(shots)) ==> Spaced(shots)
      ensures players == old(players) && status == old(status) && gameLoop == old(gameLoop)
      ensures liveTimers == old(liveTimers)
    {
      if playerId !in players { return; }
      var player := players[playerId];
      var last := LastShotBy(shots, player.id);
      if last.Some? && now - last.value.createdAt < Cooldown { return; }
      var shot := NewShot(player, shotId, dx, dy, now);
      shots := Put(shots, shot);
      if !HasId(old(shots), shotId) && Spaced(old(shots)) {
        FireKeepsSpaced(old(players), old(shots), playerId, shotId, dx, dy, now);
      }
    }

    /** One tick: every player moves, then every shot moves by its
        velocity. No shot is removed and no bound is checked for shots. */
    method Update()
      requires Valid()
      modifies this
      ensures Valid()
      ensures players.Keys == old(players).Keys
      ensures forall id :: id in players ==> players[id] == Tick(old(players)[id], world)
      ensures shots == DriftAll(old(shots))
      ensures Spaced(old(shots)) ==> Spaced(shots)
      ensures status == old(status) && gameLoop == old(gameLoop) && liveTimers == old(liveTimers)
    {
      MovePlayers();
      MoveShots();
    }

    /** The first half of a tick: each player in turn. */
    method MovePlayers()
      requires Valid()
      modifies this
      ensures Valid()
      ensures players.Keys == old(players).Keys
      ensures forall id :: id in players ==> players[id] == Tick(old(players)[id], world)
      ensures shots == old(shots) && status == old(status) && gameLoop == old(gameLoop)
      ensures liveTimers == old(liveTimers)
    {
      var pending := players.Keys;
      while pending != {}
        invariant pending <= players.Keys == old(players).Keys
        invariant forall id :: id in players ==>
                    players[id] == if id in pending then old(players)[id] else Tick(old(players)[id], world)
        invariant shots == old(shots) && status == old(status) && gameLoop == old(gameLoop)
        invariant liveTimers == old(liveTimers)
        decreases pending
      {
        var id :| id in pending;
        players := players[id := Tick(players[id], world)];
        pending := pending - {id};
      }
    }

    /** The second half of a tick: each shot in record order. */
    method MoveShots()
      requires Valid()
      modifies this
      ensures Valid()
      ensures shots == DriftAll(old(shots))
      ensures Spaced(old(shots)) ==> Spaced(shots)
      ensures players == old(players) && status == old(status) && gameLoop == old(gameLoop)
      ensures liveTimers == old(liveTimers)
    {
      var i := 0;
      while i < |shots|
        invariant 0 <= i <= |shots| == |old(shots)|
        invariant forall j :: 0 <= j < |shots| ==> shots[j] == if j < i then Drift(old(shots)[j]) else old(shots)[j]
        invariant players == old(players)
        invariant status == old(status) && gameLoop == old(gameLoop) && liveTimers == old(liveTimers)
      {
        shots := shots[i := Drift(shots[i])];
        i := i + 1;
      }
      DriftKeepsRecord(old(shots));
    }
  }

  /** A player that starts inside the map stays inside it after a tick. */
  lemma TickKeepsPlayerInside(p: Player, bounds: Size, kx: nat, ky: nat) returns (kx': nat, ky': nat)
    requires Motion.InsideAt(p.position, p.size, Vec(p.velocity, p.velocity), bounds, kx, ky)
    ensures Motion.InsideAt(Tick(p, bounds).position, p.size, Vec(p.velocity, p.velocity), bounds, kx', ky')
    ensures 0.0 <= Tick(p, bounds).position.x && 0.0 <= Tick(p, bounds).position.y
  {
    kx', ky' := Motion.StepKeepsInside(p.position, p.size, Vec(p.velocity, p.velocity), p.move, bounds, kx, ky);
  }

  /** The invariant the socket handlers keep: the game runs exactly while
      someone is playing, with exactly one live interval, and an empty game
      holds no shots. */
  ghost predicate Serving(g: Game)
    reads g
  {
    && g.Valid()
    && (g.gameLoop <==> g.players != map[])
    && (g.players == map[] ==> g.shots == [])
    && g.liveTimers == (if g.gameLoop then 1 else 0)
  }

  /** The server's single game, on the fixed 960 x 960 map, without `fps`. */
  method Launch() returns (g: Game)
    ensures fresh(g) && Serving(g)
    ensures g.world == WorldSize && g.fps == 1000.0 / 60.0
    ensures g.players == map[] && g.shots == [] && g.status == Stopped
  {
    g := new Game(WorldSize, None);
  }

  /** `JOIN_GAME`: starts the loop only when nobody is playing yet, then
      adds the player. */
  method JoinGame(g: Game, id: string, username: string)
    requires Serving(g)
    modifies g
    ensures Serving(g)
    ensures g.players == old(g.players)[id := CreatePlayer(id, username)]
    ensures g.shots == old(g.shots) && g.status == Running
    ensures g.liveTimers == 1
  {
    if g.PlayersCount() == 0 {
      g.Start();
    }
    g.AddPlayer(id, username);
  }

  /** `PLAYER_MOVE`. */
  method PlayerMove(g: Game, id: string, move: Movement)
    requires Serving(g)
    modifies g
    ensures Serving(g)
    ensures id !in old(g.players) ==> g.players == old(g.players)
    ensures id in old(g.players) ==> g.players == old(g.players)[id := old(g.players)[id].(move := move)]
    ensures g.shots == old(g.shots) && g.status == old(g.status)
  {
    g.MovePlayer(id, move);
  }

  /** `USER_FIRE`, with the time, the new UUID and the aim direction supplied. */
  method UserFire(g: Game, playerId: string, mousePosition: Vec, shotId: string, dx: real, dy: real, now: int)
    requires Serving(g)
    modifies g
    ensures Serving(g)
    ensures g.shots == Fire(old(g.players), old(g.shots), playerId, shotId, dx, dy, now)
    ensures g.players == old(g.players) && g.status == old(g.status)
  {
    g.AddShot(playerId, mousePosition, shotId, dx, dy, now);
  }

  /** `disconnect`: removes the player keyed by the socket id; the last one
      out stops the game and clears its interval. */
  method Disconnect(g: Game, socketId: string)
    requires Serving(g)
    modifies g
    ensures Serving(g)
    ensures g.players == old(g.players) - {socketId}
    ensures g.players == map[] ==> g.status == Stopped && g.shots == [] && g.liveTimers == 0
    ensures g.players != map[] ==> g.shots == old(g.shots) && g.status == Running
  {
    g.RemovePlayer(socketId);
  }

  /** One interval tick while serving. */
  method OnInterval(g: Game)
    requires Serving(g)
    modifies g
    ensures Serving(g)
    ensures g.players.Keys == old(g.players).Keys && g.shots == DriftAll(old(g.shots))
  {
    g.Update();
  }
}
