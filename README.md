# gamix simulation core in Dafny

This project models the authoritative simulation of the gamix multiplayer
top-down shooter, together with the small deterministic helpers around it.
It proves properties of that model.

The simulation exists in three generations.

- **First generation** (`Game` and `createPlayer` in `index.ts`, with the
  socket commands that drive it). Players are 20 x 20 bodies stepping 10
  units on a 960 x 960 map. Shots fly at 40 units a tick towards the
  mouse.
- **Second generation** (`Game` in `src/game/core/classes/Game.ts`).
  - Players are 8 x 16 bodies stepping 2 units, each with a weapon that
    follows the body's centre and an aim update.
  - Shots leave from the weapon.
  - Both the first and second generations enforce a 250 ms per-player fire
    cooldown.
- **Third generation**: an entity framework.
  - A server `Game` state machine with setup and update hooks.
  - Keyed entity stores, server and client.
  - The `GameObject`, `Player` and `Shot` entities.
  - The session `Player` records and their registry.

Around these sit:

- the world map built from a gradient-noise tile generator;
- the client's key-to-movement rule and tile colouring;
- the camera;
- the input dispatcher with its 50 ms key debounce.

Modules:

| module | models |
|---|---|
| `Common` | shared value types |
| `Motion` | the four guarded movement branches every generation repeats, and the proof that a body stays on the map |
| `Kinematics` | straight-line shot integration |
| `Aim` | weapon records and rotation normalisation |
| `ShotLog` | the insertion-ordered shot record and the cooldown |
| `SimGame`, `LegacyGame` | the two monolithic games; `LegacyGame` also has the gateway commands |
| `ServerEntity`, `ServerStore`, `ServerGame` | the third-generation server |
| `Sessions` | connection sessions |
| `CoreEntity`, `CorePlayer`, `CoreShot`, `DeprecatedShot`, `EntityPlayer` | entity classes |
| `ClientEntity`, `LegacyClientEntity`, `ClientPlayer`, `ClientStore`, `ClientPlayers`, `LegacyClientStore` | client records and stores |
| `TileMap` | map records |
| `Noise` | the tile generator |
| `Controls` | client helpers |
| `Viewport` | the camera |
| `Input`, `LegacyInput` | the input dispatchers |

Objects whose fields the source updates in place are classes with
`modifies` clauses. Pure helpers are functions.

Clocks, UUIDs and random gradients are parameters:

- `now` is a millisecond reading;
- `freshId` / `shotId` stand for the drawn UUID;
- `draw: nat -> Vec` is the n-th random unit vector.

One call of a game's `Update`/`Tick` method is one interval tick. The
interval handle is a boolean `gameLoop`. A counter `liveTimers` tracks
scheduled and not yet cleared intervals.

The server `Game` behaves as its code is written, and the model keeps that
behaviour: its per-entity pass walks the own keys of the store wrapper
(only `"gameObjects"`), not the stored entities. As a result, no entity's
`update` runs unless an entity's id is literally `"gameObjects"`
(`ServerGame.WrapperPassSkipsEntities`).

## Model

| member | source | states |
|---|---|---|
| Common.ChosenId | src/core/server/GameObject.ts:61 | a supplied id is kept; the drawn UUID is used only when the id is absent |
| Kinematics.Advance | src/game/core/classes/Shot.ts:35-38 | one update moves the position by exactly the velocity on each axis |
| Kinematics.FlightIsLinear | src/game/core/classes/Shot.ts:35-38 | n updates move a shot by exactly n times its velocity, with no bound and no removal |
| Kinematics.FlightsCompose | src/deprecated/Shot.ts:34-37 | m updates followed by n updates equal m + n updates |
| Motion.Step | src/classes/Player.ts:86-97 | no intent on an axis means no motion on it; a single direction moves one step exactly when its guard holds; down/right never push the far edge past the map; up then down (and right then left) cancel when both fire |
| Motion.StepKeepsInside | src/classes/Player.ts:86-97 | a body on the step grid and inside the map stays on the grid, at non-negative coordinates and inside the map after one tick, whatever its intent |
| Motion.RunKeepsInside | src/core/client/OldPlayer.ts:82-93 | any sequence of ticks, with intents changing between them, keeps such a body inside the map |
| Aim.InitialWeaponIsOffCentre | src/game/core/classes/Player.ts:68-80 | the initial weapon sits at (105, 108) with rotation and direction 0, which is not the spawned body's centre (104, 108) |
| Aim.NormalizeRotation | src/game/core/classes/Game.ts:134 | a negative angle r becomes 360 + r, others are kept; an atan2 angle in [-180, 180] becomes a bearing in [0, 360) |
| Aim.Aimed | src/classes/Player.ts:127-132 | aiming sets the rotation to the normalised angle (360 + raw for a negative raw, raw otherwise) and dx, dy to the given direction, and keeps the weapon's position and size |
| ShotLog.IndexOf | src/game/core/classes/Game.ts:177 | where an existing key sits in the record; absent exactly when no stored shot has that key |
| ShotLog.Put | src/game/core/classes/Game.ts:177 | a new key is appended at the end of the record; an existing key keeps its place and takes the new shot; keys stay unique |
| ShotLog.ShotsOf | src/game/core/classes/Game.ts:152 | every shot in the filter is a stored shot of the player, and the filter is no longer than the record |
| ShotLog.ShotsOfComplete | src/game/core/classes/Game.ts:152 | the filter misses none of the player's stored shots |
| ShotLog.ShotsOfAppend | index.ts:180 | the filter keeps record order: a shot appended to the record is appended to its owner's filter and to no other |
| ShotLog.LastShotBy | src/game/core/classes/Game.ts:154-155 | the last shot of the filter belongs to the player; there is none exactly when the player has no stored shot |
| ShotLog.NoneMeansNoShot | index.ts:180-182 | the filter is empty exactly when no stored shot belongs to the player |
| ShotLog.AppendKeepsSpaced | src/game/core/classes/Game.ts:152-160 | storing a shot that passed the cooldown keeps every player's stored shots at least 250 ms apart |
| ShotLog.AppendedIsLast | src/game/core/classes/Game.ts:152-159 | a stored shot becomes its owner's most recent one, so that player's next shot passes exactly when it comes 250 ms or more later |
| ShotLog.OtherShotKeepsLast | index.ts:180-187 | another player's shot does not change a player's most recent shot |
| ShotLog.Drift | src/game/core/classes/Game.ts:212-217 | a tick moves a shot by its velocity and changes no other field |
| ShotLog.DriftAll | src/game/core/classes/Game.ts:212-217 | a tick keeps every shot, in order, each moved by its velocity |
| ShotLog.DriftKeepsStamps | index.ts:241-246 | moving the shots keeps each player's filtered creation times |
| ShotLog.DriftKeepsRecord | src/game/core/classes/Game.ts:212-217 | a tick keeps the keys unique and the cooldown spacing intact |
| TileMap.Build | src/game/core/classes/Map.ts:22-37 | no map for an empty grid (reading row 0 fails); otherwise tilesX is the length of row 0, tilesY the row count, and the size is grid dimensions times tile size |
| TileMap.Scaled | src/core/client/GameMap.ts:15-28 | the tile size is scaled by the proportion first, and the size derives from the scaled tile size |
| TileMap.ScaledIsMagnifiedBuild | src/client/classes/Map.js:16-29 | the client map is the server map with every length multiplied by the proportion and the same grid |
| SimGame.Spawn | src/game/core/classes/Game.ts:62-96 | a new player is at (100, 100), steps 2, has an 8 x 16 body, no intent, and the initial weapon off the body's centre |
| SimGame.Tick | src/game/core/classes/Game.ts:192-210 | a tick applies the bounded movement rule, puts the weapon at the body's centre, and changes nothing else |
| SimGame.NewShot | src/game/core/classes/Game.ts:162-175 | an accepted shot is owned by the player, starts at the weapon's position and moves at 10 times the aim direction |
| SimGame.Fire | src/game/core/classes/Game.ts:148-178 | an unknown player or a shot inside the cooldown changes nothing; otherwise exactly the new shot is appended; keys stay unique |
| SimGame.FireKeepsSpaced | src/game/core/classes/Game.ts:148-178 | with fresh shot ids, any interleaving of fire commands keeps each player's shots at least 250 ms apart |
| SimGame.Game.PlayersCount | src/game/core/classes/Game.ts:109-111 | the number of stored players; zero exactly when no player is stored |
| SimGame.Game.constructor | src/game/core/classes/Game.ts:32-38 | a new game is stopped, with no loop, no players and no shots; fps falls back to 1000 / 60 when absent or 0 |
| SimGame.Game.Start | src/game/core/classes/Game.ts:40-48 | sets RUNNING and schedules one more interval; the world is untouched |
| SimGame.Game.Stop | src/game/core/classes/Game.ts:50-56 | clears the interval, sets STOPPED and empties players and shots |
| SimGame.Game.AddPlayer | src/game/core/classes/Game.ts:62-96 | stores a fresh spawn under the id, replacing any player there |
| SimGame.Game.MovePlayer | src/game/core/classes/Game.ts:98-101 | an unknown id changes nothing; otherwise only that player's intent is replaced |
| SimGame.Game.RemovePlayer | src/game/core/classes/Game.ts:103-107 | deletes the id; when none is left and a loop exists, the game stops and the world is emptied |
| SimGame.Game.PlayerAim | src/game/core/classes/Game.ts:113-145 | an unknown id changes nothing; otherwise only that player's weapon aim fields change |
| SimGame.Game.AddShot | src/game/core/classes/Game.ts:148-178 | the record becomes the fire-command result; the cooldown spacing is preserved; the mouse position is unused |
| SimGame.Game.Update | src/game/core/classes/Game.ts:191-218 | every player is ticked, every shot drifts, no shot is removed, spacing is preserved |
| SimGame.Game.MovePlayers | src/game/core/classes/Game.ts:192-210 | each stored player is replaced by its tick, keys unchanged |
| SimGame.Game.MoveShots | src/game/core/classes/Game.ts:212-217 | each shot, in record order, moves by its velocity |
| SimGame.TickKeepsPlayerInside | src/game/core/classes/Game.ts:193-204 | a player on the grid inside the map stays inside it after a tick |
| LegacyGame.CreatePlayer | index.ts:52-74 | a new player is at (100, 100), steps 10, has a 20 x 20 body, no intent, and starts on the grid inside the 960 x 960 map |
| LegacyGame.Tick | index.ts:226-239 | a tick applies the bounded movement rule with the scalar velocity and changes nothing else |
| LegacyGame.NewShot | index.ts:190-209 | the 5 x 5 shot square is centred on the player's body and moves at 40 times the direction towards the mouse |
| LegacyGame.Fire | index.ts:176-212 | an unknown player or a shot inside the cooldown changes nothing; otherwise exactly the new shot is appended |
| LegacyGame.FireKeepsSpaced | index.ts:176-212 | with fresh shot ids, each player's shots stay at least 250 ms apart |
| LegacyGame.Game.PlayersCount | index.ts:171-173 | the number of stored players; zero exactly when no player is stored |
| LegacyGame.Game.constructor | index.ts:124-130 | a new game is stopped with an empty world; fps falls back to 1000 / 60 |
| LegacyGame.Game.Start | index.ts:132-140 | sets RUNNING and schedules one more interval |
| LegacyGame.Game.Stop | index.ts:142-148 | clears the interval, sets STOPPED and empties the world |
| LegacyGame.Game.AddPlayer | index.ts:156-158 | an existing id is replaced by a fresh player |
| LegacyGame.Game.MovePlayer | index.ts:160-163 | an unknown id changes nothing; otherwise only that player's intent changes |
| LegacyGame.Game.RemovePlayer | index.ts:165-169 | deletes the id; stops and empties the world only when the count reaches 0 and a loop exists |
| LegacyGame.Game.AddShot | index.ts:176-212 | the record becomes the fire-command result; spacing is preserved |
| LegacyGame.Game.Update | index.ts:225-247 | every player is ticked and every shot drifts, with no removal and no bound test for shots |
| LegacyGame.Game.MovePlayers | index.ts:226-239 | each stored player is replaced by its tick |
| LegacyGame.Game.MoveShots | index.ts:241-246 | each shot moves by its velocity, in record order |
| LegacyGame.TickKeepsPlayerInside | index.ts:227-238 | a player on the grid inside the map stays inside it after a tick |
| LegacyGame.Launch | index.ts:285-291 | the server's game is stopped, empty, on the 960 x 960 map |
| LegacyGame.JoinGame | index.ts:296-302 | the loop starts only when nobody is playing; the player is added; exactly one interval is live afterwards |
| LegacyGame.PlayerMove | index.ts:304-306 | the command is `movePlayer`; the serving invariant is kept |
| LegacyGame.UserFire | index.ts:308-313 | the command is `addShot`; the serving invariant is kept |
| LegacyGame.Disconnect | index.ts:322-324 | removes the socket's key; the last one out stops the game, clears its shots and leaves no live interval |
| LegacyGame.OnInterval | index.ts:135-139 | one interval tick keeps the invariant that the game runs with one interval exactly while someone plays |
| ServerEntity.GameObject.constructor | src/core/server/GameObject.ts:53-73 | the id is the supplied or drawn one; geometry defaults to BOX; colliders and children start empty; movement starts unset |
| ServerEntity.GameObject.AddCollider | src/core/server/GameObject.ts:75-77 | stores the collider under its name, replacing a same-named one, and changes nothing else |
| ServerEntity.GameObject.SetPosition | src/core/server/GameObject.ts:79-81 | replaces the position only |
| ServerEntity.GameObject.SetSize | src/core/server/GameObject.ts:83-85 | replaces the size only |
| ServerEntity.GameObject.SetVelocity | src/core/server/GameObject.ts:87-89 | replaces the velocity only |
| ServerEntity.GameObject.SetMovement | src/core/server/GameObject.ts:91-93 | sets the movement only |
| ServerEntity.GameObject.Update | src/core/server/GameObject.ts:95 | the base update changes nothing |
| ServerStore.GameObjects.constructor | src/core/server/GameObjects.ts:4-6 | a new store is empty |
| ServerStore.GameObjects.Add | src/core/server/GameObjects.ts:8-12 | the new entity is stored under its own id, with the props' position, size, velocity and group, BOX unless a geometry is given, no colliders or children and movement unset; the size grows by one for a fresh id and is unchanged for a reused one |
| ServerStore.GameObjects.Find | src/core/server/GameObjects.ts:14-16 | found exactly when the key is stored, and the entity found has that id |
| ServerStore.GameObjects.FindAll | src/core/server/GameObjects.ts:18-20 | the record itself, every entry under its own id |
| ServerStore.GameObjects.Remove | src/core/server/GameObjects.ts:22-28 | an absent id is a no-op; otherwise only that key goes, so removing twice is removing once |
| ServerStore.GameObjects.Reset | src/core/server/GameObjects.ts:30-32 | the store is emptied |
| ServerStore.GameObjects.Count | src/core/server/GameObjects.ts:34-36 | the number of keys; zero exactly when empty |
| ServerGame.HookFor | src/core/server/Game.ts:40-41 | the supplied hook is used when present; the no-op default otherwise |
| ServerGame.FpsFor | src/core/server/Game.ts:38 | a configured nonzero fps is kept; absent or 0 falls back to 1000 / 30 |
| ServerGame.EntityPass | src/core/server/Game.ts:70-76 | every call of a pass updates a stored entity under one of the keys walked; there are no more calls than keys, and none when no key resolves |
| ServerGame.EntityPassComplete | src/core/server/Game.ts:70-76 | every walked key that resolves to an entity gets its update |
| ServerGame.EntityPassAppend | src/core/server/Game.ts:70-76 | the pass follows key order: one more key appends its update, if it resolves, after the updates of the keys before it |
| ServerGame.WrapperPassSkipsEntities | src/core/server/Game.ts:68-76 | the pass over the wrapper's keys updates an entity only if its id is "gameObjects" |
| ServerGame.Game.constructor | src/core/server/Game.ts:35-42 | a new game is STOPPED with an empty store, no loop, and the hooks and fps the config selects |
| ServerGame.Game.Start | src/core/server/Game.ts:44-54 | sets RUNNING, runs the setup hook exactly once, then schedules one interval |
| ServerGame.Game.Stop | src/core/server/Game.ts:56-61 | clears the loop, sets STOPPED and leaves the store with size 0 |
| ServerGame.Game.Tick | src/core/server/Game.ts:67-79 | one tick performs the entity pass and then the update hook exactly once |
| Sessions.Session.constructor | src/core/server/Player.ts:23-36 | copies id, socket, connectedAt and disconnected; a new session is IDLE with no username |
| Sessions.Session.SetStatus | src/core/server/Player.ts:38-40 | changes the status only |
| Sessions.Session.SetUsername | src/core/server/Player.ts:42-44 | changes the username only |
| Sessions.Session.GetClientData | src/core/server/Player.ts:46-50 | every data field except the socket |
| Sessions.SocketIsHidden | src/core/server/Player.ts:46-50 | two sessions differing only in their socket give the same client data |
| Sessions.Registry.constructor | src/core/server/Players.ts:5-7 | a new registry is empty |
| Sessions.Registry.Add | src/core/server/Players.ts:9-13 | a new IDLE session with no username, carrying the props' socket, connection time and disconnect flag, is stored under its id, overwriting any entry there |
| Sessions.Registry.Find | src/core/server/Players.ts:15-17 | found exactly when the id is stored |
| Sessions.Registry.FindAll | src/core/server/Players.ts:19-21 | the record itself, every session under its own id |
| Sessions.Registry.Remove | src/core/server/Players.ts:23-29 | an absent id is a no-op; otherwise only that id disappears |
| Sessions.Registry.Reset | src/core/server/Players.ts:31-33 | the registry is emptied and its size is 0 |
| Sessions.Registry.Count | src/core/server/Players.ts:35-37 | the number of sessions |
| Sessions.Registry.GetClientData | src/core/server/Players.ts:39-51 | exactly the registry's keys, each mapped to that session's data without its socket |
| EntityPlayer.Player.constructor | src/classes/Player.ts:41-83 | spawn (100, 100), velocity (2, 2), body 8 x 16, group "players", no intent, and the initial weapon off the body's centre |
| EntityPlayer.Player.Update | src/classes/Player.ts:85-103 | bounded movement against the map's size, then the weapon at the body's centre; nothing else changes |
| EntityPlayer.Player.UpdateAim | src/classes/Player.ts:105-133 | the weapon's aim becomes the normalised rotation and direction; position, velocity, size, geometry, group, colliders, children, movement and intent are untouched |
| EntityPlayer.SpawnStaysInside | src/classes/Player.ts:86-97 | from the spawn, any sequence of updates keeps the body inside the map with even, non-negative coordinates |
| CoreEntity.GameObject.constructor | src/game/core/classes/GameObject.ts:46-65 | the id is the supplied or drawn one; geometry defaults to BOX; colliders and children start empty |
| CoreEntity.GameObject.UpdatePosition | src/game/core/classes/GameObject.ts:67-69 | replaces only the position |
| CoreEntity.GameObject.AddCollider | src/game/core/classes/GameObject.ts:71-73 | keyed by name, overwriting a same-named collider |
| CorePlayer.Player.constructor | src/game/core/classes/Player.ts:39-81 | spawn, velocity, body, group and flags as given by the source, and the weapon at (105, 108) with rotation 0 and size 1 x 5 |
| CoreShot.Shot.constructor | src/game/core/classes/Shot.ts:17-33 | a fresh id, the given owner, position and velocity, a 0.3 x 0.3 circle in group "shots", created at `now` |
| CoreShot.Shot.Update | src/game/core/classes/Shot.ts:35-38 | the position advances by the velocity; the velocity and the rest are unchanged |
| DeprecatedShot.Shot.constructor | src/deprecated/Shot.ts:16-32 | the same fields as the current shot, with `createdAt` set once |
| DeprecatedShot.Shot.Update | src/deprecated/Shot.ts:34-37 | the position advances by the velocity; nothing else changes |
| ClientEntity.GameObject.constructor | src/core/client/GameObject.ts:34-57 | copies the props; geometry defaults to BOX; movement is set only when supplied |
| ClientEntity.GameObject.Update | src/core/client/GameObject.ts:59 | changes nothing |
| LegacyClientEntity.GameObject.constructor | src/core/client/classes/GameObject.js:20-39 | copies the props; geometry defaults to BOX; movement, colliders and children stay undefined |
| LegacyClientEntity.GameObject.Update | src/core/client/classes/GameObject.js:41 | changes nothing |
| ClientPlayer.Player.constructor | src/core/client/OldPlayer.ts:34-77 | spawn (100, 100), velocity (2, 2), body 8 x 16, geometry BOX, group "players", all flags false |
| ClientPlayer.Player.Update | src/core/client/OldPlayer.ts:79-99 | without a map nothing moves; otherwise bounded movement against the map's size |
| ClientStore.Removed | src/core/client/GameObjects.ts:25-31 | an absent id changes nothing; a store keyed by own ids loses exactly that key |
| ClientStore.RemoveIsIdempotent | src/core/client/GameObjects.ts:25-31 | removing twice is removing once |
| ClientStore.GameObjects.constructor | src/core/client/GameObjects.ts:4-6 | a new store is empty |
| ClientStore.GameObjects.Add | src/core/client/GameObjects.ts:8-11 | the new entity is stored under its id, overwriting an equal id; it carries the props' position, velocity, size, group and movement, BOX unless a geometry is given, and no colliders or children |
| ClientStore.GameObjects.Set | src/core/client/GameObjects.ts:13-15 | replaces the whole record, so `findAll` is exactly the argument |
| ClientStore.GameObjects.Find | src/core/client/GameObjects.ts:17-19 | found exactly when the key is stored |
| ClientStore.GameObjects.FindAll | src/core/client/GameObjects.ts:21-23 | the record itself |
| ClientStore.GameObjects.Remove | src/core/client/GameObjects.ts:25-31 | the record becomes `Removed` of the old one |
| ClientStore.GameObjects.Reset | src/core/client/GameObjects.ts:33-35 | the size becomes 0 |
| ClientStore.GameObjects.Count | src/core/client/GameObjects.ts:37-39 | the number of keys |
| ClientPlayers.Removed | src/core/client/Players.ts:27-33 | an absent id changes nothing; otherwise the key of the player found goes |
| ClientPlayers.Players.constructor | src/core/client/Players.ts:5-7 | a new store is empty |
| ClientPlayers.Players.Set | src/core/client/Players.ts:9-11 | replaces the whole registry |
| ClientPlayers.Players.Add | src/core/client/Players.ts:13-17 | stores under the id a fresh player at (100, 100) with velocity (2, 2), an 8 x 16 BOX body in group "players", all flags false, and the message's username and screen |
| ClientPlayers.Players.Find | src/core/client/Players.ts:19-21 | found exactly when the key is stored |
| ClientPlayers.Players.FindAll | src/core/client/Players.ts:23-25 | the record itself |
| ClientPlayers.Players.Remove | src/core/client/Players.ts:27-33 | the record becomes `Removed` of the old one |
| ClientPlayers.Players.Reset | src/core/client/Players.ts:35-37 | the size becomes 0 |
| ClientPlayers.Players.Count | src/core/client/Players.ts:39-41 | the number of keys |
| LegacyClientStore.GameObjects.constructor | src/core/client/classes/GameObjects.js:2-4 | a new store is empty |
| LegacyClientStore.GameObjects.Add | src/core/client/classes/GameObjects.js:6-10 | stores the new entity under its id with the props' position, velocity, size and group, BOX unless a geometry is given, and no movement, colliders or children |
| LegacyClientStore.GameObjects.Find | src/core/client/classes/GameObjects.js:12-14 | the stored entity or nothing |
| LegacyClientStore.GameObjects.Remove | src/core/client/classes/GameObjects.js:16-22 | an absent id is a no-op; otherwise only that key goes |
| LegacyClientStore.GameObjects.Reset | src/core/client/classes/GameObjects.js:24-26 | the store is emptied |
| Noise.Smootherstep | map-generator.ts:51-53 | the curve is 0 at 0 and 1 at 1 |
| Noise.SmootherstepInUnit | map-generator.ts:51-53 | on [0, 1] the curve stays within [0, 1] |
| Noise.Interp | map-generator.ts:55-57 | interp(0, a, b) = a and interp(1, a, b) = b |
| Noise.InterpBetween | map-generator.ts:55-57 | on [0, 1] the interpolation stays between a and b |
| Noise.Dot | map-generator.ts:39-49 | the dot product vanishes at its own lattice point |
| Noise.SampleVanishesOnLattice | map-generator.ts:59-74 | the noise is 0 at every lattice point, whatever the gradients |
| Noise.SampleStable | map-generator.ts:59-74 | a sample depends only on its four corners' gradients, so a growing cache never changes it |
| Noise.ExtendKeepsAgreement | map-generator.ts:42-47 | drawing a new gradient keeps every memoised sample correct |
| Noise.Band | map-generator.ts:21-25 | a negative floored value v becomes abs(v) / 2 (> 0); otherwise 127 + v / 2 (>= 127); halves are kept |
| Noise.BandBelowMid | map-generator.ts:21-25 | a band is below 127 exactly when -254 < v < 0 |
| Noise.Cell | map-generator.ts:19-27 | a zero sample gives 127; a non-negative sample at least 127; below 127 exactly for negative samples above the floor -254 |
| Noise.ReplaysDraws | map-generator.ts:42-47 | each lattice point gets its own draw once: the i-th new point holds the i-th vector, and no point is drawn twice |
| Noise.SamplePoint | map-generator.ts:19 | tile (x, y) is sampled at (x / 10, y / 10) |
| Noise.Generator.DotProdGrid | map-generator.ts:39-49 | a known point reuses its gradient; a new one takes the next draw; the result is the dot product with that gradient |
| Noise.Generator.CornerDots | map-generator.ts:65-68 | the four corner products, in the source's order, with the four gradients then present |
| Noise.Generator.Get | map-generator.ts:59-74 | a memoised point returns its stored value and changes nothing; otherwise the value is the noise sample, stored; stored samples stay correct |
| Noise.Generator.FillRow | map-generator.ts:18-28 | one row of tiles, each the cell value of its memoised sample |
| Noise.Generator.constructor | map-generator.ts:8-32 | exactly tilesY rows of tilesX tiles, each the cell value of the noise at (x / 10, y / 10); tiles at multiples of 10 hold 127 |
| Noise.FilledExtend | map-generator.ts:15-29 | appending a finished row keeps the grid filled |
| Noise.FilledSamples | map-generator.ts:15-29 | each filled tile is the cell value of the noise at its point |
| Noise.FilledLattice | map-generator.ts:19-25 | tiles whose indices are both multiples of 10 hold 127 |
| Controls.KeyToMovement | src/core/client/Utils.ts:68-107 | none for a type other than down/up or a key other than w/s/a/d; otherwise the key's flag becomes true on down and false on up, and the other flags are as they were |
| Controls.KeyToMovementIdempotent | src/core/client/Utils.ts:73-106 | applying the same key and type twice is applying it once |
| Controls.ReleaseAfterPress | src/core/client/Utils.ts:75-104 | a release after a press of the same key gives what the release alone gives |
| Controls.GetTileColor | src/core/client/Utils.ts:54-60 | green exactly below 120, sand exactly in [120, 140), blue exactly from 140 |
| Controls.TileColorMonotone | src/core/client/Utils.ts:54-60 | a higher tile never gets a lower band |
| Controls.NonNegativeSampleIsNotGrass | src/core/client/Utils.ts:54-60 | a tile from a non-negative noise sample is never grass; a zero sample is sand |
| Viewport.CentreOn | src/core/client/Camera.ts:39-40 | before clamping, the object's scaled centre is the middle of the viewport |
| Viewport.FollowStaysOnMap | src/core/client/Camera.ts:42-57 | on a map at least the viewport's size, x ends in [0, mapW - W + 1] and y in [0, mapH - H] |
| Viewport.FollowCentresInside | src/core/client/Camera.ts:39-57 | when no clamp fires, the object's scaled centre is the middle of the viewport |
| Viewport.FollowOnSmallMap | src/core/client/Camera.ts:46-57 | the far clamp runs last, so a map smaller than the viewport gives a negative position |
| Viewport.Camera.constructor | src/core/client/Camera.ts:23-36 | an absent position starts at the origin |
| Viewport.Camera.Follow | src/core/client/Camera.ts:38-58 | the new position depends only on the object and the camera's settings, and is the centred, clamped target |
| Viewport.Camera.GetEdges | src/core/client/Camera.ts:60-67 | the edges span half the viewport on each axis, centred on the viewport's centre |
| Viewport.LegacyCamera.constructor | src/client/classes/Camera.js:20-33 | an absent position starts at the origin |
| Viewport.LegacyCamera.Follow | src/client/classes/Camera.js:35-55 | the same centring and clamps, with the +1 tolerance on x only |
| Viewport.LegacyCamera.GetEdges | src/client/classes/Camera.js:57-64 | every edge is undefined |
| Input.DebounceWindow | src/core/client/InputController.ts:45-50 | a release at a nonzero time r swallows exactly the presses of that key before r + 50, and no other key's |
| Input.WithDisabled | src/core/client/InputController.ts:29-35 | every registered handler keeps its callback and takes the flag; no handler is added or lost |
| Input.LastSwitchWins | src/core/client/InputController.ts:29-35 | of two successive enable/disable calls only the last one matters |
| Input.InputController.constructor | src/core/client/InputController.ts:15-20 | no handlers, no pressed keys, no release times |
| Input.InputController.On | src/core/client/InputController.ts:22-27 | registers under the name, replacing a handler there; disabled defaults to false |
| Input.InputController.SetAll | src/core/client/InputController.ts:30 | sets every handler's flag; nothing else changes |
| Input.InputController.Enable | src/core/client/InputController.ts:29-31 | every handler enabled, nothing else changed |
| Input.InputController.Disable | src/core/client/InputController.ts:33-35 | every handler disabled, nothing else changed |
| Input.InputController.KeyDown | src/core/client/InputController.ts:37-55 | with an active handler and no pending debounce, marks the key and calls back once with it; otherwise no change and no call |
| Input.InputController.KeyUp | src/core/client/InputController.ts:57-68 | with an active handler, unmarks the key, records the release time and calls back once; a disabled release arms no debounce |
| Input.InputController.MouseDown | src/core/client/InputController.ts:70-77 | the event is forwarded exactly when the handler exists and is enabled |
| Input.InputController.MouseMove | src/core/client/InputController.ts:79-86 | the event is forwarded exactly when the handler exists and is enabled |
| LegacyInput.InputController.constructor | src/client/classes/InputController.js:10-15 | no handlers, no pressed keys, no release times |
| LegacyInput.InputController.On | src/client/classes/InputController.js:17-22 | registers or replaces a handler, disabled defaulting to false |
| LegacyInput.InputController.SetAll | src/client/classes/InputController.js:25 | sets every handler's flag |
| LegacyInput.InputController.Enable | src/client/classes/InputController.js:24-26 | every handler enabled |
| LegacyInput.InputController.Disable | src/client/classes/InputController.js:28-30 | every handler disabled |
| LegacyInput.InputController.KeyDown | src/client/classes/InputController.js:32-50 | the debounce and the pressed mark are keyed by keyCode, while the callback receives the key name |
| LegacyInput.InputController.KeyUp | src/client/classes/InputController.js:52-63 | the release time is recorded under keyCode; the callback receives the key name |
| LegacyInput.InputController.MouseDown | src/client/classes/InputController.js:65-72 | forwarded exactly when the handler exists and is enabled |
| LegacyInput.InputController.MouseMove | src/client/classes/InputController.js:74-81 | forwarded exactly when the handler exists and is enabled |

## Left out

- **Sockets, broadcasts and serialisation.**
  - Every `emit`, the `GAME_STATE` JSON broadcast and the express/socket.io bootstrap are outside the model.
  - A gateway command is modelled only as the game method it calls.
- **Timers.** `setInterval`/`clearInterval` become the boolean `gameLoop`, the counter `liveTimers` and one method call per tick. The real interval period is not modelled.
- **Floating point.** All arithmetic is exact over `real`.
  - NaN and infinities are not modelled. This includes the zero-distance division in the first-generation shot direction.
  - Rounding of JavaScript numbers is not modelled.
- **Trigonometry and square roots.** `Math.atan2`, `Math.sqrt`, `Math.round` and the mouse-to-world conversion in `playerAim`/`updateAim`/`addShot` are computed outside. The model takes their results as parameters `raw`, `dx`, `dy`.
- **Randomness.** `Math.random`, `cos` and `sin` in `rand_vect` become the `draw` oracle.
- **Foreign calls.** `crypto.randomUUID` becomes `freshId`/`shotId`. The clock becomes `now`.
- **Clock reads in `addShot`.** Both the first generation (index.ts:184 and index.ts:208) and the second generation read the clock twice, once for the cooldown and once for `createdAt`. `LegacyGame.Fire` and `SimGame.Fire` use one `now` for both reads.
- **`createdAt` format.** The ISO string is kept as the millisecond value it encodes.
- **Map construction inside the constructors.** The game constructors take a prebuilt map record (`TileMap.Map`, or a `Size` for the first generation). Composing `Noise` with `TileMap.Build` is left to the caller. src/core/server/Map.ts is not part of this model.
- **Server hooks.** The server `Game`'s hooks are user code: each invocation is logged, and its effects are not modelled.
- **Input callbacks.** The handlers of `Input` and `LegacyInput` are user code too: each invocation is logged, and its effects are not modelled. A callback that re-entrantly calls `on`, `enable` or `disable` is not covered.
- **Ids that are `Object.prototype` member names.** The source tests presence with `!this.players[id]` and `find` reads plain objects, so an inherited name such as `"constructor"` counts as present, and `"__proto__"` as a key replaces the record's prototype. The model's maps treat every id as an ordinary key. Ids are assumed not to be such names. For example, `USER_FIRE` with player id `"constructor"` throws in the source, while `LegacyGame.Fire` returns the shots unchanged.
- **Inheritance.** Subclasses (`Player extends GameObject`, `Shot extends GameObject`) are flattened into classes holding the inherited fields. Dynamic dispatch is not modelled.
- **Aliasing of returned records.** `findAll` and the stores return their internal record; callers mutating it are not modelled.
- **Window listeners.** The listeners the input controllers install, and the canvas resize in the camera constructors, are not modelled.
- **Viewport.LegacyCamera.GetEdges:** the `NaN` results are modelled as absent values (`None`).
- **`opts` of `on`.** An absent `opts` and an absent `opts.disabled` are both `None`.
- **Chat, rendering, DOM and the UI/state/screen controllers.** These have no stateable logic here.
- **Motion.RunKeepsInside, EntityPlayer.SpawnStaysInside and TickKeepsPlayerInside:** these assume the body starts a whole number of steps from the origin on each axis, as every spawn in the source does. A body placed off that grid can step to a negative coordinate, and that case is not covered.
