# My Football Game: the rule engine and the multiplayer relay

This project models the two stateful cores of a browser football game written in
JavaScript.

- The per-tick rule engine of `game.js`. The player's blue side attacks the top goal,
  the computer's red side (or player 2) attacks the bottom goal, with teammates,
  opponents, two goalkeepers and a referee. The model also covers the network logic
  the client runs: who is host, the room and server-URL fallbacks, snapshots,
  remote input and the gating of the keyboard by role.
- The room and role table of the socket relay in `server.js`.

Files:

- `js.dfy` (module `Js`) gives the JavaScript value semantics both sides depend on:
  JSON values, truthiness, `a || b`, property access, and the
  `x || y || z || null` chain.
- `relay.dfy` (module `Relay`) models `server.js`.
  - The pure role rule, the room-table updates and the health route.
  - The fan-out rule.
  - A `RelayServer` class whose `rooms` field the connect and disconnect
    handlers update.
- `rules.dfy` (module `Rules`) holds the game's constants and the difficulty
  table. It also holds the per-entity rules each tick applies, as functions with
  lemmas about them: stamina, power charge, trail, height bounce, friction, rest
  threshold, goal mouths, kicks, patrols, steering, keepers, referee and clock.
- `net.dfy` (module `Net`) holds the multiplayer payload logic of the client.
- `world.dfy` (module `Game`) holds the class `World`. Its fields are the client's
  globals. Its methods are the tick functions, the key handlers and the network
  handlers, each proved against the rule functions above. The teammates and
  opponents are arrays updated in place, as in the source.

The model follows the code as written, including where it behaves differently
from what a reader of the game might expect:

- Only the host (`netRole == "p1"` in multiplayer) runs the rules. A guest runs no
  local movement at all: `gameLoop` skips the whole tick when `hostSimulates` is
  false (game.js:3020-3022).
- A multiplayer "p1" client emits input messages for both roles on every key
  event. The player-2 block of the key handlers is guarded only by the mode
  (game.js:978, 1009, 1039, 1055).
- `kickBall` scales player 2's kicks by player 1's `powerLevel`. The local
  `kickPowerLevel` it computes is never used (game.js:1427, 1463, 1481).
- The plain-WebSocket `connectMultiplayerSocket` and `resolveWsUrl` declared
  later (game.js:415-460) replace the earlier socket.io versions through function
  hoisting. The `joined`, `input`, `state` and `start` handlers are therefore never
  installed. They are modelled anyway (`OnJoined`, `ApplyRemoteInput`,
  `ApplyRemoteState`, `StartGame` with `fromNetwork`), because they are the
  client's side of the relay protocol.
- `emitInput` throws on that WebSocket object: its `disconnected` is undefined, so
  the guard passes, and it has no `emit` (game.js:280-283). In multiplayer with a
  socket object, each key handler therefore ends at its first `emitInput`. Only the
  "p2" client's player-2 keys still act (`KeyDown`/`KeyUp` take a `socket` flag).

Conventions:

- Coordinates and speeds are `real`.
- `canvas.width` and `canvas.height` are constructor parameters, kept by
  `ValidCanvas` large enough for every clamp box to be non-empty.
- Each `Math.random()` draw is a parameter in [0, 1).
- `Math.sqrt` is avoided by comparing squared distances where the source compares a
  distance with a threshold (for a non-negative length this is the same test). Where
  the source divides by a distance, the length is a parameter `norm`; the contracts
  that depend on it assume `IsLength(norm)`: never negative, and zero only at the
  origin.

## Model

| member | source | states |
|---|---|---|
| Js.Or | server.js:54 | `a \|\| b` is `a` when `a` is truthy and `b` otherwise |
| Js.Field | game.js:314-319 | a property read gives the stored value when the object has it, and `undefined` for a missing property or a non-object |
| Js.FirstNonEmpty | game.js:219 | an `\|\|` chain of string-or-null values is null exactly when no value is a non-empty string; otherwise it is the first non-empty value, all earlier ones being empty or null |
| Relay.AssignRole | server.js:36-41 | "p1" iff no player holds "p1"; "p2" iff "p1" is held and "p2" is not; "spectator" iff both are held |
| Relay.RoomIdOf | server.js:44 | the handshake's room when it is a non-empty string, otherwise "public"; never empty |
| Relay.WithRoom | server.js:29-34 | the table gains the id; an absent id gets an empty players map; every existing room is kept as it was; a present id leaves the table unchanged, so repeating it is idempotent |
| Relay.Joined | server.js:43-47 | the connecting socket is added to its room with the role `assignRole` chose on that room; every other room is unchanged |
| Relay.Left | server.js:67-69 | the disconnecting socket's entry is removed from its room, which stays in the table; every other room is unchanged |
| Relay.ReplayKeepsRolesUnique | server.js:36-71 | after any sequence of connects and disconnects, every room has at most one "p1" socket and at most one "p2" socket |
| Relay.JoinKeepsRolesUnique | server.js:45-47 | a joining socket with the role `assignRole` chose keeps the roles unique |
| Relay.LeaveKeepsRolesUnique | server.js:68-69 | deleting a socket keeps the roles unique |
| Relay.VacatedP1IsReassigned | server.js:38 | once the "p1" socket has left, the next connection gets "p1" even while "p2" is held |
| Relay.ThirdConnectionSpectates | server.js:36-41 | while "p1" and "p2" are both held, every newcomer is a spectator |
| Relay.Forward | server.js:53-65 | `input` and `state` forward the payload unchanged; `start` forwards a truthy payload unchanged and a falsy one as `{}` |
| Relay.Health | server.js:11-20 | status 200 iff the URL is "/" or "/health", with the availability text; otherwise 404 "Not Found" |
| Relay.RelayServer.constructor | server.js:27 | the room table starts empty |
| Relay.RelayServer.Recipients | server.js:51-70 | a relayed event reaches exactly the other sockets of the sender's room, never the sender |
| Relay.RelayServer.GetRoom | server.js:29-34 | the table becomes `WithRoom` of the old table, and the room's players are returned; roles stay unique |
| Relay.RelayServer.Connect | server.js:43-51 | the room id is `RoomIdOf(query)` and the role is `AssignRole` of that room; the table becomes `Joined`; the peers told are the room's other sockets; roles stay unique |
| Relay.RelayServer.Disconnect | server.js:67-71 | the table becomes `Left`, so only that socket's entry goes; the peers told are the room's other sockets; roles stay unique |
| Rules.Clamp | game.js:1213-1216 | the result lies in [lo, hi]; it is the value when the value is in range and the nearer bound otherwise |
| Rules.SettingsOf | game.js:483-505 | every tier has positive opponent, keeper and kick speeds, player speed above 4 and a positive time limit |
| Rules.HarderTiersAreTougher | game.js:483-505 | a harder tier never gives more time or a faster player, nor slower opponents, keepers or clearances |
| Rules.MatchLength | game.js:544-569 | a provided time wins; otherwise 120 in multiplayer and the tier's limit in single player, always positive |
| Rules.InitialWeather | game.js:744-766 | clear iff the first draw is below 0.7 (no wind), rain iff it is in [0.7, 0.9) (wind under 0.15 either way), windy otherwise (wind magnitude in [0.3, 0.6)) |
| Rules.StaminaAfter | game.js:1185-1204 | stamina in [0, 100] stays in [0, 100]; moving drains exactly 0.15 when there is that much left and never adds any; resting adds exactly 0.3 below the cap and never removes any |
| Rules.Charged | game.js:3053-3056 | power never drops; in [0, maxPower] it stays there; it grows only while charging below maxPower |
| Rules.DistSq | game.js:1318-1322 | the squared distance that `getDistance` takes the root of is never negative |
| Rules.Visible | game.js:1338 | the filter never lengthens the trail |
| Rules.VisibleKeepsOnlyVisible | game.js:1338 | every kept point has alpha > 0 and comes from the trail |
| Rules.VisibleKeepsAllVisible | game.js:1338 | every point of the trail with alpha > 0 is kept |
| Rules.VisibleOfVisibleTrail | game.js:1338 | a trail whose points are all visible passes unchanged |
| Rules.TrailPushed | game.js:1327-1333 | a slow ball leaves the trail as it was; a fast one appends its position at alpha 1, dropping the oldest point once 8 are held; a trail within bounds stays within bounds |
| Rules.Faded | game.js:1335-1337 | same length, every point at its place with alpha lowered by 0.12 |
| Rules.TrailStepKeepsTrailOk | game.js:1327-1338 | a tick keeps the trail at most 8 points long, every point with alpha > 0 |
| Rules.TrailStepEndsAtBall | game.js:1327-1338 | after a tick of a fast ball, the newest trail point is the ball's previous position at alpha 0.88 |
| Rules.HeightStep | game.js:1349-1359 | a ball on the ground at rest stays there; in flight gravity takes 0.5 a tick; on landing the height is 0 and the vertical speed becomes −(v−0.5)·0.5, or 0 when that is below 1 in magnitude; height never goes below 0 |
| Rules.SnapToRest | game.js:1375-1380 | a speed component is kept when its magnitude is at least 0.1 and zeroed otherwise, so it ends zero or at least 0.1 |
| Rules.Friction | game.js:1362-1364 | friction keeps the sign and never increases the magnitude |
| Rules.Drift | game.js:1362-1376 | the new horizontal speed ends zero or at least 0.1 and grows in magnitude by at most the curve (0.02 of the spin) and the wind's push |
| Rules.PostLineNeitherBouncesNorScores | game.js:1395-1412 | a ball exactly on a post line falls in the wall gap (closed interval) but fails the goal test of `checkGoal` (open interval, lines 1501 and 1540) |
| Rules.GoalsAreExclusive | game.js:1501-1540 | the two goal tests never hold together, and the centre spot (250, 300) satisfies neither |
| Rules.KickVelocity | game.js:1463-1478 | a weak kick (both components under 3) leaves upward at 8, or at 18 as a power shot |
| Rules.KickFollowsOffset | game.js:1463-1478 | a kick that is not weak has the sign of the kicker-to-ball offset in each component |
| Rules.PowerShotScalesNormalKick | game.js:1463-1478 | when the normal kick is not weak, the power shot is not weak either and is the normal kick scaled by 5·(0.4 + power/150), at least 2 |
| Rules.PowerShotCanBeSlower | game.js:1463-1478 | with power 21 and offset (0, 9) a power shot leaves at 7.29 downfield while the normal kick leaves at 8 upfield |
| Rules.KickSpin | game.js:1480-1488 | spin within ±0.25 for a power shot and ±0.1 otherwise |
| Rules.KickLift | game.js:1481-1489 | lift at least 4 for a power shot and at least 2 for any kick |
| Rules.TeammatePass | game.js:1661-1662 | a pass always leaves upfield at a speed in (6, 9], sideways under 2 |
| Rules.EnemyClearance | game.js:1927-1928 | a clearance leaves downfield at the tier's kick power plus less than 3, sideways under 2 |
| Rules.MediumClearanceRange | game.js:1914-1927 | on the medium tier a clearance leaves downfield at a speed in [5, 8) |
| Rules.KeeperSave | game.js:1944-1945 | the top keeper sends the ball down at least at 2 and no slower than it came; sideways right iff the ball is right of the keeper's centre |
| Rules.MyKeeperSave | game.js:1958-1959 | the bottom keeper sends the ball up at least at 3 and no slower than it came; sideways right iff the ball is right of the keeper's centre |
| Rules.Patrol | game.js:1624-1645 | a patrolling teammate ends in [40, W−76]×[80, H−116], its anchors unchanged and its speed magnitudes kept; inside the box it simply steps by its speed |
| Rules.KickoffMate | game.js:1605-1609 | a reset teammate stands on its own anchor and keeps its speed |
| Rules.Steer | game.js:1721-1736 | steering keeps the position; within 200 of the ball, each speed component has the sign of the offset to the ball on that axis (and is 0 on the ball itself); 200 or more away the speed decays by 0.98 unless the 2% wander draw fires, which gives components within the tier speed |
| Rules.EnemyMove | game.js:1739-1760 | an opponent ends in [10, W−45]×[80, H−95] with its speed magnitudes kept, and a component is reversed only when the opponent ends on that axis's wall |
| Rules.TierSpeed | game.js:547-551 | each speed component takes the tier's magnitude, positive iff it was positive; the position is kept |
| Rules.KeeperTrack | game.js:1767-1773 | a keeper moves at most its speed, never past its target, and not at all within 5 of it |
| Rules.Anticipate | game.js:1776-1781 | the keeper moves toward where the ball will be in 10 ticks without passing it, leaving exactly 95% of the gap |
| Rules.RefereeTarget | game.js:1823-1830 | the referee's target lies in [30, W−60]×[100, H−130] |
| Rules.ClockStep | game.js:3113-3127 | a stopped or finished clock is unchanged; a running one loses exactly one second and is over iff the time is at most 0 |
| Rules.OverClockIsFrozen | game.js:3113 | a finished clock never changes again, however many seconds pass |
| Rules.ClockEndsAfterItsTime | game.js:3111-3129 | from t ≥ 1 seconds, after n seconds the clock shows t − n while n < t, and then 0 with the match over; it never goes below 0 |
| Net.ResolveRoomId | game.js:196-199 | the `room` query parameter when it is non-empty, otherwise "public"; never empty |
| Net.ResolveWsUrl | game.js:415-435 | the URL is null iff the query, global and stored values are all empty or null, otherwise the first non-empty one in that order; a found URL is written back to storage when storage is writable |
| Net.Received | game.js:371-391 | the local state takes every snapshot field, except that an empty weather type or zero wind keeps the local value |
| Net.ReceivedIsExact | game.js:348-391 | a snapshot with truthy weather fields is reproduced exactly |
| Net.ReceivedOwnSnapshot | game.js:348-391 | applying a client's own snapshot changes nothing |
| Net.InputMessage | game.js:280-309 | the input message is a truthy object whose `role` is the sender's role |
| Net.RemoteInputEffect | game.js:311-328 | no payload, no role, or one's own role changes nothing; an update of player 1 comes only from a "p1" message to another client, and likewise for player 2 |
| Net.InputKeysRoundTrip | game.js:283-319 | reading back the `keys` object of an input message, with the `!!` and `\|\| 0` coercions, gives the controls it was built from |
| Net.InputRoundTrip | game.js:280-328 | an input message for "p1" or "p2" sets exactly that player's controls on every other client and is ignored by the sender's own role |
| Net.KeyGating | game.js:938-979 | in single player only player 1's keys act; on a "p1" client only player 1's; on a "p2" client only player 2's |
| Net.PressP1 | game.js:938-976 | Space ends charging and zeroes the power; Shift starts charging; every other key keeps power and charging |
| Net.ReleaseP1 | game.js:1017-1036 | a key-up never changes the power; Shift stops charging |
| Net.PressP2 | game.js:978-1010 | E ends charging and zeroes the power; Q starts charging; every other key keeps the power |
| Net.ReleaseP2 | game.js:1039-1056 | a key-up never changes the power; Q stops charging |
| Net.PressThenReleaseP1 | game.js:938-1036 | for any key but Space, releasing after pressing equals releasing alone; pressing and releasing are each idempotent |
| Net.PressThenReleaseP2 | game.js:978-1056 | the same for player 2, with E in the role of Space |
| Net.EmittedRoles | game.js:974-1009 | no input messages in single player; a "p1" client sends "p1" then "p2"; a "p2" client sends "p2" |
| Net.InputCalls | game.js:280-283 | with no socket object the calls are `EmittedRoles`; in multiplayer with one, `emitInput` throws on its first call, so that call ("p1" where player 1's keys act, "p2" otherwise) is the only one; none in single player |
| Net.SocketSilencesPlayer2 | game.js:974-978 | the player-2 block runs iff the mode is multiplayer, the client is not "p1", and either there is no socket object or the client is "p2" |
| Game.World.constructor | game.js:181-921 | the page-load globals: medium tier, single player, role "solo", the resolved room, 60 s, scores 0, everyone on the kick-off spots, full stamina, released controls |
| Game.World.NearestIsUnique | game.js:1297-1311 | with ties going to the main player and then the lowest teammate index, the nearest player is unique |
| Game.World.ClosestToBall | game.js:1291-1311 | the scan returns the player strictly nearest to the ball, ties going to the main player and then the lowest index |
| Game.World.UpdateControlledPlayer | game.js:1284-1315 | multiplayer always controls the main player (−1); single player controls the nearest player |
| Game.World.Axis | game.js:1179-1182 | no key gives no motion; the positive key wins; the negative key alone moves at −speed |
| Game.World.Steered | game.js:1219-1227 | a controlled teammate ends inside [40, W−76]×[20, H−56] with its speed and anchors kept |
| Game.World.MovePlayer | game.js:1151-1229 | the controlled player is the nearest one; running iff a direction key is held; stamina follows `StaminaAfter` and stays in [0, 100]; the main player is moved and clamped into [40, W−80]×[20, H−60], or else only the controlled teammate moves |
| Game.World.MovePlayer2 | game.js:1232-1281 | nothing outside multiplayer; otherwise the same motion, stamina and clamp for player 2, and Q-charging as `Charged`; power stays in [0, maxPower] |
| Game.World.FadeTrail | game.js:1335-1337 | the fade loop computes `Faded` of the trail |
| Game.World.UpdateTrail | game.js:1327-1338 | the trail becomes `TrailStep` of the old trail, so it stays at most 8 visible points |
| Game.World.FlyBall | game.js:1341-1380 | the ball moves by its speed, spins and decays its spin, follows `HeightStep`; the vertical speed takes ground or air friction and the rest threshold; the horizontal speed takes the same friction, then 0.02 of the decayed spin, then 0.05 of the wind in windy or rainy weather, then the rest threshold; each speed component ends zero or at least 0.1; the vertical speed never grows and the horizontal one grows by at most the curve and the wind |
| Game.World.Wind | game.js:1370-1372 | a bound on the size of the wind's push on the horizontal speed, `Abs(windStrength) * 0.05`; zero unless the weather is windy or rainy |
| Rules.EndWalls | game.js:1395-1412 | past an end line and outside that end's goal mouth the ball is put back on the line with its vertical speed reversed; inside the mouth, or between the lines, y and the vertical speed are kept, and only then |
| Game.World.BounceWalls | game.js:1383-1412 | the ball ends between the side walls, a reflection reversing its horizontal speed; y and the vertical speed are `EndWalls` at the new x; speed magnitudes and the rest threshold are kept |
| Game.World.MoveBall | game.js:1325-1413 | trail as `TrailStep`, height as `HeightStep` and never below 0, x is the moved x clamped to [12, W−12], the horizontal speed is `FlyBall`'s, negated exactly when the moved x lies outside [12, W−12]; y and the vertical speed are `EndWalls` of the flight, so the ball passes an end line only through the goal mouth and is reflected everywhere else; each speed zero or at least 0.1 |
| Game.World.KickBall | game.js:1416-1496 | within 60 of the ball and before full time the ball takes `KickVelocity`, `KickSpin` and `KickLift` with player 1's power; otherwise nothing changes; in both cases the ball's kick state is `AfterKick` |
| Game.World.AfterKick | game.js:1416-1496 | the kick state `kickBall` leaves: the kick's velocity, spin, lift and advanced rotation when the match is on and the kicker in range, the current state otherwise |
| Game.World.ResetPositions | game.js:1586-1610 | ball at rest on the centre spot, both players on their spots, control back to −1, teammates on their anchors; scores and clock unchanged |
| Game.World.RefereeReactToGoal | game.js:1864-1867 | a whistle for 60 ticks |
| Game.World.RefereeShowCard | game.js:1870-1877 | a red or yellow card for 90 ticks |
| Game.World.CheckGoal | game.js:1499-1583 | each score grows by exactly 1 on its own goal test and at most one grows; a goal resets the positions, whistles and shows the message for 60 ticks; otherwise nothing changes |
| Game.World.MoveTeammates | game.js:1613-1647 | every teammate but the controlled one takes a `Patrol` step and ends in its box; the controlled one does not move |
| Game.World.NextEnemy | game.js:1707-1760 | an opponent's tick leaves it inside [10, W−45]×[80, H−95]; within 200 of the ball and off the walls it heads for the ball on each axis |
| Game.World.MoveEnemies | game.js:1705-1762 | every opponent becomes `NextEnemy` of itself and ends inside its box |
| Game.World.MoveGoalkeeper | game.js:1765-1790 | the top keeper tracks, anticipates a ball rising fast in the top half, and is clamped into [180, 270] |
| Game.World.MoveMyGoalkeeper | game.js:1793-1818 | the bottom keeper does the same toward a ball falling fast in the bottom half, clamped into [180, 270] |
| Game.World.MoveReferee | game.js:1821-1861 | far from its target the referee runs at 3% of the gap, near it slows by 0.9 and watches once nearly still; a state timer counts down and reverts to watching when it ends |
| Rules.PushedClear | game.js:1895-1899 | a pushed player no longer overlaps the opponent, ending 5 clear of it on the side its left edge was on |
| Game.World.CheckEnemyCollision | game.js:1880-1909 | only the main player's x changes, to the push-outs `XBefore` applies in order; a yellow card for 90 ticks is shown exactly when `CardDrawn` (speed over 4 and an overlapped opponent's draw under 0.15), and the referee is untouched otherwise |
| Game.World.CheckBallEnemyCollision | game.js:1912-1964 | x is kept; the ball is untouched, cleared downfield at the tier's power from 5 below one of the opponents, saved down from 5 below the top keeper or saved up from 5 above the bottom keeper; it stays untouched when no opponent and neither keeper touches it where it was; if some opponent touches it there it ends in one of the three moved states; if only keepers do, it ends saved by a keeper: with the velocity `KeeperSave` gives when the top keeper touches it, and with the velocity `MyKeeperSave` gives, from 5 above the bottom keeper, when only the bottom keeper touches it |
| Game.World.CheckTeammatePass | game.js:1650-1668 | x is kept; the ball is unchanged when no teammate touches it where it was, and when one does it is passed upfield at a speed in (6, 9] from 5 above one of the teammates |
| Game.World.CheckPlayer2BallCollision | game.js:1671-1702 | nothing unless multiplayer, touching, and off player 2's centre (for a true length); a touching ball stays on its side of the centre on both axes; a running player 2 sets x speed to 2 on right, −2 on left alone, and y speed to 2 on down, −2 on up alone, keeping the rest |
| Game.World.NudgeBall | game.js:1694-1699 | the pressed keys set the ball's speed components to ±2, right and down winning, unpressed axes kept |
| Game.World.CountDown | game.js:3111-3129 | the clock takes one `ClockStep`, running only in a started game on a client that simulates |
| Game.World.StartGame | game.js:526-592 | the tier, weather, speeds and match length are set from their tables; every opponent takes the tier's speed; the host announces the start only when it chose locally and is connected |
| Game.World.ApplyRemoteState | game.js:371-399 | no payload or the host changes nothing; a guest's snapshot fields become `Received` of the incoming snapshot |
| Game.World.ApplyRemoteInput | game.js:311-328 | the controls change exactly as `RemoteInputEffect` says, the other player's untouched |
| Game.World.OnJoined | game.js:261-265 | the role given, or "solo"; the room given, or the current one |
| Game.World.P1KeyDown | game.js:938-976 | player 1's controls become `PressP1`; Space kicks, as a power shot iff charging above 20, leaving the ball as `AfterKick` with the power before the key; other keys leave the ball alone |
| Game.World.P2KeyDown | game.js:978-1010 | player 2's controls become `PressP2`; E kicks, as a power shot iff charging above 20, leaving the ball as `AfterKick` with player 1's power; other keys leave the ball alone |
| Game.World.KeyDown | game.js:935-1011 | player 1's controls change only when `KeyGating` lets its keys act, player 2's only when its block is reached (`P2BlockRuns`); a live kick key leaves the ball as `AfterKick` for that player, any other key leaves it alone; the `emitInput` calls are `InputCalls` and the handler throws exactly when `InputThrows` |
| Game.World.KeyUp | game.js:1014-1057 | the same gating with `ReleaseP1`/`ReleaseP2`, the same `emitInput` calls and the same throw |
| Game.World.Simulate | game.js:3024-3057 | a live frame raises at most one score by one; it keeps height ≥ 0, stamina and power within bounds, both keepers in their goals and, in single player, every opponent in its box |
| Game.World.Tick | game.js:3012-3058 | after full time or on a guest nothing changes; otherwise the `Simulate` guarantees hold, and mode, role, tier and clock are untouched |

## Left out

- Drawing, the crowd, raindrops, particles, camera shake, canvas resizing, audio, and
  every DOM update (score, time, power bar, status text). These hold no rules; only
  the state they change is modelled.
- The touch controls (game.js:1074-1144) are not modelled. They change game state:
  the arrow buttons set player 1's arrow flags with no role gating, the kick button
  calls `kickBall(false)` as player 1, and the power button adds 3 every 50 ms while
  below `maxPower`, so power can reach 102. The power bounds that
  `Game.World.Simulate` and `Game.World.Tick` keep hold for keyboard input only.
- `Game.World.StartGame`: `announce` says that `startGame` calls `emit("start")`. On the
  WebSocket object that call throws, so a connected host never reaches `startStateSync`
  or the first `gameLoop` call (game.js:581-592). The throw is not modelled, because
  both of those are timers and scheduling, which are left out below.
- A received state payload is taken to be complete and well typed. `applyRemoteState`
  copies whatever fields arrive, so a missing field would become `undefined`.
- Transport: opening either socket, `emitInput` actually sending (the model returns
  the calls made), the 120 ms state broadcast of `startStateSync`, the
  socket.io and HTTP server setup, and `selectMode`. These are I/O and timers.
- Scheduling between the animation frame, the 1 s clock interval and the broadcast
  interval. Each handler is modelled as one atomic step.
- `Math.random`: every draw is a parameter in [0, 1). `Math.sqrt` and `Math.atan2`:
  thresholds compare squared distances, divisions by a distance take a `norm`
  parameter, and the facing angle is not modelled.
- IEEE floating point and NaN. In particular the division by a zero distance in
  `moveEnemies` (an opponent centred exactly on the ball) gives NaN speeds in the
  program; `Rules.Steer` stops the opponent instead.
- `Game.World.NextEnemy`: does not state the chase speed's exact magnitude (80% of
  the tier speed), only its direction; the magnitude needs `norm` to be the square
  root itself.
- `Game.World.CheckPlayer2BallCollision`: does not state that the ball ends exactly
  37 from player 2's centre, only that it stays on its side of the centre; for the
  same reason.
- `Game.World.CheckBallEnemyCollision` and `Game.World.CheckTeammatePass`: state when
  the ball is touched, the speed ranges, the ball's final y and that x is kept, not
  which opponent or teammate touched the ball last (after the first touch the later
  ones are tested at the moved ball).
- `Net.PowerOrZero`: a received `powerLevel` that is a non-number truthy value
  (a string, say) reads as 0. JavaScript would keep that value.
- The goal message's countdown timer and the player animation frames, which only
  feed drawing.
- Unknown difficulty strings arriving in a `start` message. The model's tier is one
  of the three named ones.
- `localStorage` exceptions are the boolean `storageWritable` of `Net.ResolveWsUrl`.
- `config.js` only sets the default `WS_URL`, which is the `fromGlobal` parameter of
  `Net.ResolveWsUrl`.
- The six key and power globals of each player are grouped into one `Controls`
  value per player (`p1`, `p2`). This is a naming change only.
