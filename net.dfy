/** The client side of the multiplayer protocol in game.js: who is host, where to
    connect, the state snapshot the host broadcasts and how a guest applies it,
    the input message each side sends and how the other side applies it, and
    which keys each role may drive. */
module Net {
  import opened Js
  import opened Rules

  const RoleP1 := "p1"
  const RoleP2 := "p2"
  const RoleSolo := "solo"
  const DefaultRoom := "public"

  /** `isHost`: only player 1 of a multiplayer match simulates. */
  predicate IsHost(mode: Mode, netRole: string)
  {
    mode == Multi && netRole == RoleP1
  }

  /** `resolveRoomId`: the `room` query parameter, or "public" when it is absent or empty. */
  function ResolveRoomId(room: Option<string>): (id: string)
    ensures id != ""
    ensures Present(room) ==> id == room.value
    ensures !Present(room) ==> id == DefaultRoom
  {
    var options := [room, Some(DefaultRoom)];
    assert Present(options[1]);
    FirstNonEmpty(options).value
  }

  datatype WsResolution = WsResolution(url: Option<string>, stored: Option<string>)

  /** `resolveWsUrl`: the `ws` query parameter, else the global `WS_URL`, else the stored value,
      else null; a resolved URL is written back to storage when storage accepts it. */
  function ResolveWsUrl(fromQuery: Option<string>, fromGlobal: Option<string>, fromStorage: Option<string>,
                        storageWritable: bool): (r: WsResolution)
    ensures r.url.None? <==> !Present(fromQuery) && !Present(fromGlobal) && !Present(fromStorage)
    ensures Present(fromQuery) ==> r.url == fromQuery
    ensures !Present(fromQuery) && Present(fromGlobal) ==> r.url == fromGlobal
    ensures !Present(fromQuery) && !Present(fromGlobal) && Present(fromStorage) ==> r.url == fromStorage
    ensures r.stored == if r.url.Some? && storageWritable then r.url else fromStorage
  {
    var options := [fromQuery, fromGlobal, fromStorage];
    var url := FirstNonEmpty(options);
    assert Present(fromQuery) ==> Present(options[0]);
    assert Present(fromGlobal) ==> Present(options[1]);
    assert Present(fromStorage) ==> Present(options[2]);
    WsResolution(url, if url.Some? && storageWritable then url else fromStorage)
  }

  /** The fields `snapshotState` puts in a state message. */
  datatype Snapshot = Snapshot(
    playerX: real, playerY: real, player2X: real, player2Y: real,
    ballX: real, ballY: real, ballSpeedX: real, ballSpeedY: real,
    ballSpin: real, ballRotation: real, ballHeight: real, ballHeightVel: real,
    score: int, enemyScore: int, timeLeft: int, gameOver: bool,
    weatherType: string, windStrength: real)

  /** A received state message: the host's `{room, data}` envelope, or a bare snapshot
      (`payload.data || payload`). */
  datatype StatePayload = Envelope(room: string, data: Snapshot) | Bare(data: Snapshot)

  /** What `applyRemoteState` writes: every field of the incoming snapshot, except that an empty
      weather type and a zero wind keep the local values. */
  function Received(local: Snapshot, incoming: Snapshot): (r: Snapshot)
    ensures r.(weatherType := incoming.weatherType, windStrength := incoming.windStrength) == incoming
    ensures r.weatherType == if incoming.weatherType != "" then incoming.weatherType else local.weatherType
    ensures r.windStrength == if incoming.windStrength != 0.0 then incoming.windStrength else local.windStrength
  {
    incoming.(weatherType := if incoming.weatherType != "" then incoming.weatherType else local.weatherType,
              windStrength := if incoming.windStrength != 0.0 then incoming.windStrength else local.windStrength)
  }

  /** A snapshot whose weather fields are truthy is reproduced exactly. */
  lemma ReceivedIsExact(local: Snapshot, incoming: Snapshot)
    requires incoming.weatherType != "" && incoming.windStrength != 0.0
    ensures Received(local, incoming) == incoming
  {
  }

  /** Applying a client's own snapshot changes nothing. */
  lemma ReceivedOwnSnapshot(s: Snapshot)
    ensures Received(s, s) == s
  {
  }

  /** The key and charge state one side sends about its player. */
  datatype Controls = Controls(left: bool, right: bool, up: bool, down: bool, charging: bool, power: real)

  /** No key held, not charging, no power: a player's controls when the page loads. */
  const Released := Controls(false, false, false, false, false, 0.0)

  /** Some direction key is held. */
  predicate Moving(c: Controls)
  {
    c.left || c.right || c.up || c.down
  }

  /** `emitInput`'s message for a role. */
  function InputMessage(role: string, room: string, c: Controls): (m: Json)
    ensures Truthy(m)
    ensures Field(m, "role") == Str(role)
  {
    Obj(map[
      "role" := Str(role),
      "room" := Str(room),
      "keys" := Obj(map[
        "leftPressed" := Bool(c.left),
        "rightPressed" := Bool(c.right),
        "upPressed" := Bool(c.up),
        "downPressed" := Bool(c.down),
        "isChargingPower" := Bool(c.charging),
        "powerLevel" := Num(c.power)])])
  }

  /** The effect of an input message on the receiving client. */
  datatype InputUpdate = NoUpdate | SetP1(controls: Controls) | SetP2(controls: Controls)

  /** `payload.keys.powerLevel || 0` read as a number. */
  function PowerOrZero(j: Json): real
  {
    if j.Num? then j.n else 0.0
  }

  /** `applyRemoteInput`: ignored without a payload, without a role, or when the role is the
      receiver's own; a "p1" or "p2" message sets that player's flags (`!!` on each) and power
      (`|| 0`). A message without `keys` throws before any write. */
  function RemoteInputEffect(payload: Json, netRole: string): (u: InputUpdate)
    ensures !Truthy(payload) || !Truthy(Field(payload, "role")) ==> u == NoUpdate
    ensures Field(payload, "role") == Str(netRole) ==> u == NoUpdate
    ensures u.SetP1? ==> Field(payload, "role") == Str(RoleP1) && netRole != RoleP1
    ensures u.SetP2? ==> Field(payload, "role") == Str(RoleP2) && netRole != RoleP2
  {
    var role := Field(payload, "role");
    if !Truthy(payload) || !Truthy(role) || role == Str(netRole) then NoUpdate
    else if role != Str(RoleP1) && role != Str(RoleP2) then NoUpdate
    else
      var keys := Field(payload, "keys");
      if keys.Undefined? || keys.Null? then NoUpdate
      else
        var c := Controls(
          Truthy(Field(keys, "leftPressed")), Truthy(Field(keys, "rightPressed")),
          Truthy(Field(keys, "upPressed")), Truthy(Field(keys, "downPressed")),
          Truthy(Field(keys, "isChargingPower")), PowerOrZero(Or(Field(keys, "powerLevel"), Num(0.0))));
        if role == Str(RoleP1) then SetP1(c) else SetP2(c)
  }

  /** Reading the `keys` object of an input message back gives the controls it was built from. */
  lemma {:induction false} InputKeysRoundTrip(role: string, room: string, c: Controls)
    ensures var keys := Field(InputMessage(role, room, c), "keys");
            !(keys.Undefined? || keys.Null?) &&
            Controls(
              Truthy(Field(keys, "leftPressed")), Truthy(Field(keys, "rightPressed")),
              Truthy(Field(keys, "upPressed")), Truthy(Field(keys, "downPressed")),
              Truthy(Field(keys, "isChargingPower")), PowerOrZero(Or(Field(keys, "powerLevel"), Num(0.0)))) == c
  {
    var m := InputMessage(role, room, c);
    var keys := Field(m, "keys");
    assert keys == m.fields["keys"];
    assert Field(keys, "leftPressed") == Bool(c.left);
    assert Field(keys, "rightPressed") == Bool(c.right);
    assert Field(keys, "upPressed") == Bool(c.up);
    assert Field(keys, "downPressed") == Bool(c.down);
    assert Field(keys, "isChargingPower") == Bool(c.charging);
    assert Field(keys, "powerLevel") == Num(c.power);
    assert PowerOrZero(Or(Num(c.power), Num(0.0))) == c.power;
  }

  /** The input message one player sends is applied on the other player's client as exactly
      that player's controls, and ignored by the sender's own client. */
  lemma {:induction false} InputRoundTrip(role: string, room: string, c: Controls, receiver: string)
    requires role == RoleP1 || role == RoleP2
    ensures receiver != role ==>
              RemoteInputEffect(InputMessage(role, room, c), receiver) == (if role == RoleP1 then SetP1(c) else SetP2(c))
    ensures receiver == role ==> RemoteInputEffect(InputMessage(role, room, c), receiver) == NoUpdate
  {
    InputKeysRoundTrip(role, room, c);
  }

  /** The arrow keys, Shift and Space drive player 1 except on a multiplayer "p2" client. */
  predicate P1KeysActive(mode: Mode, netRole: string)
  {
    mode != Multi || netRole != RoleP2
  }

  /** WASD, Q and E drive player 2 only in multiplayer and never on the "p1" client. */
  predicate P2KeysActive(mode: Mode, netRole: string)
  {
    mode == Multi && netRole != RoleP1
  }

  /** Each multiplayer player's keyboard drives only its own player; single player has no player 2. */
  lemma KeyGating(mode: Mode, netRole: string)
    ensures mode == Single ==> P1KeysActive(mode, netRole) && !P2KeysActive(mode, netRole)
    ensures mode == Multi && netRole == RoleP1 ==> P1KeysActive(mode, netRole) && !P2KeysActive(mode, netRole)
    ensures mode == Multi && netRole == RoleP2 ==> !P1KeysActive(mode, netRole) && P2KeysActive(mode, netRole)
  {
  }

  /** The effect of a key-down on player 1's controls (already gated by `P1KeysActive`): an arrow
      sets its direction, Shift starts charging, Space (after its kick) clears the charge. */
  function PressP1(c: Controls, key: string): (r: Controls)
    ensures key == " " ==> r == c.(charging := false, power := 0.0)
    ensures key == "Shift" ==> r == c.(charging := true)
    ensures key != " " ==> r.power == c.power
    ensures key != " " && key != "Shift" ==> r.charging == c.charging
  {
    if key == "ArrowLeft" then c.(left := true)
    else if key == "ArrowRight" then c.(right := true)
    else if key == "ArrowUp" then c.(up := true)
    else if key == "ArrowDown" then c.(down := true)
    else if key == "Shift" then c.(charging := true)
    else if key == " " then c.(charging := false, power := 0.0)
    else c
  }

  /** The effect of a key-up on player 1's controls: an arrow clears its direction, Shift stops charging. */
  function ReleaseP1(c: Controls, key: string): (r: Controls)
    ensures r.power == c.power
    ensures key == "Shift" ==> r == c.(charging := false)
  {
    if key == "ArrowLeft" then c.(left := false)
    else if key == "ArrowRight" then c.(right := false)
    else if key == "ArrowUp" then c.(up := false)
    else if key == "ArrowDown" then c.(down := false)
    else if key == "Shift" then c.(charging := false)
    else c
  }

  /** The effect of a key-down on player 2's controls: WASD set a direction, Q starts charging,
      E (after its kick) clears the charge; both letter cases count. */
  function PressP2(c: Controls, key: string): (r: Controls)
    ensures key == "e" || key == "E" ==> r == c.(charging := false, power := 0.0)
    ensures key == "q" || key == "Q" ==> r == c.(charging := true)
    ensures key != "e" && key != "E" ==> r.power == c.power
  {
    if key == "a" || key == "A" then c.(left := true)
    else if key == "d" || key == "D" then c.(right := true)
    else if key == "w" || key == "W" then c.(up := true)
    else if key == "s" || key == "S" then c.(down := true)
    else if key == "q" || key == "Q" then c.(charging := true)
    else if key == "e" || key == "E" then c.(charging := false, power := 0.0)
    else c
  }

  /** The effect of a key-up on player 2's controls. */
  function ReleaseP2(c: Controls, key: string): (r: Controls)
    ensures r.power == c.power
    ensures key == "q" || key == "Q" ==> r == c.(charging := false)
  {
    if key == "a" || key == "A" then c.(left := false)
    else if key == "d" || key == "D" then c.(right := false)
    else if key == "w" || key == "W" then c.(up := false)
    else if key == "s" || key == "S" then c.(down := false)
    else if key == "q" || key == "Q" then c.(charging := false)
    else c
  }

  /** For player 1, releasing a key undoes pressing it: press-then-release equals release alone
      (Space, which has no key-up effect, leaves the cleared charge), and pressing or releasing
      twice is the same as once. */
  lemma {:induction false} PressThenReleaseP1(c: Controls, key: string)
    ensures key != " " ==> ReleaseP1(PressP1(c, key), key) == ReleaseP1(c, key)
    ensures PressP1(PressP1(c, key), key) == PressP1(c, key)
    ensures ReleaseP1(ReleaseP1(c, key), key) == ReleaseP1(c, key)
  {
    if key == "ArrowLeft" {
    } else if key == "ArrowRight" {
    } else if key == "ArrowUp" {
    } else if key == "ArrowDown" {
    } else if key == "Shift" {
    } else if key == " " {
    } else {
      assert PressP1(c, key) == c && ReleaseP1(c, key) == c;
    }
  }

  /** The same for player 2, with E in the role of Space. */
  lemma {:induction false} PressThenReleaseP2(c: Controls, key: string)
    ensures key != "e" && key != "E" ==> ReleaseP2(PressP2(c, key), key) == ReleaseP2(c, key)
    ensures PressP2(PressP2(c, key), key) == PressP2(c, key)
    ensures ReleaseP2(ReleaseP2(c, key), key) == ReleaseP2(c, key)
  {
    if key == "a" || key == "A" {
    } else if key == "d" || key == "D" {
    } else if key == "w" || key == "W" {
    } else if key == "s" || key == "S" {
    } else if key == "q" || key == "Q" {
    } else if key == "e" || key == "E" {
    } else {
      assert PressP2(c, key) == c && ReleaseP2(c, key) == c;
    }
  }

  /** The input messages a key event triggers: a "p1" message when player 1's keys are live in
      multiplayer, and a "p2" message on every multiplayer key event, whatever the role. */
  function EmittedRoles(mode: Mode, netRole: string): (roles: seq<string>)
    ensures mode == Single ==> roles == []
    ensures mode == Multi && netRole == RoleP1 ==> roles == [RoleP1, RoleP2]
    ensures mode == Multi && netRole == RoleP2 ==> roles == [RoleP2]
  {
    if mode == Multi then (if P1KeysActive(mode, netRole) then [RoleP1] else []) + [RoleP2] else []
  }

  /** `emitInput` throws on a socket object in multiplayer: the connection `wsConnection` holds is
      a plain WebSocket, whose `disconnected` is undefined, so the guard lets the call through to
      an `emit` the object does not have. Without an object the call returns at once. */
  predicate InputThrows(mode: Mode, socket: bool)
  {
    socket && mode == Multi
  }

  /** The `emitInput` calls a key event makes: those of `EmittedRoles`, cut short after the
      first when that one throws and ends the handler. */
  function InputCalls(mode: Mode, netRole: string, socket: bool): (roles: seq<string>)
    ensures !InputThrows(mode, socket) ==> roles == EmittedRoles(mode, netRole)
    ensures InputThrows(mode, socket) ==>
              roles == [if P1KeysActive(mode, netRole) then RoleP1 else RoleP2]
    ensures mode == Single ==> roles == []
  {
    var all := EmittedRoles(mode, netRole);
    if InputThrows(mode, socket) then all[..1] else all
  }

  /** The player-2 block of a key handler runs: player 2's keys are live and the handler has not
      already stopped at player 1's throwing `emitInput`. */
  predicate P2BlockRuns(mode: Mode, netRole: string, socket: bool)
  {
    P2KeysActive(mode, netRole) && !(InputThrows(mode, socket) && P1KeysActive(mode, netRole))
  }

  /** With a socket object only the "p2" client's player-2 keys act: on every other multiplayer
      client the handler ends at player 1's `emitInput`. */
  lemma {:induction false} SocketSilencesPlayer2(mode: Mode, netRole: string, socket: bool)
    ensures P2BlockRuns(mode, netRole, socket) <==>
              mode == Multi && netRole != RoleP1 && (!socket || netRole == RoleP2)
  {
    KeyGating(mode, netRole);
    if mode == Multi && netRole != RoleP1 && netRole != RoleP2 {
      assert P1KeysActive(mode, netRole) && P2KeysActive(mode, netRole);
    }
  }
}
