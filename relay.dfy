/** The multiplayer relay of server.js: a table of rooms, each holding the role
    of every connected socket, the role rule, the fan-out rule for relayed
    events and the two-route health handler. */
module Relay {
  import opened Js

  datatype Role = P1 | P2 | Spectator

  type SocketId = string

  /** A room's `players` map: socket id to role. */
  type Players = map<SocketId, Role>

  const PublicRoom := "public"
  const HealthText := "Football Game Multiplayer Server Running"

  /** At most one socket of a room holds "p1" and at most one holds "p2". */
  ghost predicate RolesUnique(players: Players)
  {
    forall a, b :: a in players && b in players && players[a] == players[b] && players[a] != Spectator ==> a == b
  }

  /** `assignRole`: the first free player slot, otherwise a spectator seat. */
  function AssignRole(players: Players): (r: Role)
    ensures r == P1 <==> P1 !in players.Values
    ensures r == P2 <==> P1 in players.Values && P2 !in players.Values
    ensures r == Spectator <==> P1 in players.Values && P2 in players.Values
  {
    if P1 !in players.Values then P1
    else if P2 !in players.Values then P2
    else Spectator
  }

  /** The room a connection joins: the handshake's `room` query value, or "public". */
  function RoomIdOf(query: Option<string>): (id: string)
    ensures id != ""
    ensures Present(query) ==> id == query.value
    ensures !Present(query) ==> id == PublicRoom
  {
    var options := [query, Some(PublicRoom)];
    assert Present(options[1]);
    FirstNonEmpty(options).value
  }

  /** `getRoom` on the room table: adds an empty room only when the id is absent. */
  function WithRoom(rooms: map<string, Players>, id: string): (r: map<string, Players>)
    ensures r.Keys == rooms.Keys + {id}
    ensures id !in rooms ==> r[id] == map[]
    ensures forall k :: k in rooms ==> r[k] == rooms[k]
    ensures id in rooms ==> r == rooms
  {
    if id in rooms then rooms else rooms[id := map[]]
  }

  ghost predicate AllRolesUnique(rooms: map<string, Players>)
  {
    forall id :: id in rooms ==> RolesUnique(rooms[id])
  }

  /** The room table after socket `sid` connects to room `roomId` with role `AssignRole`. */
  function Joined(rooms: map<string, Players>, roomId: string, sid: SocketId): (r: map<string, Players>)
    ensures r.Keys == rooms.Keys + {roomId}
    ensures sid in r[roomId] && r[roomId][sid] == AssignRole(WithRoom(rooms, roomId)[roomId])
    ensures forall id :: id in rooms && id != roomId ==> r[id] == rooms[id]
  {
    var players := WithRoom(rooms, roomId)[roomId];
    WithRoom(rooms, roomId)[roomId := players[sid := AssignRole(players)]]
  }

  /** The room table after socket `sid` of room `roomId` disconnects. */
  function Left(rooms: map<string, Players>, roomId: string, sid: SocketId): (r: map<string, Players>)
    ensures r.Keys == rooms.Keys + {roomId}
    ensures r[roomId] == WithRoom(rooms, roomId)[roomId] - {sid}
    ensures forall id :: id in rooms && id != roomId ==> r[id] == rooms[id]
  {
    WithRoom(rooms, roomId)[roomId := WithRoom(rooms, roomId)[roomId] - {sid}]
  }

  datatype Connection = Connected(sid: SocketId, query: Option<string>) | Disconnected(sid: SocketId, roomId: string)

  /** The room table after a sequence of connections and disconnections, in order. */
  function Replay(rooms: map<string, Players>, events: seq<Connection>): map<string, Players>
    decreases |events|
  {
    if events == [] then rooms
    else
      var next := match events[0]
        case Connected(sid, query) => Joined(rooms, RoomIdOf(query), sid)
        case Disconnected(sid, roomId) => Left(rooms, roomId, sid);
      Replay(next, events[1..])
  }

  /** Across any sequence of connects and disconnects, every room has at most one "p1" and one "p2". */
  lemma {:induction false} ReplayKeepsRolesUnique(rooms: map<string, Players>, events: seq<Connection>)
    requires AllRolesUnique(rooms)
    ensures AllRolesUnique(Replay(rooms, events))
    decreases |events|
  {
    if events != [] {
      match events[0]
      case Connected(sid, query) =>
        var roomId := RoomIdOf(query);
        JoinKeepsRolesUnique(WithRoom(rooms, roomId)[roomId], sid);
        ReplayKeepsRolesUnique(Joined(rooms, roomId, sid), events[1..]);
      case Disconnected(sid, roomId) =>
        LeaveKeepsRolesUnique(WithRoom(rooms, roomId)[roomId], sid);
        ReplayKeepsRolesUnique(Left(rooms, roomId, sid), events[1..]);
    }
  }

  /** A new socket taking the role `AssignRole` chose keeps the roles unique. */
  lemma {:induction false} JoinKeepsRolesUnique(players: Players, sid: SocketId)
    requires RolesUnique(players)
    ensures RolesUnique(players[sid := AssignRole(players)])
  {
    var role := AssignRole(players);
    var after := players[sid := role];
    forall a, b | a in after && b in after && after[a] == after[b] && after[a] != Spectator
      ensures a == b
    {
      if a != sid && b != sid {
        assert players[a] == players[b];
      }
    }
  }

  /** Removing a socket keeps the roles unique. */
  lemma LeaveKeepsRolesUnique(players: Players, sid: SocketId)
    requires RolesUnique(players)
    ensures RolesUnique(players - {sid})
  {
  }

  /** A "p1" seat freed by a disconnect goes to the next connection, even while "p2" is held. */
  lemma {:induction false} VacatedP1IsReassigned(players: Players, sid: SocketId)
    requires RolesUnique(players)
    requires sid in players && players[sid] == P1
    ensures AssignRole(players - {sid}) == P1
  {
  }

  /** A room cannot seat a third player: once p1 and p2 are held, every newcomer is a spectator. */
  lemma {:induction false} ThirdConnectionSpectates(players: Players, a: SocketId, b: SocketId)
    requires a in players && b in players && players[a] == P1 && players[b] == P2
    ensures AssignRole(players) == Spectator
  {
    assert players[a] in players.Values && players[b] in players.Values;
  }

  datatype Event = Start | Input | State

  /** The payload a relayed event carries to the peers: `start` forwards `payload || {}`,
      `input` and `state` forward the payload unchanged. */
  function Forward(event: Event, payload: Json): (r: Json)
    ensures event != Start ==> r == payload
    ensures event == Start ==> Truthy(r)
    ensures event == Start && Truthy(payload) ==> r == payload
    ensures event == Start && !Truthy(payload) ==> r == Obj(map[])
  {
    if event == Start then Or(payload, Obj(map[])) else payload
  }

  datatype Response = Response(status: int, body: string)

  /** The HTTP handler: "/" and "/health" answer 200 with the availability text, everything else 404. */
  function Health(url: string): (r: Response)
    ensures r.status == 200 <==> url == "/" || url == "/health"
    ensures r.status == 200 || r.status == 404
    ensures r.status == 200 ==> r.body == HealthText
    ensures r.status == 404 ==> r.body == "Not Found"
  {
    if url == "/" || url == "/health" then Response(200, HealthText) else Response(404, "Not Found")
  }

  /** The relay's in-memory room table. */
  class RelayServer {
    var rooms: map<string, Players>

    ghost predicate Valid()
      reads this
    {
      AllRolesUnique(rooms)
    }

    constructor ()
      ensures Valid() && rooms == map[]
    {
      rooms := map[];
    }

    /** The sockets an event from `sender` reaches: the other members of the sender's room. */
    function Recipients(roomId: string, sender: SocketId): (r: set<SocketId>)
      reads this
      ensures sender !in r
      ensures roomId in rooms ==> r == rooms[roomId].Keys - {sender}
      ensures roomId !in rooms ==> r == {}
    {
      if roomId in rooms then rooms[roomId].Keys - {sender} else {}
    }

    /** `getRoom`: creates the room with no players when it is absent and returns its players. */
    method GetRoom(roomId: string) returns (players: Players)
      requires Valid()
      modifies this
      ensures Valid()
      ensures rooms == WithRoom(old(rooms), roomId)
      ensures players == rooms[roomId]
    {
      rooms := WithRoom(rooms, roomId);
      players := rooms[roomId];
    }

    /** The connection handler: picks the room, assigns a role, records it, and names the
        peers told by `player-joined` (the `joined` reply goes to the socket itself). */
    method Connect(sid: SocketId, query: Option<string>) returns (roomId: string, role: Role, notified: set<SocketId>)
      requires Valid()
      modifies this
      ensures Valid()
      ensures roomId == RoomIdOf(query)
      ensures role == AssignRole(WithRoom(old(rooms), roomId)[roomId])
      ensures rooms == Joined(old(rooms), roomId, sid)
      ensures notified == Recipients(roomId, sid)
    {
      roomId := RoomIdOf(query);
      var players := GetRoom(roomId);
      role := AssignRole(players);
      JoinKeepsRolesUnique(players, sid);
      rooms := rooms[roomId := players[sid := role]];
      notified := Recipients(roomId, sid);
    }

    /** The disconnect handler: deletes exactly this socket's entry; the room itself stays. */
    method Disconnect(sid: SocketId, roomId: string) returns (notified: set<SocketId>)
      requires Valid()
      modifies this
      ensures Valid()
      ensures rooms == Left(old(rooms), roomId, sid)
      ensures notified == Recipients(roomId, sid)
    {
      var players := GetRoom(roomId);
      LeaveKeepsRolesUnique(players, sid);
      rooms := rooms[roomId := players - {sid}];
      notified := Recipients(roomId, sid);
    }
  }
}
