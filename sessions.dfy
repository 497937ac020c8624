/**
 * The server's room registry as values: the two maps that `GameManager`
 * keeps (rooms by PIN, connection records by socket id) and one function per
 * operation giving the new maps and the reply. The class in
 * game_manager.dfy is proved to compute exactly these functions; the lemmas
 * here state what the operations promise and which invariants they keep.
 */
module Sessions {
  import opened Wrappers
  import opened Grid

  type SocketId = string
  type Pin = string

  /** `maxPlayers` of every room. */
  const MaxPlayers: nat := 2
  const PinLength: nat := 5
  const PinChars: string := "ABCDEFGHIJKLMNOPQRSTUVWXYZ0123456789"
  /** Rooms older than this many milliseconds are reclaimed. */
  const RoomLifetime: int := 10 * 60 * 1000
  const Up: string := "up"

  datatype Status = Waiting | Ready
  datatype Role = Host | Guest

  /** An entry of `gameState.playerPositions`. */
  datatype PlayerPos = PlayerPos(x: int, y: int, direction: string, role: Role)

  datatype Room = Room(
    pin: Pin,
    players: seq<SocketId>,
    status: Status,
    createdAt: int,
    positions: map<SocketId, PlayerPos>)

  /** An entry of `playerConnections`. */
  datatype Connection = Connection(pin: Pin, isHost: bool)

  datatype Registry = Registry(rooms: map<Pin, Room>, connections: map<SocketId, Connection>)

  const Empty: Registry := Registry(map[], map[])

  /** Spawn cells: the host at (4,12), the guest at (8,12), both facing up. */
  const HostStart: PlayerPos := PlayerPos(4, 12, Up, Host)
  const GuestStart: PlayerPos := PlayerPos(8, 12, Up, Guest)

  // Replies of the operations.
  datatype Created = Created(pin: Pin, role: Role, status: Status)
  datatype JoinError = RoomNotFound | RoomFull | AlreadyInRoom
  datatype JoinResult =
    | Joined(pin: Pin, role: Role, status: Status, playerCount: nat)
    | JoinFailed(error: JoinError)
  datatype Removed = Removed(pin: Pin, remainingPlayers: nat)
  datatype RoomInfo = RoomInfo(pin: Pin, playerCount: nat, maxPlayers: nat, status: Status)
  datatype Moved = Moved(playerId: SocketId, x: int, y: int, direction: string, pin: Pin)

  /** The `error` text sent back with a failed join. */
  function ErrorMessage(e: JoinError): string
  {
    match e
    case RoomNotFound => "Room not found"
    case RoomFull => "Room is full"
    case AlreadyInRoom => "Already in room"
  }

  // ---------------------------------------------------------------- PINs

  predicate IsPinChar(c: char)
  {
    'A' <= c <= 'Z' || '0' <= c <= '9'
  }

  predicate IsPin(p: string)
  {
    |p| == PinLength && forall i :: 0 <= i < |p| ==> IsPinChar(p[i])
  }

  /** A draw of `Math.random()`: a real in [0, 1). */
  ghost predicate IsRandom(random: nat -> real)
  {
    forall k :: 0.0 <= random(k) < 1.0
  }

  /** `Math.floor(r * chars.length)`: the character a draw selects. */
  function CharIndex(r: real): (k: nat)
    requires 0.0 <= r < 1.0
    ensures k < |PinChars|
  {
    (r * |PinChars| as real).Floor
  }

  lemma PinCharsArePinChars(k: nat)
    requires k < |PinChars|
    ensures IsPinChar(PinChars[k])
  {
  }

  /** The PIN built by the `attempt`-th try of `generatePIN`, where
      `random(k)` is the `k`-th value `Math.random()` returns during the
      call (five draws per try). */
  function CandidatePin(random: nat -> real, attempt: nat): (p: Pin)
    requires IsRandom(random)
    ensures IsPin(p)
  {
    var p := seq(PinLength, i requires 0 <= i < PinLength =>
                   PinChars[CharIndex(random(attempt * PinLength + i))]);
    assert forall i :: 0 <= i < |p| ==> IsPinChar(p[i]) by {
      forall i | 0 <= i < |p| ensures IsPinChar(p[i]) {
        PinCharsArePinChars(CharIndex(random(attempt * PinLength + i)));
      }
    }
    p
  }

  /** `toUpperCase` on the ASCII letters. */
  function UpperChar(c: char): char
  {
    if 'a' <= c <= 'z' then (c as int - 32) as char else c
  }

  function ToUpper(s: string): (u: string)
    ensures |u| == |s|
    ensures forall i :: 0 <= i < |s| ==> ('a' <= s[i] <= 'z' ==> u[i] as int == s[i] as int - 32)
    ensures forall i :: 0 <= i < |s| ==> (!('a' <= s[i] <= 'z') ==> u[i] == s[i])
  {
    seq(|s|, i requires 0 <= i < |s| => UpperChar(s[i]))
  }

  /** A PIN is already upper-case, so looking it up with `toUpperCase`
      finds it; any spelling of a PIN with some of its letters in lower
      case upper-cases to that PIN; and upper-casing twice changes nothing
      more. */
  lemma UpperPin(p: string, q: string)
    ensures IsPin(p) ==> ToUpper(p) == p
    ensures IsPin(p) && |q| == |p| &&
            (forall i :: 0 <= i < |p| ==>
               q[i] == p[i] || ('A' <= p[i] <= 'Z' && q[i] as int == p[i] as int + 32))
            ==> ToUpper(q) == p
    ensures ToUpper(ToUpper(q)) == ToUpper(q)
  {
  }

  // ----------------------------------------------------------- invariants

  predicate NoDuplicates(s: seq<SocketId>)
  {
    forall i, j :: 0 <= i < j < |s| ==> s[i] != s[j]
  }

  predicate InBounds(p: PlayerPos)
  {
    0 <= p.x <= MaxCell && 0 <= p.y <= MaxCell
  }

  /** A room has one or two distinct members, is `ready` exactly when it
      is full, has a position for every member, and every position is on
      the board. */
  predicate RoomValid(room: Room)
  {
    && 1 <= |room.players| <= MaxPlayers
    && NoDuplicates(room.players)
    && (room.status == Ready <==> |room.players| == MaxPlayers)
    && (forall s :: s in room.players ==> s in room.positions)
    && (forall s :: s in room.positions ==> InBounds(room.positions[s]))
  }

  function RoleOf(isHost: bool): Role
  {
    if isHost then Host else Guest
  }

  /** A connection record names an existing room that lists the socket,
      with a position whose role matches `isHost`. */
  predicate ConnectionValid(r: Registry, s: SocketId)
    requires s in r.connections
  {
    var c := r.connections[s];
    && c.pin in r.rooms
    && s in r.rooms[c.pin].players
    && s in r.rooms[c.pin].positions
    && r.rooms[c.pin].positions[s].role == RoleOf(c.isHost)
  }

  /** The invariant every operation keeps, whatever its arguments. */
  predicate Valid(r: Registry)
  {
    && (forall p :: p in r.rooms ==> r.rooms[p].pin == p && IsPin(p) && RoomValid(r.rooms[p]))
    && (forall s :: s in r.connections ==> ConnectionValid(r, s))
  }

  /** Every member of every room has a connection record naming that room.
      `createRoom` and `joinRoom` overwrite the caller's record without
      leaving its previous room, so this is kept only for a socket that has
      no record yet. */
  predicate Connected(r: Registry)
  {
    forall p, s :: p in r.rooms && s in r.rooms[p].players ==>
      s in r.connections && r.connections[s].pin == p
  }

  // ----------------------------------------------------------- operations

  function CreateRoom(r: Registry, id: SocketId, pin: Pin, now: int): Registry
  {
    var room := Room(pin, [id], Waiting, now, map[id := HostStart]);
    Registry(r.rooms[pin := room], r.connections[id := Connection(pin, true)])
  }

  function JoinRoom(r: Registry, id: SocketId, pin: string): (Registry, JoinResult)
  {
    var key := ToUpper(pin);
    if key !in r.rooms then (r, JoinFailed(RoomNotFound))
    else
      var room := r.rooms[key];
      if |room.players| >= MaxPlayers then (r, JoinFailed(RoomFull))
      else if id in room.players then (r, JoinFailed(AlreadyInRoom))
      else
        var players := room.players + [id];
        var status := if |players| == MaxPlayers then Ready else Waiting;
        var room' := room.(players := players, status := status,
                           positions := room.positions[id := GuestStart]);
        (Registry(r.rooms[key := room'], r.connections[id := Connection(key, false)]),
         Joined(key, Guest, status, |players|))
  }

  /** `room.players.filter(id => id !== x)`. */
  function Without(s: seq<SocketId>, x: SocketId): (t: seq<SocketId>)
    ensures forall y :: y in t <==> y in s && y != x
    ensures x !in s ==> t == s
    ensures NoDuplicates(s) ==> NoDuplicates(t)
    ensures NoDuplicates(s) && x in s ==> |t| == |s| - 1
  {
    if s == [] then []
    else if s[0] == x then Without(s[1..], x)
    else
      var rest := Without(s[1..], x);
      assert NoDuplicates(s) ==> s[0] !in s[1..] && NoDuplicates(s[1..]);
      [s[0]] + rest
  }

  function RemovePlayer(r: Registry, id: SocketId): (Registry, Option<Removed>)
  {
    if id !in r.connections then (r, None)
    else
      var c := r.connections[id];
      if c.pin !in r.rooms then (r, None)
      else
        var room := r.rooms[c.pin];
        var players := Without(room.players, id);
        var rooms := if |players| == 0 then r.rooms - {c.pin}
                     else r.rooms[c.pin := room.(players := players, status := Waiting)];
        (Registry(rooms, r.connections - {id}), Some(Removed(c.pin, |players|)))
  }

  function GetRoomInfo(r: Registry, pin: Pin): Option<RoomInfo>
  {
    if pin !in r.rooms then None
    else
      var room := r.rooms[pin];
      Some(RoomInfo(room.pin, |room.players|, MaxPlayers, room.status))
  }

  /** The server's bounds check; the room argument is unused because
      collisions with other tanks and with terrain are not implemented. */
  function IsValidPosition(x: int, y: int, room: Room): bool
  {
    !(x < 0 || x > MaxCell || y < 0 || y > MaxCell)
  }

  function MovePlayer(r: Registry, id: SocketId, direction: string, dx: int, dy: int)
    : (Registry, Option<Moved>)
  {
    if id !in r.connections then (r, None)
    else
      var c := r.connections[id];
      if c.pin !in r.rooms || r.rooms[c.pin].status != Ready then (r, None)
      else
        var room := r.rooms[c.pin];
        if id !in room.positions then (r, None)
        else
          var pos := room.positions[id];
          var nx := Clamp(pos.x + dx);
          var ny := Clamp(pos.y + dy);
          if IsValidPosition(nx, ny, room) then
            var room' := room.(positions := room.positions[id := pos.(x := nx, y := ny, direction := direction)]);
            (Registry(r.rooms[c.pin := room'], r.connections), Some(Moved(id, nx, ny, direction, c.pin)))
          else (r, None)
  }

  /** The PINs `cleanupOldRooms` deletes at time `now`. */
  function Expired(r: Registry, now: int): set<Pin>
  {
    set p | p in r.rooms && r.rooms[p].createdAt < now - RoomLifetime
  }

  /** The rooms whose PIN is not in `gone`. */
  function RoomsOutside(rooms: map<Pin, Room>, gone: set<Pin>): map<Pin, Room>
  {
    map p | p in rooms && p !in gone :: rooms[p]
  }

  /** The connection records whose PIN is not in `gone`. */
  function ConnectionsOutside(connections: map<SocketId, Connection>, gone: set<Pin>)
    : map<SocketId, Connection>
  {
    map s | s in connections && connections[s].pin !in gone :: connections[s]
  }

  /** Deleting one more PIN from the filtered maps is filtering by one more
      PIN. */
  lemma OutsideOneMore(rooms: map<Pin, Room>, connections: map<SocketId, Connection>,
                       gone: set<Pin>, pin: Pin)
    ensures RoomsOutside(rooms, gone) - {pin} == RoomsOutside(rooms, gone + {pin})
    ensures ConnectionsOutside(ConnectionsOutside(connections, gone), {pin}) ==
            ConnectionsOutside(connections, gone + {pin})
  {
    assert (RoomsOutside(rooms, gone) - {pin}).Keys == RoomsOutside(rooms, gone + {pin}).Keys;
    assert ConnectionsOutside(ConnectionsOutside(connections, gone), {pin}).Keys ==
           ConnectionsOutside(connections, gone + {pin}).Keys;
  }

  function CleanupOldRooms(r: Registry, now: int): Registry
  {
    var gone := Expired(r, now);
    Registry(RoomsOutside(r.rooms, gone), ConnectionsOutside(r.connections, gone))
  }

  // ------------------------------------------------------ createRoom facts

  /** `createRoom` with a fresh PIN adds exactly one room, in `waiting`,
      stamped with the current time, whose only member is the caller at the
      host spawn; it records the caller as host, and leaves every other
      room and every other record alone. */
  lemma CreateRoomAddsOneRoom(r: Registry, id: SocketId, pin: Pin, now: int)
    requires pin !in r.rooms
    ensures var r' := CreateRoom(r, id, pin, now);
      && r'.rooms.Keys == r.rooms.Keys + {pin}
      && |r'.rooms| == |r.rooms| + 1
      && r'.rooms[pin] == Room(pin, [id], Waiting, now, map[id := PlayerPos(4, 12, "up", Host)])
      && r'.connections == r.connections[id := Connection(pin, true)]
      && (forall p :: p in r.rooms ==> r'.rooms[p] == r.rooms[p])
  {
    var r' := CreateRoom(r, id, pin, now);
    assert r'.rooms.Keys == r.rooms.Keys + {pin};
    assert |r.rooms.Keys + {pin}| == |r.rooms.Keys| + 1;
  }

  /** A new room survives every sweep up to ten minutes after its
      creation and is removed by the first sweep after that. */
  lemma CreatedRoomLifetime(r: Registry, id: SocketId, pin: Pin, now: int, later: int)
    ensures pin in CleanupOldRooms(CreateRoom(r, id, pin, now), later).rooms <==>
            later <= now + 600000
  {
  }

  lemma CreateRoomKeeps(r: Registry, id: SocketId, pin: Pin, now: int)
    requires Valid(r) && IsPin(pin) && pin !in r.rooms
    ensures Valid(CreateRoom(r, id, pin, now))
    ensures Connected(r) && id !in r.connections ==> Connected(CreateRoom(r, id, pin, now))
  {
    var r' := CreateRoom(r, id, pin, now);
    forall s | s in r'.connections ensures ConnectionValid(r', s) {
      if s != id {
        assert ConnectionValid(r, s);
      }
    }
  }

  // -------------------------------------------------------- joinRoom facts

  /** The reply of `joinRoom`: the three failures, checked in this order,
      and otherwise a guest seat in the upper-cased room, `ready` exactly
      when the room now holds two players. */
  lemma JoinRoomOutcome(r: Registry, id: SocketId, pin: string)
    ensures var (_, res) := JoinRoom(r, id, pin);
      var key := ToUpper(pin);
      && (res == JoinFailed(RoomNotFound) <==> key !in r.rooms)
      && (res == JoinFailed(RoomFull) <==>
            key in r.rooms && |r.rooms[key].players| >= MaxPlayers)
      && (res == JoinFailed(AlreadyInRoom) <==>
            key in r.rooms && |r.rooms[key].players| < MaxPlayers && id in r.rooms[key].players)
      && (res.JoinFailed? ==>
            ErrorMessage(res.error) ==
              (if key !in r.rooms then "Room not found"
               else if |r.rooms[key].players| >= MaxPlayers then "Room is full"
               else "Already in room"))
      && (res.Joined? ==>
            && res.pin == key && res.role == Guest
            && res.playerCount == |r.rooms[key].players| + 1
            && (res.status == Ready <==> res.playerCount == 2))
  {
  }

  /** A failed join changes nothing, and a successful one always changes
      the registry. */
  lemma JoinRoomFailsIffUnchanged(r: Registry, id: SocketId, pin: string)
    ensures JoinRoom(r, id, pin).1.JoinFailed? <==> JoinRoom(r, id, pin).0 == r
  {
    var (r', res) := JoinRoom(r, id, pin);
    if res.Joined? {
      var key := ToUpper(pin);
      assert |r'.rooms[key].players| == |r.rooms[key].players| + 1;
    }
  }

  /** A successful join appends the caller to the room's members, seats it
      at the guest spawn and records it as a guest of that room; the room's
      creation time, the other members' positions and every other record
      stay as they were. */
  lemma JoinRoomSeatsGuest(r: Registry, id: SocketId, pin: string)
    requires JoinRoom(r, id, pin).1.Joined?
    ensures var (r', _) := JoinRoom(r, id, pin);
      var key := ToUpper(pin);
      && key in r.rooms && key in r'.rooms
      && r'.rooms[key].players == r.rooms[key].players + [id]
      && r'.rooms[key].positions == r.rooms[key].positions[id := PlayerPos(8, 12, "up", Guest)]
      && r'.rooms[key].createdAt == r.rooms[key].createdAt
      && r'.rooms[key].pin == r.rooms[key].pin
      && r'.connections == r.connections[id := Connection(key, false)]
      && r'.rooms.Keys == r.rooms.Keys
      && (forall p :: p in r.rooms && p != key ==> r'.rooms[p] == r.rooms[p])
  {
  }

  lemma JoinRoomKeeps(r: Registry, id: SocketId, pin: string)
    requires Valid(r)
    ensures Valid(JoinRoom(r, id, pin).0)
    ensures Connected(r) && id !in r.connections ==> Connected(JoinRoom(r, id, pin).0)
  {
    var (r', res) := JoinRoom(r, id, pin);
    if res.Joined? {
      var key := ToUpper(pin);
      var room := r.rooms[key];
      var room' := r'.rooms[key];
      assert room'.players == room.players + [id];
      assert NoDuplicates(room'.players) by {
        forall i, j | 0 <= i < j < |room'.players| ensures room'.players[i] != room'.players[j] {
          if j == |room.players| {
            assert room'.players[i] == room.players[i];
          }
        }
      }
      assert RoomValid(room');
      forall s | s in r'.connections ensures ConnectionValid(r', s) {
        if s != id {
          assert ConnectionValid(r, s);
        }
      }
    }
  }

  // ---------------------------------------------------- removePlayer facts

  /** Removing a socket without a record, or whose room is gone, is a
      no-op with no reply. */
  lemma RemovePlayerUnknown(r: Registry, id: SocketId)
    requires id !in r.connections || r.connections[id].pin !in r.rooms
    ensures RemovePlayer(r, id) == (r, None)
  {
  }

  /** Removing a connected socket drops it from its room and its record,
      deletes the room when it was the last member and otherwise puts the
      room back to `waiting`, and reports how many members remain. A room
      that survives keeps its creation time and its whole position map,
      the departed socket's entry included. Other rooms and records are
      untouched. */
  lemma RemovePlayerEffect(r: Registry, id: SocketId)
    requires Valid(r) && id in r.connections
    ensures var (r', res) := RemovePlayer(r, id);
      var pin := r.connections[id].pin;
      var before := r.rooms[pin].players;
      && res == Some(Removed(pin, |before| - 1))
      && r'.connections == r.connections - {id}
      && (|before| == 1 <==> pin !in r'.rooms)
      && (pin in r'.rooms ==>
            && r'.rooms[pin].status == Waiting
            && (forall s :: s in r'.rooms[pin].players <==> s in before && s != id)
            && r'.rooms[pin].createdAt == r.rooms[pin].createdAt
            && r'.rooms[pin].positions == r.rooms[pin].positions
            && r'.rooms[pin].pin == pin)
      && (forall p :: p in r.rooms && p != pin ==> p in r'.rooms && r'.rooms[p] == r.rooms[p])
      && r'.rooms.Keys <= r.rooms.Keys
  {
    assert ConnectionValid(r, id);
    var pin := r.connections[id].pin;
    assert RoomValid(r.rooms[pin]);
  }

  /** With the connection index in agreement, a removed socket is a
      member of no room afterwards. */
  lemma RemovePlayerLeavesNoTrace(r: Registry, id: SocketId)
    requires Valid(r) && Connected(r) && id in r.connections
    ensures var r' := RemovePlayer(r, id).0;
      forall p :: p in r'.rooms ==> id !in r'.rooms[p].players
  {
    RemovePlayerEffect(r, id);
  }

  lemma RemovePlayerKeeps(r: Registry, id: SocketId)
    requires Valid(r)
    ensures Valid(RemovePlayer(r, id).0)
    ensures Connected(r) ==> Connected(RemovePlayer(r, id).0)
  {
    if id in r.connections {
      assert ConnectionValid(r, id);
      var (r', _) := RemovePlayer(r, id);
      var pin := r.connections[id].pin;
      var room := r.rooms[pin];
      assert RoomValid(room);
      forall s | s in r'.connections ensures ConnectionValid(r', s) {
        assert ConnectionValid(r, s);
      }
    }
  }

  // ------------------------------------------------------ movePlayer facts

  /** Every clamped cell passes the server's check. */
  lemma ClampedIsValidPosition(x: int, y: int, room: Room)
    ensures IsValidPosition(Clamp(x), Clamp(y), room)
  {
  }

  /** `movePlayer` is refused exactly when the socket is unknown, its room
      is missing or not `ready`, or it has no position; there is no other
      reason to refuse. An accepted move sets the mover's cell to the
      clamped sum and its facing to `direction`, and nothing else changes. */
  lemma MovePlayerOutcome(r: Registry, id: SocketId, direction: string, dx: int, dy: int)
    ensures var (r', res) := MovePlayer(r, id, direction, dx, dy);
      && (res.None? <==>
            || id !in r.connections
            || r.connections[id].pin !in r.rooms
            || r.rooms[r.connections[id].pin].status != Ready
            || id !in r.rooms[r.connections[id].pin].positions)
      && (res.None? ==> r' == r)
      && (res.Some? ==>
            var pin := r.connections[id].pin;
            var pos := r.rooms[pin].positions[id];
            && res.value == Moved(id, Clamp(pos.x + dx), Clamp(pos.y + dy), direction, pin)
            && r'.connections == r.connections
            && r'.rooms.Keys == r.rooms.Keys
            && (forall p :: p in r.rooms && p != pin ==> r'.rooms[p] == r.rooms[p])
            && r'.rooms[pin].players == r.rooms[pin].players
            && r'.rooms[pin].status == r.rooms[pin].status
            && r'.rooms[pin].createdAt == r.rooms[pin].createdAt
            && r'.rooms[pin].pin == r.rooms[pin].pin
            && r'.rooms[pin].positions.Keys == r.rooms[pin].positions.Keys
            && r'.rooms[pin].positions[id] ==
                 PlayerPos(Clamp(pos.x + dx), Clamp(pos.y + dy), direction, pos.role)
            && (forall s :: s in r.rooms[pin].positions && s != id ==>
                  r'.rooms[pin].positions[s] == r.rooms[pin].positions[s]))
  {
    if id in r.connections {
      var c := r.connections[id];
      if c.pin in r.rooms && r.rooms[c.pin].status == Ready && id in r.rooms[c.pin].positions {
        var pos := r.rooms[c.pin].positions[id];
        ClampedIsValidPosition(pos.x + dx, pos.y + dy, r.rooms[c.pin]);
      }
    }
  }

  lemma MovePlayerKeeps(r: Registry, id: SocketId, direction: string, dx: int, dy: int)
    requires Valid(r)
    ensures Valid(MovePlayer(r, id, direction, dx, dy).0)
    ensures Connected(r) ==> Connected(MovePlayer(r, id, direction, dx, dy).0)
  {
    var (r', res) := MovePlayer(r, id, direction, dx, dy);
    if res.Some? {
      forall s | s in r'.connections ensures ConnectionValid(r', s) {
        assert ConnectionValid(r, s);
      }
    }
  }

  // ------------------------------------------------- cleanupOldRooms facts

  /** Exactly the rooms created more than ten minutes before `now` go, with
      every connection record naming one of them; younger rooms and their
      records stay as they were. */
  lemma CleanupOldRoomsExact(r: Registry, now: int)
    ensures var r' := CleanupOldRooms(r, now);
      && (forall p :: p in r'.rooms <==> p in r.rooms && r.rooms[p].createdAt >= now - 600000)
      && (forall p :: p in r'.rooms ==> r'.rooms[p] == r.rooms[p])
      && (forall s :: s in r'.connections <==>
            s in r.connections &&
            !(r.connections[s].pin in r.rooms && r.rooms[r.connections[s].pin].createdAt < now - 600000))
      && (forall s :: s in r'.connections ==> r'.connections[s] == r.connections[s])
  {
  }

  lemma CleanupOldRoomsKeeps(r: Registry, now: int)
    requires Valid(r)
    ensures Valid(CleanupOldRooms(r, now))
    ensures Connected(r) ==> Connected(CleanupOldRooms(r, now))
  {
    var r' := CleanupOldRooms(r, now);
    forall s | s in r'.connections ensures ConnectionValid(r', s) {
      assert ConnectionValid(r, s);
    }
  }

  // ---------------------------------------------------------- round trips

  /** A socket that creates a room and then leaves restores the registry
      it started from. */
  lemma CreateThenRemove(r: Registry, id: SocketId, pin: Pin, now: int)
    requires pin !in r.rooms && id !in r.connections
    ensures RemovePlayer(CreateRoom(r, id, pin, now), id) == (r, Some(Removed(pin, 0)))
  {
    var r1 := CreateRoom(r, id, pin, now);
    assert Without([id], id) == [];
    var r2 := RemovePlayer(r1, id).0;
    assert r2.rooms == r.rooms;
    assert r2.connections == r.connections;
  }

  /** A guest that joins and then leaves restores the room's members and
      status, but its entry in the room's positions stays behind. */
  lemma JoinThenRemove(r: Registry, id: SocketId, pin: string)
    requires Valid(r) && id !in r.connections
    requires JoinRoom(r, id, pin).1.Joined?
    ensures var r1 := JoinRoom(r, id, pin).0;
      var r2 := RemovePlayer(r1, id).0;
      var key := ToUpper(pin);
      && key in r2.rooms
      && r2.rooms[key].players == r.rooms[key].players
      && r2.rooms[key].status == r.rooms[key].status
      && r2.rooms[key].positions == r.rooms[key].positions[id := GuestStart]
      && r2.connections == r.connections
  {
    var key := ToUpper(pin);
    var r1 := JoinRoom(r, id, pin).0;
    var before := r.rooms[key].players;
    assert RoomValid(r.rooms[key]);
    assert r1.rooms[key].players == before + [id];
    WithoutAppended(before, id);
    assert r.connections[id := Connection(key, false)] - {id} == r.connections;
  }

  /** Filtering out a socket that was appended to a list without it gives
      the list back. */
  lemma {:induction false} WithoutAppended(s: seq<SocketId>, x: SocketId)
    requires x !in s
    ensures Without(s + [x], x) == s
  {
    if s != [] {
      assert (s + [x])[1..] == s[1..] + [x];
      WithoutAppended(s[1..], x);
    }
  }

  // ------------------------------------------------------- reachable states

  datatype Op =
    | CreateOp(id: SocketId, pin: Pin, now: int)
    | JoinOp(id: SocketId, pin: string)
    | RemoveOp(id: SocketId)
    | MoveOp(id: SocketId, direction: string, dx: int, dy: int)
    | CleanupOp(now: int)

  function Apply(r: Registry, op: Op): Registry
  {
    match op
    case CreateOp(id, pin, now) => CreateRoom(r, id, pin, now)
    case JoinOp(id, pin) => JoinRoom(r, id, pin).0
    case RemoveOp(id) => RemovePlayer(r, id).0
    case MoveOp(id, direction, dx, dy) => MovePlayer(r, id, direction, dx, dy).0
    case CleanupOp(now) => CleanupOldRooms(r, now)
  }

  function Run(r: Registry, ops: seq<Op>): Registry
    decreases |ops|
  {
    if ops == [] then r else Run(Apply(r, ops[0]), ops[1..])
  }

  /** Every room creation in `ops` uses a PIN as `generatePIN` returns it:
      well formed and not yet a room. */
  predicate FreshPins(r: Registry, ops: seq<Op>)
    decreases |ops|
  {
    ops != [] ==>
      && (ops[0].CreateOp? ==> IsPin(ops[0].pin) && ops[0].pin !in r.rooms)
      && FreshPins(Apply(r, ops[0]), ops[1..])
  }

  /** Every socket that creates or joins a room in `ops` has no connection
      record at that point. */
  predicate FreshSockets(r: Registry, ops: seq<Op>)
    decreases |ops|
  {
    ops != [] ==>
      && ((ops[0].CreateOp? || ops[0].JoinOp?) ==> ops[0].id !in r.connections)
      && FreshSockets(Apply(r, ops[0]), ops[1..])
  }

  lemma ApplyKeeps(r: Registry, op: Op)
    requires Valid(r)
    requires op.CreateOp? ==> IsPin(op.pin) && op.pin !in r.rooms
    ensures Valid(Apply(r, op))
    ensures Connected(r) && ((op.CreateOp? || op.JoinOp?) ==> op.id !in r.connections)
            ==> Connected(Apply(r, op))
  {
    match op
    case CreateOp(id, pin, now) => CreateRoomKeeps(r, id, pin, now);
    case JoinOp(id, pin) => JoinRoomKeeps(r, id, pin);
    case RemoveOp(id) => RemovePlayerKeeps(r, id);
    case MoveOp(id, direction, dx, dy) => MovePlayerKeeps(r, id, direction, dx, dy);
    case CleanupOp(now) => CleanupOldRoomsKeeps(r, now);
  }

  /** Any sequence of operations keeps the invariant, and keeps the
      connection index in agreement when no socket creates or joins twice. */
  lemma {:induction false} RunKeeps(r: Registry, ops: seq<Op>)
    requires Valid(r) && FreshPins(r, ops)
    ensures Valid(Run(r, ops))
    ensures Connected(r) && FreshSockets(r, ops) ==> Connected(Run(r, ops))
    decreases |ops|
  {
    if ops != [] {
      ApplyKeeps(r, ops[0]);
      RunKeeps(Apply(r, ops[0]), ops[1..]);
    }
  }

  /** In every registry the server can reach, every room has one or two
      distinct members and is `ready` exactly when it has two. */
  lemma ReachableRoomsHoldAtMostTwo(ops: seq<Op>)
    requires FreshPins(Empty, ops)
    ensures forall p :: p in Run(Empty, ops).rooms ==>
      var room := Run(Empty, ops).rooms[p];
      && 1 <= |room.players| <= 2
      && NoDuplicates(room.players)
      && (room.status == Ready <==> |room.players| == 2)
  {
    RunKeeps(Empty, ops);
  }
}
