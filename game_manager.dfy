/**
 * The server's `GameManager`: the room map and the connection map as fields
 * that its methods update in place. Sockets are reduced to their id; the
 * clock and `Math.random()` are parameters. Every state-changing method is
 * proved to compute the matching function of module Sessions, and to keep
 * the registry invariant.
 */
module Server {
  import opened Wrappers
  import opened Sessions
  import opened Grid

  class GameManager {
    var rooms: map<Pin, Room>
    var playerConnections: map<SocketId, Connection>

    function State(): Registry
      reads this
    {
      Registry(rooms, playerConnections)
    }

    ghost predicate Valid()
      reads this
    {
      Sessions.Valid(State())
    }

    ghost predicate Connected()
      reads this
    {
      Sessions.Connected(State())
    }

    constructor ()
      ensures rooms == map[] && playerConnections == map[]
      ensures Valid() && Connected()
    {
      rooms := map[];
      playerConnections := map[];
    }

    /** Draws five characters from `PinChars` per try and tries again while
        the PIN is taken; `random(k)` is the `k`-th value of `Math.random()`.
        The source retries by recursion; the retries are a loop here. */
    method GeneratePIN(random: nat -> real) returns (pin: Pin)
      requires IsRandom(random)
      requires exists n: nat :: CandidatePin(random, n) !in rooms
      ensures IsPin(pin) && pin !in rooms
      ensures exists n: nat :: pin == CandidatePin(random, n) &&
                (forall j: nat :: j < n ==> CandidatePin(random, j) in rooms)
    {
      ghost var bound: nat :| CandidatePin(random, bound) !in rooms;
      var attempt: nat := 0;
      while true
        invariant attempt <= bound
        invariant forall j: nat :: j < attempt ==> CandidatePin(random, j) in rooms
        decreases bound - attempt
      {
        pin := "";
        var i := 0;
        while i < PinLength
          invariant 0 <= i <= PinLength
          invariant pin == CandidatePin(random, attempt)[..i]
        {
          pin := pin + [PinChars[CharIndex(random(attempt * PinLength + i))]];
          i := i + 1;
        }
        assert pin == CandidatePin(random, attempt);
        if pin !in rooms {
          return;
        }
        attempt := attempt + 1;
      }
    }

    /** Opens a room under a fresh PIN with the caller as its host. */
    method CreateRoom(socketId: SocketId, now: int, random: nat -> real) returns (res: Created)
      requires Valid()
      requires IsRandom(random)
      requires exists n: nat :: CandidatePin(random, n) !in rooms
      modifies this
      ensures IsPin(res.pin) && res.pin !in old(rooms)
      ensures res == Created(res.pin, Host, Waiting)
      ensures State() == Sessions.CreateRoom(old(State()), socketId, res.pin, now)
      ensures Valid()
      ensures old(Connected()) && socketId !in old(playerConnections) ==> Connected()
    {
      var pin := GeneratePIN(random);
      var room := Room(pin, [socketId], Waiting, now, map[]);
      room := room.(positions := room.positions[socketId := PlayerPos(4, 12, "up", Host)]);
      rooms := rooms[pin := room];
      playerConnections := playerConnections[socketId := Connection(pin, true)];
      res := Created(pin, Host, Waiting);
      CreateRoomKeeps(old(State()), socketId, pin, now);
    }

    method JoinRoom(socketId: SocketId, pin: string) returns (res: JoinResult)
      requires Valid()
      modifies this
      ensures (State(), res) == Sessions.JoinRoom(old(State()), socketId, pin)
      ensures Valid()
      ensures old(Connected()) && socketId !in old(playerConnections) ==> Connected()
    {
      JoinRoomKeeps(State(), socketId, pin);
      var key := ToUpper(pin);
      if key !in rooms {
        return JoinFailed(RoomNotFound);
      }
      var room := rooms[key];
      if |room.players| >= MaxPlayers {
        return JoinFailed(RoomFull);
      }
      if socketId in room.players {
        return JoinFailed(AlreadyInRoom);
      }
      room := room.(players := room.players + [socketId]);
      room := room.(status := if |room.players| == MaxPlayers then Ready else Waiting);
      room := room.(positions := room.positions[socketId := PlayerPos(8, 12, "up", Guest)]);
      rooms := rooms[key := room];
      playerConnections := playerConnections[socketId := Connection(key, false)];
      res := Joined(key, Guest, room.status, |room.players|);
    }

    /** Handles a disconnect: `None` stands for the source's bare `return`. */
    method RemovePlayer(socketId: SocketId) returns (res: Option<Removed>)
      requires Valid()
      modifies this
      ensures (State(), res) == Sessions.RemovePlayer(old(State()), socketId)
      ensures Valid()
      ensures old(Connected()) ==> Connected()
    {
      RemovePlayerKeeps(State(), socketId);
      if socketId !in playerConnections {
        return None;
      }
      var connection := playerConnections[socketId];
      if connection.pin !in rooms {
        return None;
      }
      var room := rooms[connection.pin];
      room := room.(players := Without(room.players, socketId));
      if |room.players| == 0 {
        rooms := rooms - {connection.pin};
      } else {
        room := room.(status := Waiting);
        rooms := rooms[connection.pin := room];
      }
      playerConnections := playerConnections - {socketId};
      res := Some(Removed(connection.pin, |room.players|));
    }

    /** The public summary of a room; a room always reports one or two
        players and is `ready` exactly when it reports two. */
    method GetRoomInfo(pin: Pin) returns (info: Option<RoomInfo>)
      requires Valid()
      ensures info == Sessions.GetRoomInfo(State(), pin)
      ensures info.None? <==> pin !in rooms
      ensures info.Some? ==>
        && info.value.pin == pin
        && info.value.playerCount == |rooms[pin].players|
        && info.value.maxPlayers == 2
        && info.value.status == rooms[pin].status
        && 1 <= info.value.playerCount <= 2
        && (info.value.status == Ready <==> info.value.playerCount == 2)
    {
      if pin !in rooms {
        return None;
      }
      var room := rooms[pin];
      info := Some(RoomInfo(room.pin, |room.players|, MaxPlayers, room.status));
    }

    method MovePlayer(socketId: SocketId, direction: string, dx: int, dy: int)
      returns (res: Option<Moved>)
      requires Valid()
      modifies this
      ensures (State(), res) == Sessions.MovePlayer(old(State()), socketId, direction, dx, dy)
      ensures Valid()
      ensures old(Connected()) ==> Connected()
    {
      MovePlayerKeeps(State(), socketId, direction, dx, dy);
      if socketId !in playerConnections {
        return None;
      }
      var connection := playerConnections[socketId];
      if connection.pin !in rooms || rooms[connection.pin].status != Ready {
        return None;
      }
      var room := rooms[connection.pin];
      if socketId !in room.positions {
        return None;
      }
      var playerPos := room.positions[socketId];
      var newX := Max(0, Min(12, playerPos.x + dx));
      var newY := Max(0, Min(12, playerPos.y + dy));
      if IsValidPosition(newX, newY, room) {
        playerPos := playerPos.(x := newX, y := newY, direction := direction);
        room := room.(positions := room.positions[socketId := playerPos]);
        rooms := rooms[connection.pin := room];
        return Some(Moved(socketId, newX, newY, direction, connection.pin));
      }
      return None;
    }

    /** Deletes every room created more than ten minutes before `now`,
        together with the connection records that name it. The source walks
        the room map and, for each deleted room, the connection map; the
        order of the walk does not affect the result. */
    method CleanupOldRooms(now: int)
      requires Valid()
      modifies this
      ensures State() == Sessions.CleanupOldRooms(old(State()), now)
      ensures Valid()
      ensures old(Connected()) ==> Connected()
    {
      CleanupOldRoomsKeeps(State(), now);
      ghost var rooms0 := rooms;
      ghost var connections0 := playerConnections;
      var tenMinutesAgo := now - 10 * 60 * 1000;
      var pending := rooms.Keys;
      ghost var deleted: set<Pin> := {};
      while pending != {}
        invariant pending <= rooms0.Keys
        invariant forall p :: p in deleted <==>
                    p in rooms0 && p !in pending && rooms0[p].createdAt < tenMinutesAgo
        invariant rooms == RoomsOutside(rooms0, deleted)
        invariant playerConnections == ConnectionsOutside(connections0, deleted)
        decreases pending
      {
        var pin :| pin in pending;
        pending := pending - {pin};
        var room := rooms[pin];
        if room.createdAt < tenMinutesAgo {
          OutsideOneMore(rooms0, connections0, deleted, pin);
          rooms := rooms - {pin};
          DeleteConnectionsOf(pin);
          deleted := deleted + {pin};
        }
      }
      assert deleted == Expired(old(State()), now);
    }

    /** The inner loop of `cleanupOldRooms`: drops every connection record
        whose PIN is `pin`. */
    method DeleteConnectionsOf(pin: Pin)
      modifies this`playerConnections
      ensures playerConnections == ConnectionsOutside(old(playerConnections), {pin})
    {
      ghost var connections0 := playerConnections;
      var sockets := playerConnections.Keys;
      while sockets != {}
        invariant sockets <= connections0.Keys
        invariant playerConnections ==
          map s | s in connections0 && (s in sockets || connections0[s].pin != pin) :: connections0[s]
        decreases sockets
      {
        var socketId :| socketId in sockets;
        sockets := sockets - {socketId};
        if playerConnections[socketId].pin == pin {
          playerConnections := playerConnections - {socketId};
        }
      }
    }
  }
}
