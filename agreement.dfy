/**
 * How the client's prediction relates to the server's validation: both
 * sides share the spawn cells, the board bounds and the clamped step, so an
 * accepted move leaves the mover's prediction, the server's record and the
 * other client's copy on the same cell.
 */
module Agreement {
  import opened Wrappers
  import opened Grid
  import opened Sessions
  import opened Motion

  /** The client spawns its tanks where the server seats host and guest. */
  lemma SpawnsAgree()
    ensures Player1Start.gridX == HostStart.x && Player1Start.gridY == HostStart.y
    ensures Player2Start.gridX == GuestStart.x && Player2Start.gridY == GuestStart.y
    ensures Player1Start.direction == HostStart.direction
    ensures Player2Start.direction == GuestStart.direction
    ensures GridToPixel(HostStart.x, HostStart.y) == Pixel(256.0, 768.0)
    ensures GridToPixel(GuestStart.x, GuestStart.y) == Pixel(512.0, 768.0)
  {
  }

  /** The client's bounds check and the server's accept the same cells. */
  lemma BoundsAgree(x: int, y: int, room: Room)
    ensures IsValidGridPosition(x, y) == IsValidPosition(x, y, room)
  {
  }

  /** When the local tank is at rest on the cell the server has for it, in
      a ready room, an arrow key's move is accepted by the server, and the
      server's new cell and facing equal the client's prediction; the other
      client, applying the broadcast, puts its copy of the tank on the same
      cell with a target at that cell's pixel corner. */
  lemma PredictionMatchesServer(r: Registry, id: SocketId, mine: TankView, theirs: TankView, key: string)
    requires Valid(r)
    requires id in r.connections && r.connections[id].pin in r.rooms
    requires r.rooms[r.connections[id].pin].status == Ready
    requires id in r.rooms[r.connections[id].pin].positions
    requires mine.gridX == r.rooms[r.connections[id].pin].positions[id].x
    requires mine.gridY == r.rooms[r.connections[id].pin].positions[id].y
    requires TankValid(mine) && !mine.isMoving
    requires KeyToMove(key).Some?
    ensures var m := KeyToMove(key).value;
      var pin := r.connections[id].pin;
      var (r', res) := MovePlayer(r, id, m.direction, m.dx, m.dy);
      var predicted := PredictMove(mine, m.direction, m.dx, m.dy);
      && res.Some?
      && res.value.x == predicted.gridX && res.value.y == predicted.gridY
      && res.value.direction == predicted.direction
      && pin in r'.rooms && id in r'.rooms[pin].positions
      && r'.rooms[pin].positions[id].x == predicted.gridX
      && r'.rooms[pin].positions[id].y == predicted.gridY
      && var copy := ApplyRemote(theirs, res.value.x, res.value.y, res.value.direction);
         && copy.gridX == predicted.gridX && copy.gridY == predicted.gridY
         && copy.targetX == predicted.targetX && copy.targetY == predicted.targetY
  {
    var m := KeyToMove(key).value;
    MovePlayerOutcome(r, id, m.direction, m.dx, m.dy);
  }
}
