# Battle City: room registry and client movement prediction

This project models the shared coordinate and session logic of a two-player
networked tank game and proves properties of it in Dafny.

- **The server's room registry** (`GameManager`). It keeps two maps: rooms by
  5-character PIN, and connection records by socket id. Its operations create
  a room under a fresh PIN, join a guest, remove a disconnected player, report
  a room, move a player inside the 13x13 board, and sweep rooms older than ten
  minutes.
- **The client's grid and prediction logic** (the `Game` singleton). It holds
  two tank objects and an animation clock. It predicts the local player's move
  on an arrow key, applies the remote player's moves from the server, moves
  each tank's visual position toward its target by 1.5 pixels a frame, and
  flips the two-frame tank animation.

Layout:

- `wrappers.dfy`: the `Option` type used where the source returns `null` or
  `undefined`.
- `grid.dfy`: module `Grid`. The board (13x13 cells, 64 pixels a cell), the
  clamp to `[0,12]`, and the cell/pixel conversions.
- `sessions.dfy`: module `Sessions`. The registry as a value (`Registry`), one
  function per server operation, the registry invariants, and the lemmas. One
  lemma covers every sequence of operations.
- `game_manager.dfy`: module `Server`. Class `GameManager`, whose fields
  `rooms` and `playerConnections` its methods update in place. Each room
  operation (create, join, remove, report, move, sweep) is proved to compute
  the matching `Sessions` function, and the state-changing ones to keep the
  invariant. `GeneratePIN` is proved against `Sessions.CandidatePin`.
- `motion.dfy`: module `Motion`. A tank's state as a value (`TankView`), one
  frame of movement and animation, the key mapping, the local prediction and
  the remote update, with a convergence proof.
- `game.dfy`: module `Client`. Classes `Tank` and `Game`, whose methods update
  the tank objects' fields exactly as the `Motion` functions say.
- `agreement.dfy`: module `Agreement`. How the client's prediction relates to
  the server's validation.

The server has two invariants:

- `Sessions.Valid` holds after every operation, whatever its arguments. Every
  room has one or two distinct members. A room is `ready` exactly when it has
  two. Every member has an on-board position. Every connection record names
  an existing room that lists the socket, with the matching role.
- `Sessions.Connected` is the converse: every member has a record naming its
  room. `createRoom` and `joinRoom` overwrite the caller's record without
  leaving its previous room, so this invariant holds only when the caller has
  no record yet. The methods state that precondition explicitly.

Once paused, the game cannot be resumed from the keyboard. The `keydown`
listener (client/js/game.js:69) and `handleKeyDown` (client/js/game.js:306)
both ignore keys outside `playing`, so Escape never reaches `togglePause`
while paused, although the pause toast says "Press ESC to resume"
(client/js/game.js:415). The model keeps this behaviour:
`Client.Game.HandleKeyDown` changes nothing outside `playing`.

Not implemented in the code, and so not in the model:

- a check that two tanks never share a cell: `isValidPosition` checks only
  the board bounds, and its player and terrain collision checks are TODO
  comments (server/gameManager.js:169-170). Any move by a known player in a
  ready room is accepted, and two tanks may share a cell;
- bullets and collision detection on the client: TODO comments in `update`
  (client/js/game.js:166-167);
- shooting: the space key only logs, with a TODO comment
  (client/js/game.js:330).

`sendMoveCommand` writes the cell and the target only when the clamped cell
differs from the current one (client/js/game.js:366-371). Under
`Motion.TankValid` the target already equals the current cell's pixel
corner, so either way the target is the new cell's pixel corner afterwards.

## Model

| member | source | states |
|---|---|---|
| `Grid.Clamp` | server/gameManager.js:142-143 | The clamped coordinate lies in [0,12]. It equals the input when the input is on the board, 0 below it and 12 above it. |
| `Grid.IsValidGridPosition` | client/js/game.js:438-440 | A cell is valid exactly when clamping leaves both coordinates unchanged, so `< 13` here is the server's `<= 12`. |
| `Grid.PixelInCell` | client/js/game.js:431-436 | `pixelToGrid` gives cell g exactly when the pixel lies in [64g, 64(g+1)). |
| `Grid.PixelToGridInverse` | client/js/game.js:424-436 | `pixelToGrid(gridToPixel(x, y)) == (x, y)` for every integer cell. |
| `Sessions.CharIndex` | server/gameManager.js:11 | `Math.floor(Math.random() * 36)` is a valid index into the 36 PIN characters. |
| `Sessions.CandidatePin` | server/gameManager.js:8-12 | Every PIN one try can build has 5 characters from `[A-Z0-9]`. |
| `Sessions.ToUpper` | server/gameManager.js:54 | Upper-casing keeps the length, shifts each ASCII lower-case letter to upper case and leaves other characters alone. |
| `Sessions.UpperPin` | server/gameManager.js:54 | A PIN is unchanged by upper-casing, and any spelling of a PIN with some letters in lower case upper-cases to that PIN, so a join with a lower-case PIN finds the room. Upper-casing is idempotent. |
| `Sessions.Without` | server/gameManager.js:101 | The filter keeps exactly the other ids, changes nothing when the id is absent, keeps the list duplicate-free, and shortens a duplicate-free list holding the id by one. |
| `Sessions.CreateRoomAddsOneRoom` | server/gameManager.js:22-51 | With a fresh PIN, exactly one room is added: in `waiting`, created at `now`, with the caller as its only player and only position, at (4,12) facing up as host. The caller's record becomes a host record for that PIN; every other room and record is unchanged, and no other record is added. |
| `Sessions.CreatedRoomLifetime` | server/gameManager.js:29 | A new room survives a sweep at time `later` exactly when `later <= now + 600000`. |
| `Sessions.CreateRoomKeeps` | server/gameManager.js:22-51 | Creating a room keeps `Valid`. It keeps `Connected` when the caller had no connection record. |
| `Sessions.JoinRoomOutcome` | server/gameManager.js:53-86 | The join fails with "Room not found", "Room is full" (2 or more players) or "Already in room", each exactly when the earlier checks pass and its own fails; the reply's error text is that message. A success is a guest seat in the upper-cased room, and status is `ready` iff the count is 2. |
| `Sessions.JoinRoomFailsIffUnchanged` | server/gameManager.js:53-66 | A join fails exactly when it leaves the registry unchanged. |
| `Sessions.JoinRoomSeatsGuest` | server/gameManager.js:68-86 | A successful join appends the caller to the room's players and adds its position (8,12) facing up as guest, leaving the other members' positions, the room's creation time and the other rooms unchanged. The caller's record becomes a guest record under the upper-cased PIN, and every other record is unchanged. |
| `Sessions.JoinRoomKeeps` | server/gameManager.js:60-77 | Joining keeps `Valid`, so no room exceeds 2 players. It keeps `Connected` when the caller had no connection record. |
| `Sessions.RemovePlayerUnknown` | server/gameManager.js:93-98 | Removing a socket with no connection record, or whose room is gone, changes nothing and replies nothing. |
| `Sessions.RemovePlayerEffect` | server/gameManager.js:93-116 | Removing a connected socket drops it from its room's players and drops its connection record. The room is deleted iff the socket was its only member; otherwise it goes back to `waiting` and keeps its creation time and its whole position map, the departed socket's entry included. The reply is the remaining count, and other rooms are unchanged. |
| `Sessions.RemovePlayerLeavesNoTrace` | server/gameManager.js:93-116 | Under `Connected`, the removed socket is a member of no room afterwards. |
| `Sessions.RemovePlayerKeeps` | server/gameManager.js:93-116 | Removing a player keeps `Valid` and `Connected`. |
| `Sessions.ClampedIsValidPosition` | server/gameManager.js:142-173 | Every clamped cell passes `isValidPosition`. |
| `Sessions.MovePlayerOutcome` | server/gameManager.js:131-160 | A move is refused exactly when the socket is unknown, its room is missing or not `ready`, or it has no position, and a refusal changes nothing. An accepted move sets only the mover's cell to the clamped sum and its facing to the given direction; the room's players, status and creation time are unchanged. |
| `Sessions.MovePlayerKeeps` | server/gameManager.js:131-160 | Moving keeps `Valid` (positions stay on the board) and `Connected`. |
| `Sessions.CleanupOldRoomsExact` | server/gameManager.js:184-198 | Exactly the rooms with `createdAt < now - 600000` are deleted, together with exactly the connection records naming one of them. Everything else is unchanged. |
| `Sessions.CleanupOldRoomsKeeps` | server/gameManager.js:184-198 | The sweep keeps `Valid` and `Connected`. |
| `Sessions.CreateThenRemove` | server/gameManager.js:22-116 | A socket that creates a room and then disconnects restores the registry exactly. |
| `Sessions.JoinThenRemove` | server/gameManager.js:53-116 | A guest that joins and then leaves restores the room's players, status and connection records. Its position entry stays behind. |
| `Sessions.RunKeeps` | server/gameManager.js:1-199 | Any sequence of operations with generated PINs keeps `Valid`. It keeps `Connected` when no socket creates or joins while it already has a record. |
| `Sessions.ReachableRoomsHoldAtMostTwo` | server/gameManager.js:60-70 | In every registry reachable from the empty one, each room has 1 or 2 distinct players and is `ready` exactly when it has 2. |
| `Server.GameManager.constructor` | server/gameManager.js:2-5 | Both maps start empty, and both invariants hold. |
| `Server.GameManager.GeneratePIN` | server/gameManager.js:7-20 | The result is a well-formed PIN that is not a room, built by the first try whose PIN is free. |
| `Server.GameManager.CreateRoom` | server/gameManager.js:22-51 | The new maps are `Sessions.CreateRoom` under a fresh generated PIN, and the reply is the host role in `waiting`. The invariants are kept. |
| `Server.GameManager.JoinRoom` | server/gameManager.js:53-87 | The new maps and the reply are `Sessions.JoinRoom`. The invariants are kept. |
| `Server.GameManager.RemovePlayer` | server/gameManager.js:93-116 | The new maps and the reply are `Sessions.RemovePlayer`. The invariants are kept. |
| `Server.GameManager.GetRoomInfo` | server/gameManager.js:118-128 | The reply is `Sessions.GetRoomInfo` of the registry. There is no info iff the PIN is not a room. Otherwise the info gives the room's PIN, count, max 2 and status, with 1 or 2 players and `ready` iff 2. |
| `Server.GameManager.MovePlayer` | server/gameManager.js:131-160 | The new maps and the reply are `Sessions.MovePlayer`. The invariants are kept. |
| `Server.GameManager.CleanupOldRooms` | server/gameManager.js:184-198 | The nested deleting loops compute `Sessions.CleanupOldRooms`. The invariants are kept. |
| `Server.GameManager.DeleteConnectionsOf` | server/gameManager.js:191-195 | The inner loop leaves exactly the connection records naming another PIN. |
| `Motion.StepAxis` | client/js/game.js:184-195 | One axis step never overshoots. The distance to the target shrinks by exactly 1.5 when it exceeds 1.5, and otherwise the position snaps to the target. |
| `Motion.SmoothStep` | client/js/game.js:170-205 | A step changes only the visual position and `isMoving`. Each axis takes one `StepAxis` toward the target (1.5 pixels, or a snap when within 1.5). Afterwards `isMoving` holds iff the visual position differs from the target, and neither axis gets farther from it. |
| `Motion.Frames` | client/js/game.js:170-205 | Repeated frames keep the target, cell and facing, and never increase either axis's distance to the target. |
| `Motion.FramesReachTarget` | client/js/game.js:170-204 | After n frames, where 1.5n is at least the larger axis distance to the target, the tank is on its target, and not moving once n >= 1. |
| `Motion.FramesAtMostSpeed` | client/js/game.js:184-195 | n frames close at most 1.5n of either axis's distance, so the bound above is tight. |
| `Motion.UpdateFrameKeeps` | client/js/game.js:151-164 | A frame keeps both animation frames in {0,1}, the clock in [0,500] and each target at its cell's pixel corner. It resets the clock and flips both frames exactly when the clock passes 150 (a tank moving) or 500, and otherwise advances the clock by 16. |
| `Motion.KeyToMove` | client/js/game.js:311-341 | Exactly the four arrow keys give a move, each its own: ArrowUp is up (0,-1), ArrowDown down (0,1), ArrowLeft left (-1,0), ArrowRight right (1,0). Each move is one cell along one axis. |
| `Motion.PredictMove` | client/js/game.js:348-373 | The facing is always set. A moving tank keeps its cell and target. Otherwise the cell becomes the clamped neighbour. The target is always the cell's pixel corner, and the visual position is untouched. |
| `Motion.ApplyRemote` | client/js/game.js:386-409 | The server's cell and facing are taken as they are, and the target converts back to exactly that cell. |
| `Client.Tank.constructor` | client/js/game.js:113-131 | A new tank is at rest on its cell, facing up, with visual position and target at the cell's pixel corner. |
| `Client.Game.constructor` | client/js/game.js:3-41 | The game starts in `menu`, with player 1 at (4,12)/(256,768), player 2 at (8,12)/(512,768) and the clock at 0. |
| `Client.Game.Start` | client/js/game.js:88-101 | The game enters `playing` with both tanks freshly placed on their spawn cells, and the first loop pass applies one frame (`Motion.UpdateFrame`) to them and the clock. |
| `Client.Game.Stop` | client/js/game.js:103-107 | The game returns to `menu`. |
| `Client.Game.InitializeGameObjects` | client/js/game.js:109-136 | Player 1 is placed at grid (4,12), visual and target (256,768). Player 2 is placed at (8,12), (512,768). Both face up and are not moving, as new objects. |
| `Client.Game.Update` | client/js/game.js:151-168 | One frame updates both tanks and the clock as `Motion.UpdateFrame` says, and keeps the game invariant. |
| `Client.Game.UpdateSmoothMovement` | client/js/game.js:170-205 | The tank's fields become `Motion.SmoothStep` of their old values. |
| `Client.Game.HandleKeyDown` | client/js/game.js:305-341 | Outside `playing` nothing changes. An arrow key performs the local move and returns the message. Escape pauses. Every other key changes nothing. |
| `Client.Game.SendMoveCommand` | client/js/game.js:348-383 | Only the role-selected local tank changes, as `Motion.PredictMove` says. A `player-move` message is returned iff the tank was not moving and the socket is connected. |
| `Client.Game.OnPlayerMove` | client/js/game.js:386-409 | The client's own confirmation changes nothing. Otherwise only the remote tank changes, as `Motion.ApplyRemote` says. |
| `Client.Game.TogglePause` | client/js/game.js:411-421 | `playing` and `paused` swap, and any other state is unchanged. |
| `Agreement.SpawnsAgree` | client/js/game.js:113-131 | The client's spawn cells and facings are the server's host and guest spawns, at pixels (256,768) and (512,768). |
| `Agreement.BoundsAgree` | client/js/game.js:438-440 | The client's and the server's bounds checks accept the same cells. |
| `Agreement.PredictionMatchesServer` | client/js/game.js:348-373 | A tank at rest on the server's cell, in a ready room, has every arrow move accepted. The server's new cell and facing equal the client's prediction, and the other client's copy lands on the same cell and target. |

## Left out

- `server/server.js`, `client/js/network.js`, `client/js/ui.js` and `client/js/spriteManager.js` are not part of this model. They hold the Socket.IO plumbing, the reconnect logic, the DOM and the sprite loading and drawing.
- Socket objects are reduced to their id, and `socket.join` (room broadcast membership) is not modelled.
- `Date.now()` is the `now` parameter, and `Math.random()` is the `random` stream parameter, one value per call.
- `getRoom` and `getRoomGameState` only return a stored object, so they are not modelled.
- Rooms are values inside the `rooms` map rather than shared objects. Aliasing of a room object held outside the manager is not modelled; nothing in the core holds one.
- `Server.GameManager.GeneratePIN`: the source retries by recursion (server/gameManager.js:16), which JavaScript engines do not turn into a loop. After enough taken PINs in a row the call stack runs out and the source throws a `RangeError`. The model retries in a loop with no depth limit and requires that some try yields a free PIN. That covers streams whose first free try lies deeper than the source's stack can reach, where the model returns a PIN and the source throws.
- `Sessions.ToUpper`: upper-cases ASCII letters only. JavaScript's `toUpperCase` also maps other Unicode letters, and some of them change the length.
- `Server.GameManager.MovePlayer`: the delta is an integer pair and the direction a string. The source would also accept fractions or `NaN`, stores whatever JSON value arrives as the direction, and throws a `TypeError` when the delta is missing (server/gameManager.js:142); the model has no such inputs.
- `Server.GameManager.JoinRoom`: the PIN is a string. The source's `pin.toUpperCase()` (server/gameManager.js:54) throws a `TypeError` for a non-string PIN; the model has no such input.
- `Client.Game.Start`: only the first, synchronous pass of `gameLoop` is modelled (one `update`); the later passes come from `requestAnimationFrame` and are calls of `Client.Game.Update`.
- `Server.GameManager.CreateRoom`, `Server.GameManager.JoinRoom`: keep `Connected` only for a socket without a connection record, because the source overwrites the record without leaving the previous room.
- Role: a `Network.playerRole` other than `host`, including none, selects player 2. It is modelled as `Guest`.
- Visual coordinates are exact reals, not IEEE doubles. On the board they are multiples of 0.5 below 1000, which doubles represent exactly.
- Rendering (`setupCanvas`, `render`, `drawGameField`, `drawTanks`, `drawDebugInfo`), `gameLoop` with `requestAnimationFrame`, the DOM listeners, the empty `handleKeyUp`, the `isRunning` flag, console output and toasts are not modelled.
- Projectiles, hits, respawn and the tank–tank occupancy check exist only as TODO comments, so they are not modelled.
