/**
 * The client's `Game` singleton: the two tank objects whose fields it
 * updates every frame and on every input or server event, and the
 * animation clock. The socket, the local socket id and the player's role
 * (`Network.socket`, `Network.socket.id`, `Network.playerRole`) are
 * parameters; the emitted `player-move` message is returned.
 */
module Client {
  import opened Wrappers
  import opened Grid
  import opened Motion
  import Sessions

  datatype GameState = Menu | Lobby | Playing | Paused | Ended

  /** One entry of `players`. */
  class Tank {
    var gridX: int
    var gridY: int
    var visualX: real
    var visualY: real
    var targetX: real
    var targetY: real
    var direction: string
    var color: string
    var animFrame: int
    var isMoving: bool

    function View(): TankView
      reads this
    {
      TankView(gridX, gridY, visualX, visualY, targetX, targetY, direction, color, animFrame, isMoving)
    }

    /** A tank at rest on a cell, facing up. */
    constructor (gx: int, gy: int, color: string)
      ensures View() == Spawned(gx, gy, color)
    {
      gridX, gridY := gx, gy;
      visualX, visualY := (gx * 64) as real, (gy * 64) as real;
      targetX, targetY := (gx * 64) as real, (gy * 64) as real;
      direction := "up";
      this.color := color;
      animFrame := 0;
      isMoving := false;
    }
  }

  class Game {
    var gameState: GameState
    var player1: Tank
    var player2: Tank
    var animationTime: int

    function View(): GameView
      reads this, player1, player2
    {
      GameView(player1.View(), player2.View(), animationTime)
    }

    ghost predicate Valid()
      reads this, player1, player2
    {
      player1 != player2 && GameValid(View())
    }

    /** The tank this client controls: player 1 for the host. */
    function Local(role: Sessions.Role): Tank
      reads this
    {
      if role == Sessions.Host then player1 else player2
    }

    function Remote(role: Sessions.Role): Tank
      reads this
    {
      if role == Sessions.Host then player2 else player1
    }

    constructor ()
      ensures Valid() && gameState == Menu
      ensures View() == GameView(Player1Start, Player2Start, 0)
    {
      gameState := Menu;
      player1 := new Tank(4, 12, "yellow");
      player2 := new Tank(8, 12, "green");
      animationTime := 0;
    }

    /** `start`: the game enters `playing`, the tanks are placed anew, and
        the first pass of the game loop runs one `update` at once. The
        render, the later frames and the hint toast are not modelled. */
    method Start()
      requires Valid()
      modifies this
      ensures Valid() && gameState == Playing
      ensures fresh(player1) && fresh(player2)
      ensures View() == UpdateFrame(GameView(Player1Start, Player2Start, old(animationTime)))
    {
      gameState := Playing;
      InitializeGameObjects();
      Update();
    }

    method Stop()
      modifies this`gameState
      ensures gameState == Menu
    {
      gameState := Menu;
    }

    /** Puts player 1 at rest on (4,12) and player 2 on (8,12), both facing
        up, as new objects. */
    method InitializeGameObjects()
      requires Valid()
      modifies this`player1, this`player2
      ensures Valid()
      ensures fresh(player1) && fresh(player2)
      ensures View() == GameView(Player1Start, Player2Start, old(animationTime))
    {
      player1 := new Tank(4, 12, "yellow");
      player2 := new Tank(8, 12, "green");
    }

    /** One frame of game logic. */
    method Update()
      requires Valid()
      modifies this`animationTime, player1, player2
      ensures Valid()
      ensures View() == UpdateFrame(old(View()))
    {
      animationTime := animationTime + 16;
      UpdateSmoothMovement(player1);
      UpdateSmoothMovement(player2);
      if animationTime > (if player1.isMoving || player2.isMoving then 150 else 500) {
        player1.animFrame := (player1.animFrame + 1) % 2;
        player2.animFrame := (player2.animFrame + 1) % 2;
        animationTime := 0;
      }
      UpdateFrameKeeps(old(View()));
    }

    method UpdateSmoothMovement(player: Tank)
      modifies player
      ensures player.View() == SmoothStep(old(player.View()))
    {
      if player.visualX != player.targetX || player.visualY != player.targetY {
        player.isMoving := true;
        var deltaX := player.targetX - player.visualX;
        var deltaY := player.targetY - player.visualY;
        if Abs(deltaX) > MoveSpeed {
          player.visualX := player.visualX + (if deltaX > 0.0 then MoveSpeed else -MoveSpeed);
        } else {
          player.visualX := player.targetX;
        }
        if Abs(deltaY) > MoveSpeed {
          player.visualY := player.visualY + (if deltaY > 0.0 then MoveSpeed else -MoveSpeed);
        } else {
          player.visualY := player.targetY;
        }
        if player.visualX == player.targetX && player.visualY == player.targetY {
          player.isMoving := false;
        }
      } else {
        player.isMoving := false;
      }
    }

    /** Arrow keys move the local tank, Escape pauses; nothing happens
        outside the `playing` state. */
    method HandleKeyDown(key: string, role: Sessions.Role, connected: bool)
      returns (sent: Option<MoveIntent>)
      requires Valid()
      modifies this`gameState, player1, player2
      ensures Valid()
      ensures old(gameState) != Playing ==>
        sent == None && gameState == old(gameState) && View() == old(View())
      ensures old(gameState) == Playing && KeyToMove(key).Some? ==>
        var m := KeyToMove(key).value;
        && gameState == Playing
        && Local(role).View() == PredictMove(old(Local(role).View()), m.direction, m.dx, m.dy)
        && Remote(role).View() == old(Remote(role).View())
        && sent == (if old(Local(role).isMoving) || !connected then None
                    else Some(MoveIntent(m.direction, m.dx, m.dy, role)))
      ensures old(gameState) == Playing && key == "Escape" ==>
        sent == None && gameState == Paused && View() == old(View())
      ensures old(gameState) == Playing && KeyToMove(key).None? && key != "Escape" ==>
        sent == None && gameState == Playing && View() == old(View())
    {
      if gameState != Playing {
        return None;
      }
      if key == "Escape" {
        TogglePause();
      }
      var move := KeyToMove(key);
      if move.Some? {
        sent := SendMoveCommand(move.value.direction, move.value.dx, move.value.dy, role, connected);
      } else {
        sent := None;
      }
    }

    /** The optimistic local move, and the message sent to the server. */
    method SendMoveCommand(direction: string, dx: int, dy: int, role: Sessions.Role, connected: bool)
      returns (sent: Option<MoveIntent>)
      requires Valid()
      modifies player1, player2
      ensures Valid()
      ensures Local(role).View() == PredictMove(old(Local(role).View()), direction, dx, dy)
      ensures Remote(role).View() == old(Remote(role).View())
      ensures sent == if old(Local(role).isMoving) || !connected then None
                      else Some(MoveIntent(direction, dx, dy, role))
    {
      var localPlayer := if role == Sessions.Host then player1 else player2;
      localPlayer.direction := direction;
      if localPlayer.isMoving {
        return None;
      }
      var newGridX := Max(0, Min(12, localPlayer.gridX + dx));
      var newGridY := Max(0, Min(12, localPlayer.gridY + dy));
      if newGridX != localPlayer.gridX || newGridY != localPlayer.gridY {
        localPlayer.gridX := newGridX;
        localPlayer.gridY := newGridY;
        localPlayer.targetX := (newGridX * 64) as real;
        localPlayer.targetY := (newGridY * 64) as real;
      }
      if connected {
        sent := Some(MoveIntent(direction, dx, dy, role));
      } else {
        sent := None;
      }
    }

    /** A `player-moved` event from the server: the client's own move is
        ignored, the other player's cell and facing are applied. */
    method OnPlayerMove(playerId: string, x: int, y: int, direction: string,
                        localId: string, role: Sessions.Role)
      requires Valid()
      modifies player1, player2
      ensures Valid()
      ensures playerId == localId ==> View() == old(View())
      ensures playerId != localId ==>
        && Remote(role).View() == ApplyRemote(old(Remote(role).View()), x, y, direction)
        && Local(role).View() == old(Local(role).View())
    {
      if playerId == localId {
        return;
      }
      var player := if role == Sessions.Host then player2 else player1;
      player.gridX := x;
      player.gridY := y;
      player.direction := direction;
      player.targetX := (x * 64) as real;
      player.targetY := (y * 64) as real;
    }

    /** The state change of `togglePause`; the toasts are not modelled. */
    method TogglePause()
      modifies this`gameState
      ensures old(gameState) == Playing ==> gameState == Paused
      ensures old(gameState) == Paused ==> gameState == Playing
      ensures old(gameState) !in {Playing, Paused} ==> gameState == old(gameState)
    {
      if gameState == Playing {
        gameState := Paused;
      } else if gameState == Paused {
        gameState := Playing;
      }
    }
  }
}
