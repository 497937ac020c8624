/**
 * The client's per-frame and per-input rules as values: a tank's state as
 * the `players` objects hold it, one interpolation step toward the target,
 * one animation tick of the whole game, the optimistic local move, the
 * remote update from the server, and the key mapping. Class Client.Game in
 * game.dfy updates its objects exactly as these functions say.
 *
 * Visual coordinates are exact reals: targets are multiples of 64 and each
 * step moves by 1.5, so every visual coordinate is a multiple of 0.5.
 */
module Motion {
  import opened Wrappers
  import opened Grid
  import Sessions

  /** Pixels a tank moves per frame on each axis (`moveSpeed`). */
  const MoveSpeed: real := 1.5
  /** Milliseconds added to `animationTime` per frame. */
  const FrameMs: int := 16
  /** The animation frame flips after this many milliseconds while some
      tank moves, and after `IdleAnimPeriod` otherwise. */
  const MovingAnimPeriod: int := 150
  const IdleAnimPeriod: int := 500

  datatype TankView = TankView(
    gridX: int, gridY: int,
    visualX: real, visualY: real,
    targetX: real, targetY: real,
    direction: string,
    color: string,
    animFrame: int,
    isMoving: bool)

  datatype GameView = GameView(player1: TankView, player2: TankView, animationTime: int)

  /** A key's movement: the facing and the unit delta. */
  datatype MoveCommand = MoveCommand(direction: string, dx: int, dy: int)

  /** The `player-move` message the client emits. */
  datatype MoveIntent = MoveIntent(direction: string, dx: int, dy: int, playerRole: Sessions.Role)

  /** A tank at rest on cell (gx, gy), facing up. */
  function Spawned(gx: int, gy: int, color: string): TankView
  {
    TankView(gx, gy, CellToPixel(gx), CellToPixel(gy), CellToPixel(gx), CellToPixel(gy),
             "up", color, 0, false)
  }

  const Player1Start: TankView := Spawned(4, 12, "yellow")
  const Player2Start: TankView := Spawned(8, 12, "green")

  /** The target is the pixel corner of the grid cell, and the animation
      frame is 0 or 1. */
  predicate TankValid(t: TankView)
  {
    && t.targetX == CellToPixel(t.gridX)
    && t.targetY == CellToPixel(t.gridY)
    && 0 <= t.animFrame <= 1
  }

  predicate GameValid(g: GameView)
  {
    TankValid(g.player1) && TankValid(g.player2) && 0 <= g.animationTime <= IdleAnimPeriod
  }

  predicate Arrived(t: TankView)
  {
    t.visualX == t.targetX && t.visualY == t.targetY
  }

  function Abs(x: real): real
  {
    if x < 0.0 then -x else x
  }

  // ------------------------------------------------------ smooth movement

  /** One axis of `updateSmoothMovement`: move by `MoveSpeed` toward `t`, or
      snap to `t` when it is within `MoveSpeed`. The result lies between the
      start and the target, and the distance shrinks by exactly `MoveSpeed`
      or drops to zero. */
  function StepAxis(v: real, t: real): (r: real)
    ensures v <= t ==> v <= r <= t
    ensures t <= v ==> t <= r <= v
    ensures Abs(t - r) <= Abs(t - v)
    ensures Abs(t - v) > MoveSpeed ==> Abs(t - r) == Abs(t - v) - MoveSpeed
    ensures Abs(t - v) <= MoveSpeed ==> r == t
  {
    var d := t - v;
    if Abs(d) > MoveSpeed then (if d > 0.0 then v + MoveSpeed else v - MoveSpeed) else t
  }

  /** `updateSmoothMovement` on one tank. Only the visual position and
      `isMoving` change; each visual coordinate takes one `StepAxis` toward
      its target, and afterwards `isMoving` holds exactly when the tank has
      not yet reached its target. */
  function SmoothStep(t: TankView): (r: TankView)
    ensures r.(visualX := t.visualX, visualY := t.visualY, isMoving := t.isMoving) == t
    ensures r.visualX == StepAxis(t.visualX, t.targetX) && r.visualY == StepAxis(t.visualY, t.targetY)
    ensures r.isMoving <==> !Arrived(r)
    ensures Abs(r.targetX - r.visualX) <= Abs(t.targetX - t.visualX)
    ensures Abs(r.targetY - r.visualY) <= Abs(t.targetY - t.visualY)
  {
    if t.visualX != t.targetX || t.visualY != t.targetY then
      var x := StepAxis(t.visualX, t.targetX);
      var y := StepAxis(t.visualY, t.targetY);
      t.(visualX := x, visualY := y, isMoving := !(x == t.targetX && y == t.targetY))
    else
      t.(isMoving := false)
  }

  /** `n` frames of smooth movement. */
  function Frames(t: TankView, n: nat): (r: TankView)
    ensures r.(visualX := t.visualX, visualY := t.visualY, isMoving := t.isMoving) == t
    ensures Abs(r.targetX - r.visualX) <= Abs(t.targetX - t.visualX)
    ensures Abs(r.targetY - r.visualY) <= Abs(t.targetY - t.visualY)
    decreases n
  {
    if n == 0 then t else Frames(SmoothStep(t), n - 1)
  }

  /** A tank reaches its target within `ceil(max(|dx|, |dy|) / 1.5)` frames
      and, after at least one frame, is no longer moving. */
  lemma {:induction false} FramesReachTarget(t: TankView, n: nat)
    requires n as real * MoveSpeed >= Abs(t.targetX - t.visualX)
    requires n as real * MoveSpeed >= Abs(t.targetY - t.visualY)
    ensures Arrived(Frames(t, n))
    ensures n > 0 ==> !Frames(t, n).isMoving
    decreases n
  {
    if n > 0 {
      var t1 := SmoothStep(t);
      FramesReachTarget(t1, n - 1);
    }
  }

  /** A tank that has not arrived needs more than `dist / 1.5 - 1` frames:
      each frame closes at most `MoveSpeed` of the distance on each axis. */
  lemma {:induction false} FramesAtMostSpeed(t: TankView, n: nat)
    ensures Abs(Frames(t, n).targetX - Frames(t, n).visualX) >= Abs(t.targetX - t.visualX) - n as real * MoveSpeed
    ensures Abs(Frames(t, n).targetY - Frames(t, n).visualY) >= Abs(t.targetY - t.visualY) - n as real * MoveSpeed
    decreases n
  {
    if n > 0 {
      var t1 := SmoothStep(t);
      FramesAtMostSpeed(t1, n - 1);
    }
  }

  // ------------------------------------------------------------ animation

  function NextAnimFrame(f: int): int
  {
    (f + 1) % 2
  }

  /** `update`: advance the clock by one frame, move both tanks, and when
      the clock passes the period (150 ms if a tank moves, 500 ms if not)
      flip both animation frames and reset the clock. */
  function UpdateFrame(g: GameView): GameView
  {
    var p1 := SmoothStep(g.player1);
    var p2 := SmoothStep(g.player2);
    var time := g.animationTime + FrameMs;
    var period := if p1.isMoving || p2.isMoving then MovingAnimPeriod else IdleAnimPeriod;
    if time > period then
      GameView(p1.(animFrame := NextAnimFrame(p1.animFrame)),
               p2.(animFrame := NextAnimFrame(p2.animFrame)), 0)
    else
      GameView(p1, p2, time)
  }

  /** A frame keeps both animation frames in {0, 1} and the clock in
      [0, 500]; the clock is reset exactly when it passes the period, and
      the animation frames flip exactly then; otherwise the clock advances
      by one frame. */
  lemma UpdateFrameKeeps(g: GameView)
    requires GameValid(g)
    ensures GameValid(UpdateFrame(g))
    ensures var moving := SmoothStep(g.player1).isMoving || SmoothStep(g.player2).isMoving;
      var passed := g.animationTime + FrameMs > (if moving then 150 else 500);
      && (UpdateFrame(g).animationTime == 0 <==> passed)
      && (!passed ==> UpdateFrame(g).animationTime == g.animationTime + FrameMs)
      && (UpdateFrame(g).player1.animFrame != g.player1.animFrame <==> passed)
      && (UpdateFrame(g).player2.animFrame != g.player2.animFrame <==> passed)
  {
  }

  // ---------------------------------------------------------------- input

  /** The arrow keys of `handleKeyDown` as moves; every other key gives no
      move. Each arrow key gives its own facing and a one-cell step along
      one axis, named by its facing. */
  function KeyToMove(key: string): (m: Option<MoveCommand>)
    ensures m.Some? <==> key in {"ArrowUp", "ArrowDown", "ArrowLeft", "ArrowRight"}
    ensures key == "ArrowUp" <==> m == Some(MoveCommand("up", 0, -1))
    ensures key == "ArrowDown" <==> m == Some(MoveCommand("down", 0, 1))
    ensures key == "ArrowLeft" <==> m == Some(MoveCommand("left", -1, 0))
    ensures key == "ArrowRight" <==> m == Some(MoveCommand("right", 1, 0))
    ensures m.Some? ==> m.value.dx * m.value.dx + m.value.dy * m.value.dy == 1
    ensures m.Some? ==> (m.value.direction == "up" <==> m.value.dy == -1)
    ensures m.Some? ==> (m.value.direction == "down" <==> m.value.dy == 1)
    ensures m.Some? ==> (m.value.direction == "left" <==> m.value.dx == -1)
    ensures m.Some? ==> (m.value.direction == "right" <==> m.value.dx == 1)
  {
    if key == "ArrowUp" then Some(MoveCommand("up", 0, -1))
    else if key == "ArrowDown" then Some(MoveCommand("down", 0, 1))
    else if key == "ArrowLeft" then Some(MoveCommand("left", -1, 0))
    else if key == "ArrowRight" then Some(MoveCommand("right", 1, 0))
    else None
  }

  /** `sendMoveCommand` on the local tank: the facing always changes; a
      tank still interpolating keeps its cell and target; otherwise the cell
      becomes the clamped neighbour and the target its pixel corner. The
      visual position is left to the animation. */
  function PredictMove(t: TankView, direction: string, dx: int, dy: int): (r: TankView)
    requires TankValid(t)
    ensures TankValid(r)
    ensures r.direction == direction
    ensures t.isMoving ==> r == t.(direction := direction)
    ensures !t.isMoving ==> r.gridX == Clamp(t.gridX + dx) && r.gridY == Clamp(t.gridY + dy)
    ensures GridToPixel(r.gridX, r.gridY) == Pixel(r.targetX, r.targetY)
    ensures r.(gridX := t.gridX, gridY := t.gridY, targetX := t.targetX, targetY := t.targetY,
               direction := t.direction) == t
  {
    var turned := t.(direction := direction);
    if t.isMoving then turned
    else
      var newGridX := Clamp(t.gridX + dx);
      var newGridY := Clamp(t.gridY + dy);
      if newGridX != t.gridX || newGridY != t.gridY then
        turned.(gridX := newGridX, gridY := newGridY,
                targetX := CellToPixel(newGridX), targetY := CellToPixel(newGridY))
      else turned
  }

  /** `onPlayerMove` on the remote tank: the server's cell and facing are
      taken as they are, and the target becomes a pixel position that
      converts back to exactly that cell. */
  function ApplyRemote(t: TankView, x: int, y: int, direction: string): (r: TankView)
    ensures TankValid(t) ==> TankValid(r)
    ensures r.gridX == x && r.gridY == y && r.direction == direction
    ensures PixelToGrid(r.targetX, r.targetY) == Cell(x, y)
    ensures r.(gridX := t.gridX, gridY := t.gridY, targetX := t.targetX, targetY := t.targetY,
               direction := t.direction) == t
  {
    PixelToGridInverse(x, y);
    t.(gridX := x, gridY := y, direction := direction,
       targetX := CellToPixel(x), targetY := CellToPixel(y))
  }
}
