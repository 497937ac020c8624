/**
 * The coordinate contract shared by the server and the client: a 13x13 grid
 * of cells, 64 pixels to a cell, cells numbered 0..12 on both axes.
 */
module Grid {
  /** Pixels per cell (`gridSize`). */
  const GridSize: int := 64
  /** Cells per row and per column (`gridWidth`, `gridHeight`). */
  const GridWidth: int := 13
  const GridHeight: int := 13
  /** The largest cell coordinate the server accepts. */
  const MaxCell: int := 12

  datatype Pixel = Pixel(x: real, y: real)
  datatype Cell = Cell(x: int, y: int)

  function Min(a: int, b: int): int { if a <= b then a else b }
  function Max(a: int, b: int): int { if a >= b then a else b }

  /** `Math.max(0, Math.min(12, v))`: the cell nearest to `v` on the board. */
  function Clamp(v: int): (c: int)
    ensures 0 <= c <= MaxCell
    ensures 0 <= v <= MaxCell ==> c == v
    ensures v < 0 ==> c == 0
    ensures v > MaxCell ==> c == MaxCell
  {
    Max(0, Min(MaxCell, v))
  }

  /** The pixel coordinate of the top-left corner of cell `g` on one axis. */
  function CellToPixel(g: int): real
  {
    (g * GridSize) as real
  }

  function GridToPixel(gx: int, gy: int): Pixel
  {
    Pixel(CellToPixel(gx), CellToPixel(gy))
  }

  /** `Math.floor(p / gridSize)` on one axis. */
  function PixelToCell(p: real): int
  {
    (p / GridSize as real).Floor
  }

  function PixelToGrid(px: real, py: real): Cell
  {
    Cell(PixelToCell(px), PixelToCell(py))
  }

  /** The client's bounds check: the cell lies on the 13x13 board. */
  function IsValidGridPosition(x: int, y: int): (b: bool)
    ensures b <==> Clamp(x) == x && Clamp(y) == y
  {
    x >= 0 && x < GridWidth && y >= 0 && y < GridHeight
  }

  /** A pixel coordinate lies in cell `g` exactly when it is between the
      cell's corner and the next cell's corner. */
  lemma PixelInCell(p: real, g: int)
    ensures PixelToCell(p) == g <==> CellToPixel(g) <= p < CellToPixel(g + 1)
  {
    var q := p / 64.0;
    assert p == q * 64.0;
    assert CellToPixel(g) == g as real * 64.0;
    assert CellToPixel(g + 1) == (g + 1) as real * 64.0;
    if CellToPixel(g) <= p < CellToPixel(g + 1) {
      assert g as real <= q < (g + 1) as real;
    }
    if PixelToCell(p) == g {
      assert g as real <= q < (g + 1) as real;
    }
  }

  /** Converting a cell to pixels and back gives the same cell. */
  lemma PixelToGridInverse(gx: int, gy: int)
    ensures PixelToGrid(GridToPixel(gx, gy).x, GridToPixel(gx, gy).y) == Cell(gx, gy)
  {
    PixelInCell(CellToPixel(gx), gx);
    PixelInCell(CellToPixel(gy), gy);
  }
}
