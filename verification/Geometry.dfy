/** Cells of a stage grid and the 3x3 window an event touches. */
module Geometry {
  datatype Cell = Cell(x: int, y: int)

  datatype Size = Size(w: int, h: int)

  predicate InGrid(g: Size, c: Cell) {
    0 <= c.x < g.w && 0 <= c.y < g.h
  }

  /** Grid of the next stage: every stage halves both sides. */
  function Halve(g: Size): Size {
    Size(g.w / 2, g.h / 2)
  }

  function Pool(c: Cell): Cell {
    Cell(c.x / 2, c.y / 2)
  }

  /** A pooled cell stands for a block of two by two. */
  lemma PoolIsBlock(c: Cell, d: Cell)
    ensures Pool(c) == d <==> 2 * d.x <= c.x <= 2 * d.x + 1 && 2 * d.y <= c.y <= 2 * d.y + 1
  {
  }

  /** The halved grid has the cells whose blocks lie inside. */
  lemma HalvedGrid(g: Size, d: Cell)
    ensures InGrid(Halve(g), d) <==> forall c :: Pool(c) == d ==> InGrid(g, c)
  {
    var low, high := Cell(2 * d.x, 2 * d.y), Cell(2 * d.x + 1, 2 * d.y + 1);
    assert Pool(low) == d && Pool(high) == d;
  }

  predicate Near(ev: Cell, c: Cell) {
    -1 <= c.x - ev.x <= 1 && -1 <= c.y - ev.y <= 1
  }

  /** Patch position of a cell in the window of `ev`: delta = (1 - dy) * 3 + (1 - dx). */
  function Delta(ev: Cell, c: Cell): nat {
    if Near(ev, c) then (1 - (c.y - ev.y)) * 3 + (1 - (c.x - ev.x)) else 0
  }

  /** The cell at patch position `p`: dx = 1 - p % 3, dy = 1 - p / 3. */
  function PatchCell(ev: Cell, p: nat): Cell {
    Cell(ev.x + 1 - p % 3, ev.y + 1 - p / 3)
  }

  /** Positions 0..8 and the nine window cells are in bijection. */
  lemma DeltaBijection(ev: Cell, c: Cell, p: nat)
    requires p < 9
    ensures Near(ev, PatchCell(ev, p)) && Delta(ev, PatchCell(ev, p)) == p
    ensures Near(ev, c) ==> Delta(ev, c) < 9 && PatchCell(ev, Delta(ev, c)) == c
  {
  }
}
