/** The layer kernels as they run: hidden arrays in row-major order, updated in place. */
module Kernels {
  import opened Arith
  import opened Geometry
  import opened Network
  import opened Sequential
  import opened ShardedLayer

  function Cells(g: Size): int {
    g.h * g.w
  }

  function Index(g: Size, c: Cell): int {
    c.y * g.w + c.x
  }

  lemma IndexInRange(g: Size, c: Cell)
    requires InGrid(g, c)
    ensures 0 <= Index(g, c) < Cells(g)
  {
    TimesMonotone(g.w, c.y + 1, g.h);
    TimesMonotone(g.w, 0, c.y);
    Distribute(c.y, 1, g.w);
  }

  lemma IndexInjective(g: Size, c: Cell, k: Cell)
    requires InGrid(g, c) && InGrid(g, k) && c != k
    ensures Index(g, c) != Index(g, k)
  {
    if c.y < k.y {
      TimesMonotone(g.w, c.y + 1, k.y);
      Distribute(c.y, 1, g.w);
    } else if k.y < c.y {
      TimesMonotone(g.w, k.y + 1, c.y);
      Distribute(k.y, 1, g.w);
    }
  }

  /** The array a holds the plane h on grid g. */
  ghost predicate Shows<T(!new)>(a: array<T>, g: Size, h: Cell -> T)
    requires a.Length == Cells(g)
    reads a
  {
    forall c :: InGrid(g, c) ==> 0 <= Index(g, c) < a.Length && a[Index(g, c)] == h(c)
  }

  /** One write to an array is one change of the plane. */
  method Store<T(!new)>(a: array<T>, g: Size, idx: int, x: T, ghost c: Cell, ghost h: Cell -> T, ghost h': Cell -> T)
    requires a.Length == Cells(g) && InGrid(g, c) && idx == Index(g, c) && Shows(a, g, h)
    requires h'(c) == x && forall k :: k != c ==> h'(k) == h(k)
    modifies a
    ensures Shows(a, g, h')
  {
    IndexInRange(g, c);
    a[idx] := x;
    forall k | InGrid(g, k) ensures 0 <= Index(g, k) < a.Length && a[Index(g, k)] == h'(k) {
      IndexInRange(g, k);
      if k != c { IndexInjective(g, c, k); }
    }
  }

  /** One touch of a tdrop byte, a uint8_t that wraps, and whether it passes. */
  method TouchByte(a: array<nat>, g: Size, window: nat, c: Cell, ghost m: Bytes) returns (pass: bool)
    requires a.Length == Cells(g) && InGrid(g, c) && Shows(a, g, m)
    modifies a
    ensures Shows(a, g, Bump(m, c)) && pass == Passes(window, m(c))
  {
    IndexInRange(g, c);
    var pre := a[Index(g, c)];
    Store(a, g, Index(g, c), (pre + 1) % 256, c, m, Bump(m, c));
    if window <= 1 { return true; }
    return pre % window == 0;
  }

  // ---- layer_forward_ct ----

  /** The plane when positions p and above have been processed. */
  function DownTo(l: Layer, g: Size, ev: Cell, f: Feat, h: Plane, p: nat): Plane {
    (c: Cell) => if Touches(l, g, ev, c) && PositionOf(l, ev, c) >= p then l.lru(PositionOf(l, ev, c), f, h(c))
      else h(c)
  }

  method ProcessPatch(n: Net, l: Layer, a: array<Hid>, g: Size, ev: Cell, f: Feat, idx: int, p: nat, acc: Feat,
      ghost h: Plane)
    returns (acc': Feat)
    requires a.Length == Cells(g) && InGrid(g, ev) && p < Positions(l)
    requires InGrid(g, Spot(l, ev, p)) && idx == Index(g, Spot(l, ev, p))
    requires Shows(a, g, DownTo(l, g, ev, f, h, p + 1)) && acc == Gather(n, l, g, ev, f, h, p + 1)
    modifies a
    ensures Shows(a, g, DownTo(l, g, ev, f, h, p)) && acc' == Gather(n, l, g, ev, f, h, p)
  {
    ghost var c := Spot(l, ev, p);
    hide DownTo, Spot;
    IndexInRange(g, c);
    DownToNext(l, g, ev, f, h, p, c);
    assert a[idx] == DownTo(l, g, ev, f, h, p + 1)(c) == h(c);
    var cell := l.lru(p, f, a[idx]);
    forall k | k != c ensures DownTo(l, g, ev, f, h, p)(k) == DownTo(l, g, ev, f, h, p + 1)(k) {
      DownToNext(l, g, ev, f, h, p, k);
    }
    Store(a, g, idx, cell, c, DownTo(l, g, ev, f, h, p + 1), DownTo(l, g, ev, f, h, p));
    acc' := n.add(acc, l.emit(p, f, cell));
  }

  /** One more position done: its cell takes its step, no other changes. */
  lemma DownToNext(l: Layer, g: Size, ev: Cell, f: Feat, h: Plane, p: nat, c: Cell)
    requires p < Positions(l) && InGrid(g, Spot(l, ev, p))
    ensures DownTo(l, g, ev, f, h, p)(c) ==
      if c == Spot(l, ev, p) then l.lru(p, f, h(c)) else DownTo(l, g, ev, f, h, p + 1)(c)
    ensures c == Spot(l, ev, p) ==> DownTo(l, g, ev, f, h, p + 1)(c) == h(c)
  {
    SpotIsTouched(l, g, ev, p);
    hide Touches, PositionOf, Spot;
    if Touches(l, g, ev, c) { PositionIsSpot(l, g, ev, c); }
  }

  /** A position off the grid changes nothing. */
  lemma SkipPatch(n: Net, l: Layer, g: Size, ev: Cell, f: Feat, h: Plane, p: nat)
    requires p < Positions(l) && !InGrid(g, Spot(l, ev, p))
    ensures Gather(n, l, g, ev, f, h, p) == Gather(n, l, g, ev, f, h, p + 1)
    ensures SamePlane(DownTo(l, g, ev, f, h, p), DownTo(l, g, ev, f, h, p + 1))
  {
    hide Touches, PositionOf, Spot;
    forall c ensures DownTo(l, g, ev, f, h, p)(c) == DownTo(l, g, ev, f, h, p + 1)(c) {
      if Touches(l, g, ev, c) {
        PositionIsSpot(l, g, ev, c);
        TouchedInGrid(l, g, ev, c);
      }
    }
  }

  lemma TouchedInGrid(l: Layer, g: Size, ev: Cell, c: Cell)
    requires Touches(l, g, ev, c)
    ensures InGrid(g, c)
  {
  }

  /** Before the first position nothing has changed, after the last one the layer is done. */
  lemma DownToEnds(n: Net, l: Layer, g: Size, ev: Cell, f: Feat, h: Plane)
    ensures Gather(n, l, g, ev, f, h, Positions(l)) == n.zero
    ensures SamePlane(DownTo(l, g, ev, f, h, Positions(l)), h)
    ensures SamePlane(DownTo(l, g, ev, f, h, 0), Refresh(l, g, ev, f, h))
  {
    forall c ensures DownTo(l, g, ev, f, h, Positions(l))(c) == h(c) {
      if Touches(l, g, ev, c) { PositionIsSpot(l, g, ev, c); }
    }
  }

  predicate Interior(g: Size, ev: Cell) {
    ev.x > 0 && ev.x + 1 < g.w && ev.y > 0 && ev.y + 1 < g.h
  }

  method LayerForward(n: Net, l: Layer, a: array<Hid>, g: Size, ev: Cell, f: Feat, ghost h: Plane) returns (out: Feat)
    requires a.Length == Cells(g) && InGrid(g, ev) && Shows(a, g, h)
    modifies a
    ensures Shows(a, g, Refresh(l, g, ev, f, h)) && out == Forward(n, l, g, ev, f, h)
  {
    hide DownTo, Index, Gather, Refresh, Cells;
    var acc := n.zero;
    var base := Index(g, ev);
    DownToEnds(n, l, g, ev, f, h);
    if !l.wide {
      acc := ProcessPatch(n, l, a, g, ev, f, base, 0, acc, h);
    } else if Interior(g, ev) {
      acc := InteriorPatches(n, l, a, g, ev, f, base, h);
    } else {
      acc := BorderPatches(n, l, a, g, ev, f, h);
    }
    out := l.finish(f, acc);
  }

  lemma WindowIndex(g: Size, ev: Cell, p: nat, dy: int, dx: int)
    requires Interior(g, ev) && p < 9 && dy == 1 - p / 3 && dx == 1 - p % 3
    ensures InGrid(g, PatchCell(ev, p)) && Index(g, PatchCell(ev, p)) == Index(g, ev) + dy * g.w + dx
  {
    Distribute(ev.y, dy, g.w);
  }

  /** One of the nine cells around an interior event. */
  method WindowPatch(n: Net, l: Layer, a: array<Hid>, g: Size, ev: Cell, f: Feat, idx: int, p: nat, acc: Feat,
      ghost h: Plane)
    returns (acc': Feat)
    requires a.Length == Cells(g) && l.wide && InGrid(g, ev) && Interior(g, ev) && p < 9
    requires idx == Index(g, ev) + (1 - p / 3) * g.w + (1 - p % 3)
    requires Shows(a, g, DownTo(l, g, ev, f, h, p + 1)) && acc == Gather(n, l, g, ev, f, h, p + 1)
    modifies a
    ensures Shows(a, g, DownTo(l, g, ev, f, h, p)) && acc' == Gather(n, l, g, ev, f, h, p)
  {
    WindowIndex(g, ev, p, 1 - p / 3, 1 - p % 3);
    acc' := ProcessPatch(n, l, a, g, ev, f, idx, p, acc, h);
  }

  method InteriorPatches(n: Net, l: Layer, a: array<Hid>, g: Size, ev: Cell, f: Feat, base: int, ghost h: Plane)
      returns (acc: Feat)
    requires a.Length == Cells(g) && l.wide && InGrid(g, ev) && Interior(g, ev) && base == Index(g, ev)
      && Shows(a, g, h)
    modifies a
    ensures Shows(a, g, DownTo(l, g, ev, f, h, 0)) && acc == Gather(n, l, g, ev, f, h, 0)
  {
    hide DownTo, Gather, Refresh, Index, Cells;
    var w := g.w;
    DownToEnds(n, l, g, ev, f, h);
    acc := WindowPatch(n, l, a, g, ev, f, base - w - 1, 8, n.zero, h);
    acc := WindowPatch(n, l, a, g, ev, f, base - w, 7, acc, h);
    acc := WindowPatch(n, l, a, g, ev, f, base - w + 1, 6, acc, h);
    acc := WindowPatch(n, l, a, g, ev, f, base - 1, 5, acc, h);
    acc := WindowPatch(n, l, a, g, ev, f, base, 4, acc, h);
    acc := WindowPatch(n, l, a, g, ev, f, base + 1, 3, acc, h);
    acc := WindowPatch(n, l, a, g, ev, f, base + w - 1, 2, acc, h);
    acc := WindowPatch(n, l, a, g, ev, f, base + w, 1, acc, h);
    acc := WindowPatch(n, l, a, g, ev, f, base + w + 1, 0, acc, h);
  }

  lemma BorderSpot(l: Layer, ev: Cell, dy: int, dx: int)
    requires l.wide && -1 <= dy <= 1 && -1 <= dx <= 1
    ensures Spot(l, ev, (1 - dy) * 3 + (1 - dx)) == Cell(ev.x + dx, ev.y + dy)
  {
  }

  /** A whole row off the grid. */
  lemma SkipRow(n: Net, l: Layer, g: Size, ev: Cell, f: Feat, h: Plane, dy: int)
    requires l.wide && -1 <= dy <= 1 && !(0 <= ev.y + dy < g.h)
    ensures Gather(n, l, g, ev, f, h, (1 - dy) * 3) == Gather(n, l, g, ev, f, h, (2 - dy) * 3)
    ensures SamePlane(DownTo(l, g, ev, f, h, (1 - dy) * 3), DownTo(l, g, ev, f, h, (2 - dy) * 3))
  {
    hide Spot, Gather, DownTo;
    BorderSpot(l, ev, dy, -1);
    BorderSpot(l, ev, dy, 0);
    BorderSpot(l, ev, dy, 1);
    SkipPatch(n, l, g, ev, f, h, (1 - dy) * 3 + 2);
    SkipPatch(n, l, g, ev, f, h, (1 - dy) * 3 + 1);
    SkipPatch(n, l, g, ev, f, h, (1 - dy) * 3);
  }

  method BorderPatches(n: Net, l: Layer, a: array<Hid>, g: Size, ev: Cell, f: Feat, ghost h: Plane) returns (acc: Feat)
    requires a.Length == Cells(g) && l.wide && InGrid(g, ev) && Shows(a, g, h)
    modifies a
    ensures Shows(a, g, DownTo(l, g, ev, f, h, 0)) && acc == Gather(n, l, g, ev, f, h, 0)
  {
    hide DownTo, Gather, Refresh, Cells, Spot;
    acc := n.zero;
    DownToEnds(n, l, g, ev, f, h);
    for dy := -1 to 2
      invariant Shows(a, g, DownTo(l, g, ev, f, h, (2 - dy) * 3)) && acc == Gather(n, l, g, ev, f, h, (2 - dy) * 3)
    {
      var py := ev.y + dy;
      if py < 0 || py >= g.h {
        SkipRow(n, l, g, ev, f, h, dy);
        continue;
      }
      for dx := -1 to 2
        invariant Shows(a, g, DownTo(l, g, ev, f, h, (1 - dy) * 3 + 2 - dx))
          && acc == Gather(n, l, g, ev, f, h, (1 - dy) * 3 + 2 - dx)
      {
        var px := ev.x + dx;
        var delta := (1 - dy) * 3 + (1 - dx);
        BorderSpot(l, ev, dy, dx);
        if px < 0 || px >= g.w {
          SkipPatch(n, l, g, ev, f, h, delta);
          continue;
        }
        acc := ProcessPatch(n, l, a, g, ev, f, py * g.w + px, delta, acc, h);
      }
    }
  }

  // ---- the state-only variant: the hidden cells move on, no output is made ----

  method UpdatePatch(l: Layer, a: array<Hid>, g: Size, ev: Cell, f: Feat, idx: int, p: nat, ghost h: Plane)
    requires a.Length == Cells(g) && l.wide && Interior(g, ev) && p < 9
    requires idx == Index(g, ev) + (1 - p / 3) * g.w + (1 - p % 3)
    requires Shows(a, g, DownTo(l, g, ev, f, h, p + 1))
    modifies a
    ensures Shows(a, g, DownTo(l, g, ev, f, h, p))
  {
    WindowIndex(g, ev, p, 1 - p / 3, 1 - p % 3);
    ghost var c := Spot(l, ev, p);
    hide DownTo, Spot;
    IndexInRange(g, c);
    DownToNext(l, g, ev, f, h, p, c);
    assert a[idx] == DownTo(l, g, ev, f, h, p + 1)(c) == h(c);
    var cell := l.lru(p, f, a[idx]);
    forall k | k != c ensures DownTo(l, g, ev, f, h, p)(k) == DownTo(l, g, ev, f, h, p + 1)(k) {
      DownToNext(l, g, ev, f, h, p, k);
    }
    Store(a, g, idx, cell, c, DownTo(l, g, ev, f, h, p + 1), DownTo(l, g, ev, f, h, p));
  }

  method InteriorStateOnly(n: Net, l: Layer, a: array<Hid>, g: Size, ev: Cell, f: Feat, ghost h: Plane)
    requires a.Length == Cells(g) && l.wide && InGrid(g, ev) && Interior(g, ev) && Shows(a, g, h)
    modifies a
    ensures Shows(a, g, Refresh(l, g, ev, f, h))
  {
    var base := Index(g, ev);
    DownToEnds(n, l, g, ev, f, h);
    for i := 0 to 9
      invariant Shows(a, g, DownTo(l, g, ev, f, h, 9 - i))
    {
      var p := 8 - i;
      UpdatePatch(l, a, g, ev, f, base + (1 - p / 3) * g.w + (1 - p % 3), p, h);
    }
  }

  // ---- compute_patch_indices and shard_layer_forward_ct ----

  /** -1 marks a position off the grid. */
  function PatchIndex(g: Size, ev: Cell, p: nat): (idx: int)
    ensures idx < 0 <==> !InGrid(g, PatchCell(ev, p))
  {
    var c := PatchCell(ev, p);
    if InGrid(g, c) then
      IndexInRange(g, c);
      Index(g, c)
    else -1
  }

  method ComputePatchIndices(g: Size, ev: Cell) returns (patches: array<int>)
    requires InGrid(g, ev)
    ensures fresh(patches) && patches.Length == 9
    ensures forall p: nat :: p < 9 ==> patches[p] == PatchIndex(g, ev, p)
  {
    patches := new int[9];
    if Interior(g, ev) {
      InteriorIndices(g, ev, patches);
    } else {
      BorderIndices(g, ev, patches);
    }
  }

  method InteriorIndices(g: Size, ev: Cell, patches: array<int>)
    requires InGrid(g, ev) && Interior(g, ev) && patches.Length == 9
    modifies patches
    ensures forall p: nat :: p < 9 ==> patches[p] == PatchIndex(g, ev, p)
  {
    hide Index, PatchCell;
    var base, w := Index(g, ev), g.w;
    patches[8] := base - w - 1;
    patches[7] := base - w;
    patches[6] := base - w + 1;
    patches[5] := base - 1;
    patches[4] := base;
    patches[3] := base + 1;
    patches[2] := base + w - 1;
    patches[1] := base + w;
    patches[0] := base + w + 1;
    forall p: nat | p < 9 ensures patches[p] == PatchIndex(g, ev, p) { WindowIndex(g, ev, p, 1 - p / 3, 1 - p % 3); }
  }

  method BorderIndices(g: Size, ev: Cell, patches: array<int>)
    requires InGrid(g, ev) && patches.Length == 9
    modifies patches
    ensures forall p: nat :: p < 9 ==> patches[p] == PatchIndex(g, ev, p)
  {
    hide PatchIndex;
    for p := 0 to 9
      invariant forall q :: 0 <= q < p ==> patches[q] == -1
    {
      patches[p] := -1;
    }
    for dy := -1 to 2
      invariant forall p: nat :: p < 9 ==> patches[p] == if p >= (2 - dy) * 3 then PatchIndex(g, ev, p) else -1
    {
      var py := ev.y + dy;
      IndexAt(g, ev, dy, -1);
      IndexAt(g, ev, dy, 0);
      IndexAt(g, ev, dy, 1);
      if py < 0 || py >= g.h { continue; }
      for dx := -1 to 2
        invariant forall p: nat :: p < 9 ==> patches[p] == if p >= (1 - dy) * 3 + 2 - dx then PatchIndex(g, ev, p)
          else -1
      {
        var px := ev.x + dx;
        if px < 0 || px >= g.w { continue; }
        var delta := (1 - dy) * 3 + (1 - dx);
        patches[delta] := py * g.w + px;
      }
    }
  }

  /** The entry that the step (dx, dy) fills, if it stays on the grid. */
  lemma IndexAt(g: Size, ev: Cell, dy: int, dx: int)
    requires -1 <= dy <= 1 && -1 <= dx <= 1
    ensures var px, py := ev.x + dx, ev.y + dy;
      PatchIndex(g, ev, (1 - dy) * 3 + (1 - dx)) == if 0 <= px < g.w && 0 <= py < g.h then py * g.w + px else -1
  {
    var p := (1 - dy) * 3 + (1 - dx);
    assert p / 3 == 1 - dy && p % 3 == 1 - dx;
  }

  /** The plane when the owned positions below p have been processed. */
  function UpTo(l: Layer, g: Size, own: set<nat>, ev: Cell, f: Feat, h: Plane, p: nat): Plane {
    (c: Cell) => if Touches(l, g, ev, c) && PositionOf(l, ev, c) < p && PositionOf(l, ev, c) in own
                 then l.lru(PositionOf(l, ev, c), f, h(c)) else h(c)
  }

  /** An owned position inside the grid takes its step, any other position changes nothing. */
  lemma UpToStep(l: Layer, g: Size, own: set<nat>, ev: Cell, f: Feat, h: Plane, p: nat)
    requires p < Positions(l)
    ensures var c := Spot(l, ev, p);
      if p in own && InGrid(g, c) then
        && UpTo(l, g, own, ev, f, h, p)(c) == h(c)
        && UpTo(l, g, own, ev, f, h, p + 1)(c) == l.lru(p, f, h(c))
        && forall k :: k != c ==> UpTo(l, g, own, ev, f, h, p + 1)(k) == UpTo(l, g, own, ev, f, h, p)(k)
      else SamePlane(UpTo(l, g, own, ev, f, h, p + 1), UpTo(l, g, own, ev, f, h, p))
  {
    var c := Spot(l, ev, p);
    if InGrid(g, c) { SpotIsTouched(l, g, ev, p); }
    hide Spot, PositionOf, Touches;
    forall k | k != c || !(p in own && InGrid(g, c))
      ensures UpTo(l, g, own, ev, f, h, p + 1)(k) == UpTo(l, g, own, ev, f, h, p)(k)
    {
      if Touches(l, g, ev, k) {
        PositionIsSpot(l, g, ev, k);
        TouchedInGrid(l, g, ev, k);
      }
    }
  }

  lemma UpToEnds(l: Layer, g: Size, own: set<nat>, ev: Cell, f: Feat, h: Plane)
    ensures SamePlane(UpTo(l, g, own, ev, f, h, 0), h)
    ensures SamePlane(UpTo(l, g, own, ev, f, h, Positions(l)), ShardRefresh(l, g, own, ev, f, h))
  {
    hide PositionOf, Touches;
    forall c ensures UpTo(l, g, own, ev, f, h, Positions(l))(c) == ShardRefresh(l, g, own, ev, f, h)(c) {
      if Touches(l, g, ev, c) { PositionIsSpot(l, g, ev, c); }
    }
  }

  method ShardLayerForward(n: Net, l: Layer, a: array<Hid>, g: Size, own: set<nat>, ev: Cell, f: Feat, ghost h: Plane)
    returns (partial: Feat)
    requires a.Length == Cells(g) && InGrid(g, ev) && Shows(a, g, h)
    modifies a
    ensures Shows(a, g, ShardRefresh(l, g, own, ev, f, h))
    ensures partial == ShardGather(n, l, g, own, ev, f, h, Positions(l))
  {
    hide UpTo, ShardRefresh, Touches, Cells;
    partial := n.zero;
    UpToEnds(l, g, own, ev, f, h);
    if !l.wide {
      UpToStep(l, g, own, ev, f, h, 0);
      if 0 in own {
        partial := ShardPatch(n, l, a, g, own, ev, f, Index(g, ev), 0, partial, h);
      }
      return;
    }
    var patches := ComputePatchIndices(g, ev);
    for p := 0 to 9
      invariant forall q: nat :: q < 9 ==> patches[q] == PatchIndex(g, ev, q)
      invariant Shows(a, g, UpTo(l, g, own, ev, f, h, p)) && partial == ShardGather(n, l, g, own, ev, f, h, p)
    {
      UpToStep(l, g, own, ev, f, h, p);
      if p !in own { continue; }
      if patches[p] < 0 { continue; }
      partial := ShardPatch(n, l, a, g, own, ev, f, patches[p], p, partial, h);
    }
  }

  method ShardPatch(n: Net, l: Layer, a: array<Hid>, g: Size, own: set<nat>, ev: Cell, f: Feat, idx: int, p: nat,
      acc: Feat, ghost h: Plane)
    returns (acc': Feat)
    requires a.Length == Cells(g) && p < Positions(l) && p in own
    requires InGrid(g, Spot(l, ev, p)) && idx == Index(g, Spot(l, ev, p))
    requires Shows(a, g, UpTo(l, g, own, ev, f, h, p)) && acc == ShardGather(n, l, g, own, ev, f, h, p)
    modifies a
    ensures Shows(a, g, UpTo(l, g, own, ev, f, h, p + 1)) && acc' == ShardGather(n, l, g, own, ev, f, h, p + 1)
  {
    ghost var c := Spot(l, ev, p);
    UpToStep(l, g, own, ev, f, h, p);
    IndexInRange(g, c);
    assert a[idx] == h(c);
    var cell := l.lru(p, f, a[idx]);
    Store(a, g, idx, cell, c, UpTo(l, g, own, ev, f, h, p), UpTo(l, g, own, ev, f, h, p + 1));
    acc' := n.add(acc, l.emit(p, f, cell));
  }
}
