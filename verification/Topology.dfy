/** How the stage-2 grid is cut into blocks, and which block is sent which event. */
module Topology {
  import opened Arith

  const HALO := 2

  /** Cells a middle strip owns when every processing width is to be the same. */
  function Middle(extent: int, n: nat): int
    requires n >= 1
  {
    (extent - 2 * HALO) / n
  }

  /** What is left over for the two end strips. */
  function Deficit(extent: int, n: nat): int
    requires n >= 1
  {
    extent - (2 * (Middle(extent, n) + HALO) + (n - 2) * Middle(extent, n))
  }

  /** Boundary i of the n strips. */
  function Boundary(extent: nat, n: nat, i: nat): int
    requires n >= 1 && i <= n
  {
    if i == 0 then 0
    else if i == n then extent
    else if n == 2 then extent / 2
    else if Middle(extent, n) < 1 then i * (extent / n)
    else Middle(extent, n) + HALO + Deficit(extent, n) / 2 + (i - 1) * Middle(extent, n)
  }

  lemma DeficitSmall(extent: nat, n: nat)
    requires n >= 3
    ensures Deficit(extent, n) == (extent - 2 * HALO) % n && 0 <= Deficit(extent, n) < n
  {
    Split(extent - 2 * HALO, n);
    Distribute(n, 2, Middle(extent, n));
  }

  /** _balanced_splits: strip after strip, adding up their sizes. */
  method BalancedSplits(extent: nat, n: nat) returns (splits: seq<int>)
    requires n >= 1
    ensures |splits| == n + 1 && forall i :: 0 <= i <= n ==> splits[i] == Boundary(extent, n, i)
  {
    if n == 1 { return [0, extent]; }
    if n == 2 { return [0, extent / 2, extent]; }
    var middle := (extent - 2 * HALO) / n;
    if middle < 1 {
      var size := extent / n;
      splits := [];
      for i := 0 to n + 1
        invariant |splits| == i && forall k :: 0 <= k < i ==> splits[k] == Boundary(extent, n, k)
      {
        splits := splits + [if i < n then i * size else extent];
      }
      return;
    }
    var corner := middle + HALO;
    var total := 2 * corner + (n - 2) * middle;
    var deficit := extent - total;
    var lower := deficit / 2;
    var upper := deficit - lower;
    splits := [0];
    var cur := 0;
    for i := 0 to n
      invariant |splits| == i + 1 && cur == splits[i] && forall k :: 0 <= k <= i ==> splits[k] == Boundary(extent, n, k)
    {
      var sz := if i == 0 then corner + lower else if i == n - 1 then corner + upper else middle;
      NextBoundary(extent, n, i);
      cur := cur + sz;
      splits := splits + [cur];
    }
  }

  /** Sizes of the strips in the balanced case. */
  lemma NextBoundary(extent: nat, n: nat, i: nat)
    requires n >= 3 && i < n && Middle(extent, n) >= 1
    ensures Boundary(extent, n, i + 1) - Boundary(extent, n, i)
         == if i == 0 then Middle(extent, n) + HALO + Deficit(extent, n) / 2
            else if i == n - 1 then Middle(extent, n) + HALO + (Deficit(extent, n) - Deficit(extent, n) / 2)
            else Middle(extent, n)
  {
    var m := Middle(extent, n);
    Distribute(i - 1, 1, m);
    Distribute(i, 1, m);
    assert (n - 2) * m == (n - 1 - 1) * m;
  }

  /** The boundaries go up from 0 to the extent. */
  lemma {:induction false} BoundariesAscend(extent: nat, n: nat, i: nat, j: nat)
    requires n >= 1 && i <= j <= n
    ensures 0 <= Boundary(extent, n, i) <= Boundary(extent, n, j) <= extent
    decreases j - i
  {
    if i < j {
      BoundariesAscend(extent, n, i + 1, j);
      StripNotNegative(extent, n, i);
      if i > 0 { BoundaryAtLeast(extent, n, i); }
    } else {
      BoundaryAtLeast(extent, n, i);
      BoundaryAtMost(extent, n, i);
    }
  }

  lemma StripNotNegative(extent: nat, n: nat, i: nat)
    requires n >= 1 && i < n
    ensures Boundary(extent, n, i) <= Boundary(extent, n, i + 1)
  {
    if n >= 3 {
      if Middle(extent, n) >= 1 {
        NextBoundary(extent, n, i);
        DeficitSmall(extent, n);
      } else {
        Split(extent, n);
        TimesMonotone(extent / n, i, i + 1);
        TimesMonotone(extent / n, i, n);
      }
    }
  }

  lemma {:induction false} BoundaryAtLeast(extent: nat, n: nat, i: nat)
    requires n >= 1 && i <= n
    ensures 0 <= Boundary(extent, n, i)
  {
    if i == 0 {
    } else {
      BoundaryAtLeast(extent, n, i - 1);
      StripNotNegative(extent, n, i - 1);
    }
  }

  lemma {:induction false} BoundaryAtMost(extent: nat, n: nat, i: nat)
    requires n >= 1 && i <= n
    ensures Boundary(extent, n, i) <= extent
    decreases n - i
  {
    if i < n {
      BoundaryAtMost(extent, n, i + 1);
      StripNotNegative(extent, n, i);
    }
  }

  // ---- every cell has one owner ----

  /** x lies in strip i, on the stage-2 grid (shift 1) or, halved, on the stage-3 grid (shift 2). */
  predicate InStrip(extent: nat, n: nat, shift: nat, i: nat, x: int)
    requires n >= 1 && i < n && shift >= 1
  {
    Boundary(extent, n, i) / shift <= x < Boundary(extent, n, i + 1) / shift
  }

  lemma {:induction false} FindStrip(extent: nat, n: nat, shift: nat, x: int, k: nat) returns (i: nat)
    requires n >= 1 && shift >= 1 && k <= n && 0 <= x < Boundary(extent, n, k) / shift
    ensures i < k && InStrip(extent, n, shift, i, x)
  {
    Unique(0, 0, 0, shift);
    if Boundary(extent, n, k - 1) / shift <= x { i := k - 1; } else { i := FindStrip(extent, n, shift, x, k - 1); }
  }

  /** The strips tile the axis, and so do the halved ones. */
  lemma OneStrip(extent: nat, n: nat, shift: nat, x: int)
    requires n >= 1 && shift >= 1
    ensures 0 <= x < extent / shift <==> exists i: nat :: i < n && InStrip(extent, n, shift, i, x)
    ensures forall i: nat, j: nat ::
      i < n && j < n && InStrip(extent, n, shift, i, x) && InStrip(extent, n, shift, j, x) ==> i == j
  {
    if 0 <= x < extent / shift { var i := FindStrip(extent, n, shift, x, n); }
    forall i: nat | i < n && InStrip(extent, n, shift, i, x) ensures 0 <= x < extent / shift {
      BoundariesAscend(extent, n, 0, i);
      BoundariesAscend(extent, n, i + 1, n);
      DivMonotone(0, Boundary(extent, n, i), shift);
      DivMonotone(Boundary(extent, n, i + 1), extent, shift);
    }
    forall i: nat, j: nat | i < j < n && InStrip(extent, n, shift, i, x) ensures !InStrip(extent, n, shift, j, x) {
      BoundariesAscend(extent, n, i + 1, j);
      BoundaryAtLeast(extent, n, i + 1);
      DivMonotone(Boundary(extent, n, i + 1), Boundary(extent, n, j), shift);
    }
  }

  // ---- how balanced the strips are ----

  function Lo(extent: nat, n: nat, i: nat): int
    requires n >= 1 && i < n
  {
    var b := Boundary(extent, n, i) - HALO;
    if b < 0 then 0 else b
  }

  function Hi(extent: nat, n: nat, i: nat): int
    requires n >= 1 && i < n
  {
    var b := Boundary(extent, n, i + 1) + HALO;
    if b > extent then extent else b
  }

  /** Cells a strip processes: its own and the halo, as far as the grid goes. */
  function ProcWidth(extent: nat, n: nat, i: nat): int
    requires n >= 1 && i < n
  {
    Hi(extent, n, i) - Lo(extent, n, i)
  }

  lemma ProcWidths(extent: nat, n: nat, i: nat)
    requires n >= 3 && i < n && Middle(extent, n) >= 1
    ensures ProcWidth(extent, n, i) == Middle(extent, n) + 2 * HALO
      + if i == 0 then Deficit(extent, n) / 2 else if i == n - 1 then Deficit(extent, n) - Deficit(extent, n) / 2 else 0
  {
    DeficitSmall(extent, n);
    NextBoundary(extent, n, i);
    NextBoundary(extent, n, 0);
    NextBoundary(extent, n, n - 1);
    if i > 0 { BoundariesAscend(extent, n, 1, i); }
    if i < n - 1 { BoundariesAscend(extent, n, i + 1, n - 1); }
  }

  /** An end strip processes at most half the strip count more than a middle one, never less; and all
      strips process the same exactly when the grid without its two halos is a multiple of the count. */
  lemma HowBalanced(extent: nat, n: nat)
    requires n >= 3 && Middle(extent, n) >= 1
    ensures forall i: nat :: i < n ==> 0 <= ProcWidth(extent, n, i) - ProcWidth(extent, n, 1) <= n / 2
    ensures (forall i: nat :: i < n ==> ProcWidth(extent, n, i) == ProcWidth(extent, n, 1)) <==>
      (extent - 2 * HALO) % n == 0
  {
    DeficitSmall(extent, n);
    forall i: nat | i < n
      ensures ProcWidth(extent, n, i) - ProcWidth(extent, n, 1)
           == if i == 0 then Deficit(extent, n) / 2 else if i == n - 1 then Deficit(extent, n) - Deficit(extent, n) / 2
             else 0
    {
      ProcWidths(extent, n, i);
      ProcWidths(extent, n, 1);
    }
    assert ProcWidth(extent, n, n - 1) - ProcWidth(extent, n, 1) == Deficit(extent, n) - Deficit(extent, n) / 2;
  }

  /** Two strips are halves, the upper one a cell larger if need be; they process the same, as far as
      the grid is wider than the halo, exactly when the extent is even. */
  lemma Halves(extent: nat)
    ensures 0 <= (extent - Boundary(extent, 2, 1)) - Boundary(extent, 2, 1) <= 1
    ensures 0 <= ProcWidth(extent, 2, 1) - ProcWidth(extent, 2, 0) <= 1
    ensures ProcWidth(extent, 2, 1) == ProcWidth(extent, 2, 0) <==> extent % 2 == 0 || extent <= HALO + 1
  {
  }

  /** Where the grid is too narrow for balanced strips all but the last are the same. */
  lemma NarrowStrips(extent: nat, n: nat, i: nat)
    requires n >= 3 && i < n && Middle(extent, n) < 1
    ensures Boundary(extent, n, i + 1) - Boundary(extent, n, i)
      == if i < n - 1 then extent / n else extent / n + extent % n
  {
    Split(extent, n);
    Distribute(i, 1, extent / n);
    Distribute(n, -1, extent / n);
  }

  // ---- blocks ----

  /** Owned rectangle and processing window of a block. */
  datatype Block = Block(xLo: int, xHi: int, yLo: int, yHi: int, procXLo: int, procXHi: int, procYLo: int, procYHi: int)

  datatype Result = Unsupported | Blocks(blocks: seq<Block>)

  /** Strips along each axis; other counts are an error. */
  function Shape(count: nat): (int, int) {
    if count == 2 then (2, 1) else if count == 4 then (2, 2) else if count == 8 then (2, 4) else (0, 0)
  }

  function BlockAt(w: nat, h: nat, nw: nat, nh: nat, bi: nat, bj: nat): Block
    requires bi < nw && bj < nh
  {
    Block(Boundary(w, nw, bi), Boundary(w, nw, bi + 1), Boundary(h, nh, bj), Boundary(h, nh, bj + 1),
          Lo(w, nw, bi), Hi(w, nw, bi), Lo(h, nh, bj), Hi(h, nh, bj))
  }

  /** The blocks of the first k positions, column by column. */
  function Listed(w: nat, h: nat, nw: nat, nh: nat, k: nat): seq<Block>
    requires nh >= 1 && k <= nw * nh
  {
    if k == 0 then []
    else
      Split(k - 1, nh);
      TimesLess(nh, (k - 1) / nh, nw);
      Listed(w, h, nw, nh, k - 1) + [BlockAt(w, h, nw, nh, (k - 1) / nh, (k - 1) % nh)]
  }

  /** Block (i, j) stands at i * nh + j. */
  lemma {:induction false} ListedAt(w: nat, h: nat, nw: nat, nh: nat, k: nat, i: nat, j: nat)
    requires k <= nw * nh && i < nw && j < nh && i * nh + j < k
    ensures |Listed(w, h, nw, nh, k)| == k && Listed(w, h, nw, nh, k)[i * nh + j] == BlockAt(w, h, nw, nh, i, j)
  {
    ListedLength(w, h, nw, nh, k - 1);
    if i * nh + j < k - 1 { ListedAt(w, h, nw, nh, k - 1, i, j); } else { Unique(k - 1, i, j, nh); }
  }

  lemma {:induction false} ListedLength(w: nat, h: nat, nw: nat, nh: nat, k: nat)
    requires nh >= 1 && k <= nw * nh
    ensures |Listed(w, h, nw, nh, k)| == k
  {
    if k == 0 {
    } else {
      ListedLength(w, h, nw, nh, k - 1);
    }
  }

  lemma ListedNone(w: nat, h: nat, nw: nat, nh: nat)
    requires nh >= 1
    ensures Listed(w, h, nw, nh, 0) == []
  {
  }

  lemma ListedNext(w: nat, h: nat, nw: nat, nh: nat, i: nat, j: nat, k: nat)
    requires i < nw && j < nh && k == i * nh + j
    ensures k + 1 <= nw * nh
    ensures Listed(w, h, nw, nh, k + 1) == Listed(w, h, nw, nh, k) + [BlockAt(w, h, nw, nh, i, j)]
  {
    TimesMonotone(nh, i + 1, nw);
    Distribute(i, 1, nh);
    Unique(k, i, j, nh);
    hide BlockAt;
  }

  method GridTopology(count: nat, w: nat, h: nat) returns (r: Result)
    ensures r.Unsupported? <==> count !in {2, 4, 8}
    ensures r.Blocks? ==> var (nw, nh) := Shape(count); nw * nh == count && r.blocks == Listed(w, h, nw, nh, count)
    ensures r.Blocks? ==> TwoColumns(w, h, count, r.blocks)
  {
    hide Listed, Boundary, TwoColumns;
    if count != 2 && count != 4 && count != 8 { return Unsupported; }
    var (nw, nh) := Shape(count);
    assert Listed(w, h, nw, nh, 0) == [] by { ListedNone(w, h, nw, nh); }
    var xs := BalancedSplits(w, nw);
    var ys := BalancedSplits(h, nh);
    var out := [];
    ghost var k := 0;
    for bw := 0 to nw
      invariant k == bw * nh && out == Listed(w, h, nw, nh, k)
    {
      for bh := 0 to nh
        invariant k == bw * nh + bh <= nw * nh && out == Listed(w, h, nw, nh, k)
      {
        var loX, hiX, loY, hiY := xs[bw], xs[bw + 1], ys[bh], ys[bh + 1];
        ListedNext(w, h, nw, nh, bw, bh, k);
        out := out + [Block(loX, hiX, loY, hiY,
                            if loX - HALO < 0 then 0 else loX - HALO, if hiX + HALO > w then w else hiX + HALO,
                            if loY - HALO < 0 then 0 else loY - HALO, if hiY + HALO > h then h else hiY + HALO)];
        k := k + 1;
      }
    }
    r := Blocks(out);
    ListedInColumns(w, h, count);
  }

  /** Two columns of strips, the blocks of the left one first, each column from the top down. */
  ghost predicate TwoColumns(w: nat, h: nat, count: nat, bs: seq<Block>)
    requires count in {2, 4, 8}
  {
    |bs| == count && forall i: nat, j: nat {:trigger BlockAt(w, h, 2, count / 2, i, j)} ::
      i < 2 && j < count / 2 ==> bs[i * (count / 2) + j] == BlockAt(w, h, 2, count / 2, i, j)
  }

  lemma ListedInColumns(w: nat, h: nat, count: nat)
    requires count in {2, 4, 8}
    ensures TwoColumns(w, h, count, Listed(w, h, Shape(count).0, Shape(count).1, count))
  {
    hide BlockAt, Listed;
    ListedLength(w, h, 2, count / 2, count);
    forall i: nat, j: nat {:trigger BlockAt(w, h, 2, count / 2, i, j)} | i < 2 && j < count / 2
      ensures Listed(w, h, 2, count / 2, count)[i * (count / 2) + j] == BlockAt(w, h, 2, count / 2, i, j)
    {
      ListedAt(w, h, 2, count / 2, count, i, j);
    }
  }

  predicate Owns(b: Block, x: int, y: int) {
    b.xLo <= x < b.xHi && b.yLo <= y < b.yHi
  }

  /** The same on the stage-3 grid, with the shifted bounds. */
  predicate OwnsHalved(b: Block, x: int, y: int) {
    b.xLo / 2 <= x < b.xHi / 2 && b.yLo / 2 <= y < b.yHi / 2
  }

  predicate Processes(b: Block, x: int, y: int) {
    b.procXLo <= x < b.procXHi && b.procYLo <= y < b.procYHi
  }

  /** Ownership of a rectangle is ownership along both axes. */
  lemma OwnsByAxes(w: nat, h: nat, nw: nat, nh: nat, i: nat, j: nat, x: int, y: int)
    requires i < nw && j < nh
    ensures Owns(BlockAt(w, h, nw, nh, i, j), x, y) <==> InStrip(w, nw, 1, i, x) && InStrip(h, nh, 1, j, y)
    ensures OwnsHalved(BlockAt(w, h, nw, nh, i, j), x, y) <==> InStrip(w, nw, 2, i, x) && InStrip(h, nh, 2, j, y)
  {
    hide Boundary;
  }

  /** Owned rectangles tile the stage-2 grid and their halves the stage-3 grid: each cell has a block ... */
  lemma BlocksCover(w: nat, h: nat, nw: nat, nh: nat, x: int, y: int)
    requires nw >= 1 && nh >= 1
    ensures 0 <= x < w && 0 <= y < h ==>
      exists i: nat, j: nat :: i < nw && j < nh && Owns(BlockAt(w, h, nw, nh, i, j), x, y)
    ensures 0 <= x < w / 2 && 0 <= y < h / 2 ==>
      exists i: nat, j: nat :: i < nw && j < nh && OwnsHalved(BlockAt(w, h, nw, nh, i, j), x, y)
  {
    hide Boundary, BlockAt, Owns, OwnsHalved;
    if 0 <= x < w && 0 <= y < h {
      var i := FindStrip(w, nw, 1, x, nw) by { Ends(w, nw); }
      var j := FindStrip(h, nh, 1, y, nh) by { Ends(h, nh); }
      OwnsByAxes(w, h, nw, nh, i, j, x, y);
    }
    if 0 <= x < w / 2 && 0 <= y < h / 2 {
      var i := FindStrip(w, nw, 2, x, nw) by { Ends(w, nw); }
      var j := FindStrip(h, nh, 2, y, nh) by { Ends(h, nh); }
      OwnsByAxes(w, h, nw, nh, i, j, x, y);
    }
  }

  lemma Ends(extent: nat, n: nat)
    requires n >= 1
    ensures Boundary(extent, n, 0) == 0 && Boundary(extent, n, n) == extent
  {
  }

  /** ... and no other. */
  lemma BlocksDisjoint(w: nat, h: nat, nw: nat, nh: nat, i: nat, j: nat, k: nat, l: nat, x: int, y: int)
    requires i < nw && j < nh && k < nw && l < nh
    requires var a, b := BlockAt(w, h, nw, nh, i, j), BlockAt(w, h, nw, nh, k, l);
      (Owns(a, x, y) && Owns(b, x, y)) || (OwnsHalved(a, x, y) && OwnsHalved(b, x, y))
    ensures i == k && j == l
  {
    hide Boundary, BlockAt, Owns, OwnsHalved, InStrip;
    OwnsByAxes(w, h, nw, nh, i, j, x, y);
    OwnsByAxes(w, h, nw, nh, k, l, x, y);
    OneStrip(w, nw, 1, x);
    OneStrip(h, nh, 1, y);
    OneStrip(w, nw, 2, x);
    OneStrip(h, nh, 2, y);
  }

  /** A block that owns anything is sent exactly the events within two cells of a cell it owns. */
  lemma RoutedWithinHalo(w: nat, h: nat, nw: nat, nh: nat, bi: nat, bj: nat, x: int, y: int)
    requires bi < nw && bj < nh && 0 <= x < w && 0 <= y < h
    requires var b := BlockAt(w, h, nw, nh, bi, bj); b.xLo < b.xHi && b.yLo < b.yHi
    ensures Processes(BlockAt(w, h, nw, nh, bi, bj), x, y)
       <==> exists cx, cy ::
         Owns(BlockAt(w, h, nw, nh, bi, bj), cx, cy) && -HALO <= x - cx <= HALO && -HALO <= y - cy <= HALO
  {
    hide Boundary;
    var b := BlockAt(w, h, nw, nh, bi, bj);
    if Processes(b, x, y) {
      var cx := if x < b.xLo then b.xLo else if x >= b.xHi then b.xHi - 1 else x;
      var cy := if y < b.yLo then b.yLo else if y >= b.yHi then b.yHi - 1 else y;
      assert Owns(b, cx, cy);
    }
  }

  /** The publishing loop: for every block, in order, whether the event is in its window. */
  method BlocksFor(bs: seq<Block>, x: int, y: int) returns (ks: seq<nat>)
    ensures forall k: nat :: k in ks <==> k < |bs| && Processes(bs[k], x, y)
    ensures forall i, j :: 0 <= i < j < |ks| ==> ks[i] < ks[j]
  {
    ks := [];
    for b := 0 to |bs|
      invariant forall k: nat :: k in ks <==> k < b && Processes(bs[k], x, y)
      invariant forall i :: 0 <= i < |ks| ==> ks[i] < b
      invariant forall i, j :: 0 <= i < j < |ks| ==> ks[i] < ks[j]
    {
      if x < bs[b].procXLo || x >= bs[b].procXHi { continue; }
      if y < bs[b].procYLo || y >= bs[b].procYHi { continue; }
      ks := ks + [b];
    }
  }
}
