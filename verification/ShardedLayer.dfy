/** Stage 0 cut into column shards: what each shard computes, and why its pieces make the whole. */
module ShardedLayer {
  import opened Geometry
  import opened Network
  import opened Sums
  import opened Ownership
  import opened Rings

  /** n shards over the jobs of a run; start holds the hidden plane of layer l before the first job. */
  datatype Feed = Feed(net: Net, n: nat, jobs: seq<Job>, start: Two<Plane>)

  ghost predicate Fit(d: Feed) {
    && 1 <= d.n && d.net.grid.w >= 1
    && (forall e :: 0 <= e < |d.jobs| ==> InGrid(d.net.grid, d.jobs[e].at))
  }

  /** shard_layer_forward: only owned positions inside the grid, accumulated upwards from zero. */
  function ShardGather(n: Net, l: Layer, g: Size, own: set<nat>, ev: Cell, f: Feat, h: Plane, p: nat): Feat {
    if p == 0 then n.zero
    else
      var acc := ShardGather(n, l, g, own, ev, f, h, p - 1);
      if p - 1 in own && InGrid(g, Spot(l, ev, p - 1)) then n.add(acc, Share(l, ev, f, h, p - 1)) else acc
  }

  function ShardHid(l: Layer, g: Size, own: set<nat>, ev: Cell, f: Feat, h: Plane, c: Cell): Hid {
    if Touches(l, g, ev, c) && PositionOf(l, ev, c) in own then l.lru(PositionOf(l, ev, c), f, h(c)) else h(c)
  }

  function ShardRefresh(l: Layer, g: Size, own: set<nat>, ev: Cell, f: Feat, h: Plane): Plane {
    (c: Cell) => ShardHid(l, g, own, ev, f, h, c)
  }

  /** Input of job e to layer l, hidden plane of layer l before job e, and output, run by one shard
      that owns all the positions which the shards together run. */
  function Feature(d: Feed, l: nat, e: nat): Feat
    requires l <= 1 && e < |d.jobs|
    decreases l, e, 0
  {
    if l == 0 then d.jobs[e].feat else Output(d, 0, e)
  }

  function PlaneAt(d: Feed, l: nat, e: nat): Plane
    requires l <= 1 && e <= |d.jobs|
    decreases l, e, 1
  {
    if e == 0 then d.start.Get(l)
    else ShardRefresh(d.net.layers(l), d.net.grid, ServedOf(d, e - 1), d.jobs[e - 1].at, Feature(d, l, e - 1),
      PlaneAt(d, l, e - 1))
  }

  function Output(d: Feed, l: nat, e: nat): Feat
    requires l <= 1 && e < |d.jobs|
    decreases l, e, 2
  {
    var ly := d.net.layers(l);
    ly.finish(Feature(d, l, e),
              ShardGather(d.net, ly, d.net.grid, ServedOf(d, e), d.jobs[e].at, Feature(d, l, e), PlaneAt(d, l, e),
                Positions(ly)))
  }

  function ServedOf(d: Feed, e: nat): set<nat>
    requires e < |d.jobs|
  {
    Served(d.jobs[e].at.x, d.net.grid.w, d.n)
  }

  /** The one shard that ever writes cell c of layer l. */
  function Writer(d: Feed, l: nat, c: Cell): nat
    requires Fit(d)
  {
    ShardOfCol(if d.net.layers(l).wide then c.x else c.x + 1, d.net.grid.w, d.n)
  }

  function Own(d: Feed, k: nat, e: nat): set<nat>
    requires Fit(d) && e < |d.jobs|
  {
    PatchMask(k, d.jobs[e].at.x, d.net.grid.w, d.n)
  }

  function Routed(d: Feed, e: nat): set<nat>
    requires Fit(d) && e < |d.jobs|
  {
    Affected(d.jobs[e].at.x, d.net.grid.w, d.n)
  }

  lemma RoutedBound(d: Feed, e: nat)
    requires Fit(d) && e < |d.jobs|
    ensures forall k :: k in Routed(d, e) ==> k < d.n
  {
    var x, w := d.jobs[e].at.x, d.net.grid.w;
    ShardMonotone(x - 1, x, w, d.n);
    ShardMonotone(x, x + 1, w, d.n);
  }

  /** The jobs below e that shard k receives, in order. */
  function Route(d: Feed, k: nat, e: nat): seq<nat>
    requires Fit(d) && e <= |d.jobs|
  {
    if e == 0 then []
    else if k in Routed(d, e - 1) then Route(d, k, e - 1) + [e - 1]
    else Route(d, k, e - 1)
  }

  lemma {:induction false} RoutePrefix(d: Feed, k: nat, a: nat, b: nat)
    requires Fit(d) && a <= b <= |d.jobs|
    ensures |Route(d, k, a)| <= |Route(d, k, b)| && Route(d, k, b)[..|Route(d, k, a)|] == Route(d, k, a)
  {
    if a < b { RoutePrefix(d, k, a, b - 1); }
  }

  /** A routed job sits at its rank. */
  lemma {:induction false} RouteRank(d: Feed, k: nat, e: nat)
    requires Fit(d) && e < |d.jobs| && k in Routed(d, e)
    ensures |Route(d, k, e)| < |Route(d, k, |d.jobs|)|
    ensures Route(d, k, |d.jobs|)[|Route(d, k, e)|] == e
  {
    RoutePrefix(d, k, e + 1, |d.jobs|);
    assert Route(d, k, e + 1)[|Route(d, k, e)|] == e;
  }

  /** And whatever sits at rank j is a routed job of that rank. */
  lemma {:induction false} RouteMember(d: Feed, k: nat, n: nat, j: nat)
    requires Fit(d) && n <= |d.jobs| && j < |Route(d, k, n)|
    ensures Route(d, k, n)[j] < n && k in Routed(d, Route(d, k, n)[j]) && |Route(d, k, Route(d, k, n)[j])| == j
  {
    if j < |Route(d, k, n - 1)| { RouteMember(d, k, n - 1, j); }
  }

  /** The plane as shard k's first j pieces of work leave it. */
  function ShardPlane(d: Feed, l: nat, k: nat, j: nat): Plane
    requires Fit(d) && l <= 1 && j <= |Route(d, k, |d.jobs|)|
  {
    if j == 0 then d.start.Get(l)
    else
      var e := Route(d, k, |d.jobs|)[j - 1];
      RouteMember(d, k, |d.jobs|, j - 1);
      ShardRefresh(d.net.layers(l), d.net.grid, Own(d, k, e), d.jobs[e].at, Feature(d, l, e),
        ShardPlane(d, l, k, j - 1))
  }

  /** The writer of a cell at a position that is run is routed the job and owns the position; and
      what a routed shard owns is run. */
  lemma TouchedIsOwned(d: Feed, l: nat, e: nat, c: Cell)
    requires Fit(d) && l <= 1 && e < |d.jobs|
    requires Touches(d.net.layers(l), d.net.grid, d.jobs[e].at, c)
    ensures var p, k := PositionOf(d.net.layers(l), d.jobs[e].at, c), Writer(d, l, c);
      p in ServedOf(d, e) <==> k in Routed(d, e) && p in Own(d, k, e)
  {
    var ev, w := d.jobs[e].at, d.net.grid.w;
    DeltaBijection(ev, c, 0);
    var p := PositionOf(d.net.layers(l), ev, c);
    var col := if d.net.layers(l).wide then c.x else c.x + 1;
    assert ev.x + 1 - p % 3 == col && p < 9;
    hide ShardOfCol;
    ServedByRouted(ev.x, w, d.n, p);
  }

  /** Conversely a shard only works on cells it is the writer of. */
  lemma OwnedIsWritten(d: Feed, l: nat, e: nat, k: nat, p: nat)
    requires Fit(d) && l <= 1 && e < |d.jobs|
    requires p < Positions(d.net.layers(l)) && p in Own(d, k, e)
    ensures Writer(d, l, Spot(d.net.layers(l), d.jobs[e].at, p)) == k
  {
  }

  /** On the cells shard k writes, its own progress is all that matters: after the work routed
      to it among the first e jobs they hold what the plane holds after e jobs. */
  lemma {:induction false} ShardPlaneAgrees(d: Feed, l: nat, k: nat, e: nat, c: Cell)
    requires Fit(d) && l <= 1 && e <= |d.jobs| && Writer(d, l, c) == k
    ensures |Route(d, k, e)| <= |Route(d, k, |d.jobs|)|
    ensures ShardPlane(d, l, k, |Route(d, k, e)|)(c) == PlaneAt(d, l, e)(c)
  {
    hide Fit, ShardPlane, PlaneAt, Route, Writer;
    RoutePrefix(d, k, e, |d.jobs|);
    if e == 0 {
      Untouched(d, l, k);
    } else {
      RoutePrefix(d, k, e - 1, e);
      ShardPlaneAgrees(d, l, k, e - 1, c);
      ShardStep(d, l, k, e - 1, c);
    }
  }

  lemma Untouched(d: Feed, l: nat, k: nat)
    requires Fit(d) && l <= 1
    ensures |Route(d, k, 0)| == 0 && ShardPlane(d, l, k, 0) == PlaneAt(d, l, 0)
  {
  }

  lemma ShardStep(d: Feed, l: nat, k: nat, e: nat, c: Cell)
    requires Fit(d) && l <= 1 && e < |d.jobs| && Writer(d, l, c) == k
    requires |Route(d, k, e)| <= |Route(d, k, e + 1)| <= |Route(d, k, |d.jobs|)|
    requires ShardPlane(d, l, k, |Route(d, k, e)|)(c) == PlaneAt(d, l, e)(c)
    ensures ShardPlane(d, l, k, |Route(d, k, e + 1)|)(c) == PlaneAt(d, l, e + 1)(c)
  {
    var ly, g, ev := d.net.layers(l), d.net.grid, d.jobs[e].at;
    assert PlaneAt(d, l, e + 1)(c) == ShardHid(ly, g, ServedOf(d, e), ev, Feature(d, l, e), PlaneAt(d, l, e), c);
    if Touches(ly, g, ev, c) { TouchedIsOwned(d, l, e, c); }
    if k in Routed(d, e) {
      RouteRank(d, k, e);
      assert ShardPlane(d, l, k, |Route(d, k, e + 1)|)(c)
          == ShardHid(ly, g, Own(d, k, e), ev, Feature(d, l, e), ShardPlane(d, l, k, |Route(d, k, e)|), c);
    }
  }

  /** What shard k contributes to job e, computed on the plane as all jobs before it left it. */
  function Piece(d: Feed, l: nat, e: nat, k: nat): Feat
    requires Fit(d) && l <= 1 && e < |d.jobs|
  {
    ShardGather(d.net, d.net.layers(l), d.net.grid, Own(d, k, e), d.jobs[e].at, Feature(d, l, e), PlaneAt(d, l, e),
                Positions(d.net.layers(l)))
  }

  lemma {:induction false} ShardGatherLocal(n: Net, l: Layer, g: Size, own: set<nat>, ev: Cell, f: Feat, h: Plane,
      k: Plane, p: nat)
    requires forall q: nat :: q < p && q in own && InGrid(g, Spot(l, ev, q)) ==> h(Spot(l, ev, q)) == k(Spot(l, ev, q))
    ensures ShardGather(n, l, g, own, ev, f, h, p) == ShardGather(n, l, g, own, ev, f, k, p)
  {
    if p == 0 {
    } else {
      ShardGatherLocal(n, l, g, own, ev, f, h, k, p - 1);
    }
  }

  /** The partial a shard computes from its own progress is that piece. */
  lemma PartialIsPiece(d: Feed, l: nat, k: nat, e: nat)
    requires Fit(d) && l <= 1 && e < |d.jobs| && k in Routed(d, e)
    ensures |Route(d, k, e)| < |Route(d, k, |d.jobs|)|
    ensures ShardGather(d.net, d.net.layers(l), d.net.grid, Own(d, k, e), d.jobs[e].at, Feature(d, l, e),
                        ShardPlane(d, l, k, |Route(d, k, e)|), Positions(d.net.layers(l))) == Piece(d, l, e, k)
  {
    RouteRank(d, k, e);
    var ly, ev := d.net.layers(l), d.jobs[e].at;
    var mine, whole := ShardPlane(d, l, k, |Route(d, k, e)|), PlaneAt(d, l, e);
    forall q: nat | q < Positions(ly) && q in Own(d, k, e) && InGrid(d.net.grid, Spot(ly, ev, q))
      ensures mine(Spot(ly, ev, q)) == whole(Spot(ly, ev, q))
    {
      OwnedIsWritten(d, l, e, k, q);
      ShardPlaneAgrees(d, l, k, e, Spot(ly, ev, q));
    }
    ShardGatherLocal(d.net, ly, d.net.grid, Own(d, k, e), ev, Feature(d, l, e), mine, whole, Positions(ly));
  }

  lemma {:induction false} ShardGatherIsPick(n: Net, l: Layer, g: Size, own: set<nat>, ev: Cell, f: Feat, h: Plane,
      p: nat)
    requires p <= Positions(l)
    ensures ShardGather(n, l, g, own, ev, f, h, p) == Pick(n, own * Inside(l, g, ev, 0), Shares(l, ev, f, h), p)
  {
    if p == 0 {
    } else {
      ShardGatherIsPick(n, l, g, own, ev, f, h, p - 1);
    }
  }

  function OwnInside(d: Feed, l: nat, e: nat): nat -> set<nat>
    requires Fit(d) && l <= 1 && e < |d.jobs|
  {
    (k: nat) => Own(d, k, e) * Inside(d.net.layers(l), d.net.grid, d.jobs[e].at, 0)
  }

  function Pieces(d: Feed, l: nat, e: nat): nat -> Feat
    requires Fit(d) && l <= 1 && e < |d.jobs|
  {
    (k: nat) => Piece(d, l, e, k)
  }

  /** The routed shards' own positions are those that are run ... */
  lemma OwnersCover(d: Feed, l: nat, e: nat, p: nat)
    requires Fit(d) && l <= 1 && e < |d.jobs|
    ensures p in Parts(OwnInside(d, l, e), Routed(d, e), d.n) <==>
            p in ServedOf(d, e) * Inside(d.net.layers(l), d.net.grid, d.jobs[e].at, 0)
  {
    var ev, w := d.jobs[e].at, d.net.grid.w;
    PartsMember(OwnInside(d, l, e), Routed(d, e), d.n, p);
    RoutedBound(d, e);
    ServedByRouted(ev.x, w, d.n, p);
    hide ShardOfCol, Inside, Affected, PatchMask, Served;
    if p in ServedOf(d, e) * Inside(d.net.layers(l), d.net.grid, ev, 0) {
      var k: nat :| k in Affected(ev.x, w, d.n) && p in PatchMask(k, ev.x, w, d.n);
      assert k < d.n && k in Routed(d, e) && p in OwnInside(d, l, e)(k);
    }
  }

  /** ... and a shard's piece is the sum over its own. */
  lemma PieceIsPick(d: Feed, l: nat, e: nat, k: nat)
    requires Exact(d.net) && Fit(d) && l <= 1 && e < |d.jobs|
    ensures Pieces(d, l, e)(k) == Pick(d.net, OwnInside(d, l, e)(k),
                                       Shares(d.net.layers(l), d.jobs[e].at, Feature(d, l, e), PlaneAt(d, l, e)),
                                         Positions(d.net.layers(l)))
  {
    var ly, g, ev := d.net.layers(l), d.net.grid, d.jobs[e].at;
    hide Fit, Exact, Inside, Own, PlaneAt, Feature, ShardGather, Pick, Shares;
    ShardGatherIsPick(d.net, ly, g, Own(d, k, e), ev, Feature(d, l, e), PlaneAt(d, l, e), Positions(ly));
  }

  /** The pieces of the routed shards, in any grouping, sum to all that the event's positions
      contribute: none that is run is lost and none is counted twice. */
  lemma PiecesMakeWhole(d: Feed, l: nat, e: nat)
    requires Exact(d.net) && Fit(d) && l <= 1 && e < |d.jobs|
    ensures d.net.layers(l).finish(Feature(d, l, e), Pick(d.net, Routed(d, e), Pieces(d, l, e), d.n)) == Output(d, l, e)
  {
    var ly, g, ev := d.net.layers(l), d.net.grid, d.jobs[e].at;
    var f, h, part, who := Feature(d, l, e), PlaneAt(d, l, e), OwnInside(d, l, e), Routed(d, e);
    var s, np, own := Shares(ly, ev, f, h), Positions(ly), ServedOf(d, e);
    var all := own * Inside(ly, g, ev, 0);
    assert Output(d, l, e) == ly.finish(f, ShardGather(d.net, ly, g, own, ev, f, h, np));
    hide *;
    forall k: nat | k < d.n && k in who
      ensures Pieces(d, l, e)(k) == Pick(d.net, part(k), s, np)
    {
      PieceIsPick(d, l, e, k);
    }
    PickParts(d.net, part, who, d.n, s, Pieces(d, l, e), np);
    forall p: nat ensures p in Parts(part, who, d.n) <==> p in all { OwnersCover(d, l, e, p); }
    assert Parts(part, who, d.n) == all;
    ShardGatherIsPick(d.net, ly, g, own, ev, f, h, np);
  }

  /** The two facts about sums that the sum thread relies on. */
  ghost predicate Additive(d: Feed)
    requires Fit(d)
  {
    && (forall l, e, k: nat,
      who: set<nat> {:trigger d.net.add(Pick(d.net, who, Pieces(d, l, e), d.n), Piece(d, l, e, k))} ::
          0 <= l <= 1 && 0 <= e < |d.jobs| && k < d.n && k !in who ==>
          d.net.add(Pick(d.net, who, Pieces(d, l, e), d.n), Piece(d, l, e, k))
            == Pick(d.net, who + {k}, Pieces(d, l, e), d.n))
    && (forall l, e {:trigger Pieces(d, l, e)} :: 0 <= l <= 1 && 0 <= e < |d.jobs| ==>
          d.net.layers(l).finish(Feature(d, l, e), Pick(d.net, Routed(d, e), Pieces(d, l, e), d.n)) == Output(d, l, e))
  }

  lemma ExactIsAdditive(d: Feed)
    requires Exact(d.net) && Fit(d)
    ensures Additive(d)
  {
    forall l, e, k: nat, who: set<nat> | 0 <= l <= 1 && 0 <= e < |d.jobs| && k < d.n && k !in who
      ensures d.net.add(Pick(d.net, who, Pieces(d, l, e), d.n), Piece(d, l, e, k))
        == Pick(d.net, who + {k}, Pieces(d, l, e), d.n)
    {
      PickInsert(d.net, who, k, Pieces(d, l, e), d.n);
    }
    forall l, e | 0 <= l <= 1 && 0 <= e < |d.jobs|
      ensures d.net.layers(l).finish(Feature(d, l, e), Pick(d.net, Routed(d, e), Pieces(d, l, e), d.n))
        == Output(d, l, e)
    {
      PiecesMakeWhole(d, l, e);
    }
  }

  // ---- what is run, against the whole layer ----

  /** Every in-grid position of the event is run. */
  predicate AllServed(l: Layer, g: Size, n: nat, ev: Cell) {
    forall p: nat :: p < Positions(l) && InGrid(g, Spot(l, ev, p)) ==> p in Served(ev.x, g.w, n)
  }

  /** For one-position layers: short of the last column, as far as the mask reaches; there is no
      shard whose mask has bit 0 in the last column.  For wide layers: as far as the mask reaches. */
  lemma ServedExactly(l: Layer, g: Size, n: nat, ev: Cell)
    requires n >= 1 && InGrid(g, ev)
    ensures AllServed(l, g, n, ev) <==>
      if l.wide then forall x :: ev.x - 1 <= x <= ev.x + 1 && 0 <= x < g.w ==> ShardOfCol(x, g.w, n) < MASK_BITS
      else ev.x + 1 < g.w && ShardOfCol(ev.x + 1, g.w, n) < MASK_BITS
  {
    hide ShardOfCol;
    if l.wide {
      WideServed(l, g, n, ev);
    } else {
      assert Spot(l, ev, 0) == ev;
    }
  }

  lemma WideServed(l: Layer, g: Size, n: nat, ev: Cell)
    requires n >= 1 && InGrid(g, ev) && l.wide
    ensures AllServed(l, g, n, ev) <==>
      forall x :: ev.x - 1 <= x <= ev.x + 1 && 0 <= x < g.w ==> ShardOfCol(x, g.w, n) < MASK_BITS
  {
    hide ShardOfCol;
    if AllServed(l, g, n, ev) {
      forall x | ev.x - 1 <= x <= ev.x + 1 && 0 <= x < g.w ensures ShardOfCol(x, g.w, n) < MASK_BITS {
        var p := Delta(ev, Cell(x, ev.y));
        DeltaBijection(ev, Cell(x, ev.y), 0);
        assert p in Served(ev.x, g.w, n) && ev.x + 1 - p % 3 == x;
      }
    } else {
      var p: nat :| p < 9 && InGrid(g, Spot(l, ev, p)) && p !in Served(ev.x, g.w, n);
      assert ShardOfCol(ev.x + 1 - p % 3, g.w, n) >= MASK_BITS;
    }
  }

  /** With at most sixteen shards only the last column of one-position layers is missing. */
  lemma ServedUpToSixteen(l: Layer, g: Size, n: nat, ev: Cell)
    requires 1 <= n <= MASK_BITS && InGrid(g, ev)
    ensures AllServed(l, g, n, ev) <==> l.wide || ev.x + 1 < g.w
  {
    ServedExactly(l, g, n, ev);
    forall x ensures ShardOfCol(x, g.w, n) < n { ShardMonotone(x, x, g.w, n); }
    hide ShardOfCol, AllServed;
  }

  /** All shards together make the plane of the layer if and only if each position that no shard
      runs would have left its cell as it is. */
  lemma PlaneExactly(l: Layer, g: Size, n: nat, ev: Cell, f: Feat, h: Plane)
    requires n >= 1 && InGrid(g, ev)
    ensures SamePlane(ShardRefresh(l, g, Served(ev.x, g.w, n), ev, f, h), Refresh(l, g, ev, f, h)) <==>
      forall p: nat :: p < Positions(l) && InGrid(g, Spot(l, ev, p)) && p !in Served(ev.x, g.w, n) ==>
        l.lru(p, f, h(Spot(l, ev, p))) == h(Spot(l, ev, p))
  {
    var own := Served(ev.x, g.w, n);
    var mine, whole := ShardRefresh(l, g, own, ev, f, h), Refresh(l, g, ev, f, h);
    hide Served;
    forall p: nat | p < Positions(l) && InGrid(g, Spot(l, ev, p)) && p !in own
      ensures mine(Spot(l, ev, p)) == h(Spot(l, ev, p)) && whole(Spot(l, ev, p)) == l.lru(p, f, h(Spot(l, ev, p)))
    {
      SpotIsTouched(l, g, ev, p);
    }
    forall c | mine(c) != whole(c)
      ensures var p := PositionOf(l, ev, c);
        && p < Positions(l) && Spot(l, ev, p) == c && InGrid(g, c) && p !in own
        && whole(c) == l.lru(p, f, h(c)) && mine(c) == h(c)
    {
      PositionIsSpot(l, g, ev, c);
    }
  }

  /** An event all of whose positions are run goes through the layer as in the unsharded run. */
  lemma WholeLayer(n: Net, l: Layer, g: Size, shards: nat, ev: Cell, f: Feat, h: Plane)
    requires Exact(n) && shards >= 1 && InGrid(g, ev) && AllServed(l, g, shards, ev)
    ensures ShardGather(n, l, g, Served(ev.x, g.w, shards), ev, f, h, Positions(l)) == Gather(n, l, g, ev, f, h, 0)
    ensures SamePlane(ShardRefresh(l, g, Served(ev.x, g.w, shards), ev, f, h), Refresh(l, g, ev, f, h))
  {
    var own := Served(ev.x, g.w, shards);
    PlaneExactly(l, g, shards, ev, f, h);
    GatherIsPick(n, l, g, ev, f, h, 0);
    ShardGatherIsPick(n, l, g, own, ev, f, h, Positions(l));
    assert own * Inside(l, g, ev, 0) == Inside(l, g, ev, 0);
  }

  /** In the last column a one-position layer contributes nothing: its output is the residual alone,
      normed. */
  lemma LastColumnIsLost(n: Net, l: Layer, g: Size, shards: nat, ev: Cell, f: Feat, h: Plane)
    requires !l.wide && shards >= 1 && InGrid(g, ev) && ev.x + 1 == g.w
    ensures ShardGather(n, l, g, Served(ev.x, g.w, shards), ev, f, h, Positions(l)) == n.zero
    ensures SamePlane(ShardRefresh(l, g, Served(ev.x, g.w, shards), ev, f, h), h)
    ensures forall k: nat :: k < shards ==> 0 !in PatchMask(k, ev.x, g.w, shards)
  {
    var own := Served(ev.x, g.w, shards);
    assert 0 !in own;
    assert ShardGather(n, l, g, own, ev, f, h, 0) == n.zero;
  }
}
