/** What one event means to the reference, spelled out: its input feature, the output and the cells of
    a stage, and what the stamps of a stream add up to. */
module EventMeaning {
  import opened Geometry
  import opened Network
  import opened Sequential
  import opened Sums
  import opened Pipeline

  // ---- the input feature ----

  lemma InputIsClipped(n: Net, lastT: Cell -> real, e: Event)
    ensures exists v :: 0.0 <= v <= 1.0 && Clipped(lastT(At(e)), e.t, v) && InputFeat(n, lastT, e) == n.embed(v, e.p)
  {
    DtIsClipped(lastT(At(e)), e.t);
  }

  lemma {:induction false} EnterKeepsStamps(n: Net, s: nat, st: State, ev: Cell, f: Feat)
    requires s <= 3
    ensures Enter(n, s, st, ev, f).lastT == st.lastT
    decreases 3 - s
  {
    hide StageFeat, StageHid, Decode, Bump, Passes;
    if s == 3 {
    } else {
      var m := StageHid(n, s, st.Mem(s), ev, f);
      EnterKeepsStamps(n, s + 1, st.With(s, m.(drop := Bump(m.drop, Pool(ev)))), Pool(ev),
        StageFeat(n, s, st.Mem(s), ev, f));
    }
  }

  lemma StampsStep(n: Net, st: State, es: seq<Event>)
    requires es != []
    ensures var r, e := Run(n, st, es[..|es| - 1]), es[|es| - 1];
      Run(n, st, es).lastT == if InGrid(n.grid, At(e)) then Stamp(r.lastT, e) else r.lastT
  {
    hide Enter, InputFeat, Stamp;
    var r, e := Run(n, st, es[..|es| - 1]), es[|es| - 1];
    EnterKeepsStamps(n, 0, r.(lastT := Stamp(r.lastT, e)), At(e), InputFeat(n, r.lastT, e));
  }

  /** A pixel without an event keeps its stamp, any other has that of its latest event. */
  lemma {:induction false} StampKept(n: Net, st: State, es: seq<Event>, c: Cell)
    requires forall k :: 0 <= k < |es| ==> At(es[k]) != c
    ensures Run(n, st, es).lastT(c) == st.lastT(c)
  {
    hide ProcessOne;
    if es == [] {
    } else {
      StampsStep(n, st, es);
      StampKept(n, st, es[..|es| - 1], c);
    }
  }

  lemma {:induction false} StampOfLatest(n: Net, st: State, es: seq<Event>, i: nat)
    requires i < |es| && InGrid(n.grid, At(es[i])) && forall k :: i < k < |es| ==> At(es[k]) != At(es[i])
    ensures Run(n, st, es).lastT(At(es[i])) == es[i].t
  {
    hide ProcessOne;
    StampsStep(n, st, es);
    if i == |es| - 1 {
    } else {
      StampOfLatest(n, st, es[..|es| - 1], i);
    }
  }

  /** After reset the first event of a pixel counts as long after the one before it. */
  lemma FirstInput(n: Net, zero: Hid, calm: Feat, es: seq<Event>, j: nat)
    requires j < |es| && forall k :: 0 <= k < j ==> At(es[k]) != At(es[j])
    ensures InputFeat(n, Run(n, Reset(n, zero, calm), es[..j]).lastT, es[j]) == n.embed(1.0, es[j].p)
  {
    StampKept(n, Reset(n, zero, calm), es[..j], At(es[j]));
  }

  /** Any other is fed the clipped time since the latest event of its pixel. */
  lemma NextInput(n: Net, st: State, es: seq<Event>, i: nat, j: nat)
    requires i < j < |es| && At(es[i]) == At(es[j]) && InGrid(n.grid, At(es[j]))
    requires forall k :: i < k < j ==> At(es[k]) != At(es[j])
    ensures exists v ::
      Clipped(es[i].t, es[j].t, v) && InputFeat(n, Run(n, st, es[..j]).lastT, es[j]) == n.embed(v, es[j].p)
  {
    StampOfLatest(n, st, es[..j], i);
    InputIsClipped(n, Run(n, st, es[..j]).lastT, es[j]);
  }

  // ---- one stage ----

  /** The sum of what the in-grid positions of a layer add. */
  function LayerSum(n: Net, l: Layer, g: Size, ev: Cell, f: Feat, h: Plane): Feat {
    Pick(n, Inside(l, g, ev, 0), Shares(l, ev, f, h), Positions(l))
  }

  /** The output of stage s is that of its second layer, fed by the first. */
  lemma StageOutput(n: Net, s: nat, m: StageMem, ev: Cell, f: Feat)
    requires Exact(n)
    ensures var la, lb, g := n.layers(2 * s), n.layers(2 * s + 1), StageGrid(n.grid, s);
      var mid := la.finish(f, LayerSum(n, la, g, ev, f, m.a));
      StageFeat(n, s, m, ev, f) == lb.finish(mid, LayerSum(n, lb, g, ev, mid, m.b))
  {
    var la, lb, g := n.layers(2 * s), n.layers(2 * s + 1), StageGrid(n.grid, s);
    hide Exact, Gather, Pick;
    GatherIsPick(n, la, g, ev, f, m.a, 0);
    GatherIsPick(n, lb, g, ev, la.finish(f, LayerSum(n, la, g, ev, f, m.a)), m.b, 0);
  }

  /** A layer steps the cells of its in-grid positions, each at its own position, and no other. */
  lemma CellsOfLayer(l: Layer, g: Size, ev: Cell, f: Feat, h: Plane, c: Cell)
    ensures forall p: nat :: p < Positions(l) && c == Spot(l, ev, p) && InGrid(g, c) ==>
      Refresh(l, g, ev, f, h)(c) == l.lru(p, f, h(c))
    ensures (forall p: nat :: p < Positions(l) ==> c != Spot(l, ev, p)) || !InGrid(g, c) ==>
      Refresh(l, g, ev, f, h)(c) == h(c)
  {
    hide Spot, PositionOf, Touches, Positions;
    forall p: nat | p < Positions(l) && c == Spot(l, ev, p) && InGrid(g, c)
      ensures Touches(l, g, ev, c) && PositionOf(l, ev, c) == p
    {
      SpotIsTouched(l, g, ev, p);
    }
    if Touches(l, g, ev, c) {
      PositionIsSpot(l, g, ev, c);
      TouchedIn(l, g, ev, c);
    }
  }

  lemma TouchedIn(l: Layer, g: Size, ev: Cell, c: Cell)
    requires Touches(l, g, ev, c)
    ensures InGrid(g, c)
  {
  }

  /** The hidden cells of stage s. */
  lemma StageCells(n: Net, s: nat, m: StageMem, ev: Cell, f: Feat, c: Cell)
    requires Exact(n)
    ensures var la, lb, g, r := n.layers(2 * s), n.layers(2 * s + 1), StageGrid(n.grid, s), StageHid(n, s, m, ev, f);
      var mid := la.finish(f, LayerSum(n, la, g, ev, f, m.a));
      && (forall p: nat :: p < Positions(la) && c == Spot(la, ev, p) && InGrid(g, c) ==>
            r.a(c) == la.lru(p, f, m.a(c)))
      && (forall p: nat :: p < Positions(lb) && c == Spot(lb, ev, p) && InGrid(g, c) ==>
            r.b(c) == lb.lru(p, mid, m.b(c)))
      && ((forall p: nat :: p < Positions(la) ==> c != Spot(la, ev, p)) || !InGrid(g, c) ==> r.a(c) == m.a(c))
      && ((forall p: nat :: p < Positions(lb) ==> c != Spot(lb, ev, p)) || !InGrid(g, c) ==> r.b(c) == m.b(c))
      && r.drop == m.drop
  {
    var la, lb, g := n.layers(2 * s), n.layers(2 * s + 1), StageGrid(n.grid, s);
    hide Exact, Gather, Pick, Refresh, Spot, InGrid, Positions;
    GatherIsPick(n, la, g, ev, f, m.a, 0);
    CellsOfLayer(la, g, ev, f, m.a, c);
    CellsOfLayer(lb, g, ev, la.finish(f, LayerSum(n, la, g, ev, f, m.a)), m.b, c);
  }

  /** The grid behind a stage has a cell for every block of two by two inside the grid of the stage. */
  lemma NextGrid(g: Size, s: nat, d: Cell)
    ensures InGrid(StageGrid(g, s + 1), d) <==> forall c :: Pool(c) == d ==> InGrid(StageGrid(g, s), c)
    ensures StageGrid(g, 0) == g
  {
    HalvedGrid(StageGrid(g, s), d);
  }
}
