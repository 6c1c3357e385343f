/** Stages 2 and 3 on the GPU: whole batches, layer by layer, against one event at a time. */
module CellBatches {
  import opened Geometry
  import opened Network
  import opened Sequential
  import opened WarpLayer

  /** An event as it comes off the ring: its stage-2 cell and its stage-1 output. */
  datatype Input = Input(at: Cell, feat: Feat)

  /** Hidden planes of layers 4 to 7 and the two drop counters, here on the cells of their own stage. */
  datatype Deep = Deep(h4: Plane, h5: Plane, h6: Plane, h7: Plane, drop2: Bytes, drop3: Bytes)

  /** What became of an event, and the final feature of one that passed everything. */
  datatype Fate = Dropped2 | Dropped3 | Emitted(feat: Feat)

  function G2(n: Net): Size {
    StageGrid(n.grid, 2)
  }

  function G3(n: Net): Size {
    StageGrid(n.grid, 3)
  }

  // ---- cpu_oracle: one event at a time ----

  /** layer_step of layer l: the new plane and the output. */
  function LayerStep(n: Net, l: nat, g: Size, at: Cell, f: Feat, h: Plane): (Plane, Feat) {
    (Refresh(n.layers(l), g, at, f, h), Forward(n, n.layers(l), g, at, f, h))
  }

  function OracleStep(n: Net, d: Deep, i: Input): (Deep, Fate) {
    var (h4, f4) := LayerStep(n, 4, G2(n), i.at, i.feat, d.h4);
    var (h5, f5) := LayerStep(n, 5, G2(n), i.at, f4, d.h5);
    var d2 := d.(h4 := h4, h5 := h5, drop2 := Bump(d.drop2, i.at));
    if !Passes(n.window, d.drop2(i.at)) then (d2, Dropped2)
    else
      var at := Pool(i.at);
      var (h6, f6) := LayerStep(n, 6, G3(n), at, f5, d.h6);
      var (h7, f7) := LayerStep(n, 7, G3(n), at, f6, d.h7);
      (d2.(h6 := h6, h7 := h7, drop3 := Bump(d.drop3, at)), if Passes(n.window, d.drop3(at)) then Emitted(f7)
        else Dropped3)
  }

  function Oracle(n: Net, d: Deep, es: seq<Input>): (Deep, seq<Fate>) {
    if es == [] then (d, [])
    else
      var (d1, fs) := Oracle(n, d, es[..|es| - 1]);
      var (d2, f) := OracleStep(n, d1, es[|es| - 1]);
      (d2, fs + [f])
  }

  // ---- a batch: both drop decisions first, then one layer after the other ----

  /** Pass flags of stage 2 for the first k events, and the counters behind them. */
  function Pass2(n: Net, d: Deep, es: seq<Input>, k: nat): (seq<bool>, Bytes)
    requires k <= |es|
  {
    if k == 0 then ([], d.drop2)
    else
      var (ps, drop) := Pass2(n, d, es, k - 1);
      (ps + [Passes(n.window, drop(es[k - 1].at))], Bump(drop, es[k - 1].at))
  }

  lemma {:induction false} Pass2Length(n: Net, d: Deep, es: seq<Input>, k: nat)
    requires k <= |es|
    ensures |Pass2(n, d, es, k).0| == k
    ensures forall j :: 0 <= j <= k ==> Pass2(n, d, es, j).0 == Pass2(n, d, es, k).0[..j]
  {
    if k == 0 {
    } else {
      Pass2Length(n, d, es, k - 1);
    }
  }

  /** The same for stage 3, where only events that passed stage 2 count. */
  function Pass3(n: Net, d: Deep, es: seq<Input>, pass2: seq<bool>, k: nat): (seq<bool>, Bytes)
    requires k <= |es| == |pass2|
  {
    if k == 0 then ([], d.drop3)
    else
      var (ps, drop) := Pass3(n, d, es, pass2, k - 1);
      var c := Pool(es[k - 1].at);
      if pass2[k - 1] then (ps + [Passes(n.window, drop(c))], Bump(drop, c)) else (ps + [false], drop)
  }

  lemma {:induction false} Pass3Length(n: Net, d: Deep, es: seq<Input>, pass2: seq<bool>, k: nat)
    requires k <= |es| == |pass2|
    ensures |Pass3(n, d, es, pass2, k).0| == k
    ensures forall j :: 0 <= j <= k ==> Pass3(n, d, es, pass2, j).0 == Pass3(n, d, es, pass2, k).0[..j]
  {
    if k == 0 {
    } else {
      Pass3Length(n, d, es, pass2, k - 1);
    }
  }

  /** One layer of the batch is one complete run of the nine warps, from the planes as they stand;
      outputs are only read where they are wanted. */
  ghost predicate Ran(p: Phase, hidden: Plane, out: nat -> Feat) {
    exists steps, s ::
      && Leads(p, WarpLayer.Start(p), steps, s) && Complete(p, s) && s.hidden == hidden
      && forall e: nat :: e < |p.visits| && p.visits[e].enters && p.visits[e].wanted ==> out(e) == Output(p, s, e)
  }

  /** A layer over a batch of b events. */
  function LayerPhase(n: Net, l: nat, g: Size, at: nat -> Cell, f: nat -> Feat, enters: nat -> bool,
      wanted: nat -> bool, b: nat, h: Plane): Phase {
    Phase(n, n.layers(l), g, seq(b, e requires 0 <= e < b => Visit(at(e), f(e), enters(e), wanted(e))), h)
  }

  function CellOf(es: seq<Input>): nat -> Cell {
    (e: nat) => if e < |es| then es[e].at else Cell(0, 0)
  }

  function PooledCell(es: seq<Input>): nat -> Cell {
    (e: nat) => if e < |es| then Pool(es[e].at) else Cell(0, 0)
  }

  function FeatOf(n: Net, es: seq<Input>): nat -> Feat {
    (e: nat) => if e < |es| then es[e].feat else n.zero
  }

  function Flag(ps: seq<bool>): nat -> bool {
    (e: nat) => e < |ps| && ps[e]
  }

  function Always(): nat -> bool {
    (e: nat) => true
  }

  /** The outputs of layers 4 to 7, event by event. */
  datatype Outs = Outs(f4: nat -> Feat, f5: nat -> Feat, f6: nat -> Feat, f7: nat -> Feat)

  function Phase4(n: Net, d: Deep, es: seq<Input>): Phase {
    LayerPhase(n, 4, G2(n), CellOf(es), FeatOf(n, es), Always(), Always(), |es|, d.h4)
  }

  function Phase5(n: Net, d: Deep, es: seq<Input>, o: Outs, pass2: seq<bool>): Phase {
    LayerPhase(n, 5, G2(n), CellOf(es), o.f4, Always(), Flag(pass2), |es|, d.h5)
  }

  function Phase6(n: Net, d: Deep, es: seq<Input>, o: Outs, pass2: seq<bool>): Phase {
    LayerPhase(n, 6, G3(n), PooledCell(es), o.f5, Flag(pass2), Flag(pass2), |es|, d.h6)
  }

  function Phase7(n: Net, d: Deep, es: seq<Input>, o: Outs, pass2: seq<bool>, pass3: seq<bool>): Phase {
    LayerPhase(n, 7, G3(n), PooledCell(es), o.f6, Flag(pass2), Flag(pass3), |es|, d.h7)
  }

  /** The layers of a batch, given both rounds of decisions: layers 4 and 5 for all events, layers 6
      and 7 for those that passed; of the second layer of a stage only outputs of events that pass on. */
  ghost predicate Layers(n: Net, d: Deep, es: seq<Input>, pass2: seq<bool>, pass3: seq<bool>, d': Deep,
      fates: seq<Fate>, o: Outs) {
    && |pass2| == |pass3| == |fates| == |es|
    && Ran(Phase4(n, d, es), d'.h4, o.f4)
    && Ran(Phase5(n, d, es, o, pass2), d'.h5, o.f5)
    && Ran(Phase6(n, d, es, o, pass2), d'.h6, o.f6)
    && Ran(Phase7(n, d, es, o, pass2, pass3), d'.h7, o.f7)
    && forall e :: 0 <= e < |es| ==> fates[e] == if !pass2[e] then Dropped2 else if !pass3[e] then Dropped3
      else Emitted(o.f7(e))
  }

  /** One batch on byte counters: stage-2 decisions, stage-3 decisions, the layers. */
  ghost predicate Batch(n: Net, d: Deep, es: seq<Input>, d': Deep, fates: seq<Fate>, o: Outs) {
    var b := |es|;
    Pass2Length(n, d, es, b);
    var (pass2, drop2) := Pass2(n, d, es, b);
    Pass3Length(n, d, es, pass2, b);
    var (pass3, drop3) := Pass3(n, d, es, pass2, b);
    Layers(n, d, es, pass2, pass3, d', fates, o) && d'.drop2 == drop2 && d'.drop3 == drop3
  }

  ghost predicate Like(a: Deep, b: Deep) {
    && SamePlane(a.h4, b.h4) && SamePlane(a.h5, b.h5) && SamePlane(a.h6, b.h6) && SamePlane(a.h7, b.h7)
    && a.drop2 == b.drop2 && a.drop3 == b.drop3
  }

  predicate Wide(n: Net) {
    n.layers(4).wide && n.layers(5).wide && n.layers(6).wide && n.layers(7).wide
  }

  predicate OnGrids(n: Net, es: seq<Input>) {
    forall e :: 0 <= e < |es| ==> InGrid(G2(n), es[e].at) && InGrid(G3(n), Pool(es[e].at))
  }

  // ---- the oracle, event by event, inside the batch ----

  function Before(n: Net, o: Deep, es: seq<Input>, k: nat): Deep
    requires k <= |es|
  {
    Oracle(n, o, es[..k]).0
  }

  lemma BeforeStep(n: Net, o: Deep, es: seq<Input>, k: nat)
    requires k < |es|
    ensures Before(n, o, es, k + 1) == OracleStep(n, Before(n, o, es, k), es[k]).0
  {
    assert es[..k + 1][..k] == es[..k];
  }

  lemma {:induction false} FateAt(n: Net, o: Deep, es: seq<Input>, k: nat)
    requires k < |es|
    ensures |Oracle(n, o, es).1| == |es| && Oracle(n, o, es).1[k] == OracleStep(n, Before(n, o, es, k), es[k]).1
  {
    FatesLength(n, o, es);
    FatesLength(n, o, es[..|es| - 1]);
    if k < |es| - 1 {
      FateAt(n, o, es[..|es| - 1], k);
      assert es[..|es| - 1][..k] == es[..k];
    }
  }

  lemma {:induction false} FatesLength(n: Net, o: Deep, es: seq<Input>)
    ensures |Oracle(n, o, es).1| == |es|
  {
    if es == [] {
    } else {
      FatesLength(n, o, es[..|es| - 1]);
    }
  }

  /** Counters and decisions do not depend on features: taken ahead they are the oracle's. */
  lemma {:induction false} Flags(n: Net, d: Deep, o: Deep, es: seq<Input>, pass2: seq<bool>, k: nat)
    requires k <= |es| == |pass2| && d.drop2 == o.drop2 && d.drop3 == o.drop3
    requires forall j :: 0 <= j <= |es| ==> Pass2(n, d, es, j).0 == pass2[..j]
    ensures Before(n, o, es, k).drop2 == Pass2(n, d, es, k).1
      && Before(n, o, es, k).drop3 == Pass3(n, d, es, pass2, k).1
    ensures k < |es| ==> (pass2[k] <==> Passes(n.window, Before(n, o, es, k).drop2(es[k].at)))
  {
    if k > 0 {
      Flags(n, d, o, es, pass2, k - 1);
      BeforeStep(n, o, es, k - 1);
      hide Refresh, Network.Forward, Before;
    }
    if k < |es| {
      assert Pass2(n, d, es, k + 1).0 == pass2[..k + 1];
      assert pass2[..k + 1][k] == pass2[k];
    }
  }

  /** A phase follows any list of planes that take the same steps. */
  lemma {:induction false} Follows(p: Phase, hs: nat -> Plane, k: nat)
    requires Fit(p) && k <= |p.visits| && SamePlane(p.start, hs(0))
    requires forall e: nat :: e < |p.visits| ==> Moves(p, hs, e)
    ensures SamePlane(PlaneAfter(p, k), hs(k))
    ensures k < |p.visits| ==>
      Out(p, k) == Network.Forward(p.net, p.layer, p.grid, p.visits[k].at, p.visits[k].feat, hs(k))
  {
    if k > 0 {
      Follows(p, hs, k - 1);
      assert Moves(p, hs, k - 1);
      hide NextHid;
      forall c ensures PlaneAfter(p, k)(c) == hs(k)(c) { NextSame(p, k - 1, PlaneAfter(p, k - 1), hs(k - 1), c); }
    }
    if k < |p.visits| {
      var v := p.visits[k];
      GatherLocal(p.net, p.layer, p.grid, v.at, v.feat, PlaneAfter(p, k), hs(k), 0);
    }
  }

  lemma NextSame(p: Phase, e: nat, h: Plane, k: Plane, c: Cell)
    requires e < |p.visits| && SamePlane(h, k)
    ensures NextHid(p.layer, p.grid, p.visits[e].at, p.visits[e].feat, h, c)
      == NextHid(p.layer, p.grid, p.visits[e].at, p.visits[e].feat, k, c)
  {
  }

  ghost predicate Moves(p: Phase, hs: nat -> Plane, e: nat)
    requires e < |p.visits|
  {
    var v := p.visits[e];
    hs(e + 1) == if v.enters then Refresh(p.layer, p.grid, v.at, v.feat, hs(e)) else hs(e)
  }

  /** What a layer of the batch leaves behind. */
  lemma PhaseResult(p: Phase, hs: nat -> Plane, hidden: Plane, out: nat -> Feat)
    requires Fit(p) && Exact(p.net) && SamePlane(p.start, hs(0)) && Ran(p, hidden, out)
    requires forall e: nat :: e < |p.visits| ==> Moves(p, hs, e)
    ensures SamePlane(hidden, hs(|p.visits|))
    ensures forall e: nat :: e < |p.visits| && p.visits[e].enters && p.visits[e].wanted ==>
      out(e) == Network.Forward(p.net, p.layer, p.grid, p.visits[e].at, p.visits[e].feat, hs(e))
  {
    hide Leads, Complete, Output, Moves, Network.Forward, Exact;
    var steps, s :| Leads(p, WarpLayer.Start(p), steps, s) && Complete(p, s) && s.hidden == hidden
      && forall e: nat :: e < |p.visits| && p.visits[e].enters && p.visits[e].wanted ==> out(e) == Output(p, s, e);
    WarpsAreSequential(p, steps, s);
    Follows(p, hs, |p.visits|);
    forall e: nat | e < |p.visits| && p.visits[e].enters && p.visits[e].wanted
      ensures out(e) == Network.Forward(p.net, p.layer, p.grid, p.visits[e].at, p.visits[e].feat, hs(e))
    {
      Follows(p, hs, e);
    }
  }

  /** Planes of the oracle before each event of the batch. */
  function PlaneOf(n: Net, o: Deep, es: seq<Input>, l: nat, k: nat): Plane {
    var d := if k <= |es| then Before(n, o, es, k) else o;
    match l
    case 4 => d.h4
    case 5 => d.h5
    case 6 => d.h6
    case _ => d.h7
  }

  function H(n: Net, o: Deep, es: seq<Input>, l: nat): nat -> Plane {
    (k: nat) => PlaneOf(n, o, es, l, k)
  }

  /** The oracle's features of event e. */
  function F4(n: Net, o: Deep, es: seq<Input>, e: nat): Feat
    requires e < |es|
  {
    Network.Forward(n, n.layers(4), G2(n), es[e].at, es[e].feat, H(n, o, es, 4)(e))
  }

  function F5(n: Net, o: Deep, es: seq<Input>, e: nat): Feat
    requires e < |es|
  {
    Network.Forward(n, n.layers(5), G2(n), es[e].at, F4(n, o, es, e), H(n, o, es, 5)(e))
  }

  function F6(n: Net, o: Deep, es: seq<Input>, e: nat): Feat
    requires e < |es|
  {
    Network.Forward(n, n.layers(6), G3(n), Pool(es[e].at), F5(n, o, es, e), H(n, o, es, 6)(e))
  }

  function F7(n: Net, o: Deep, es: seq<Input>, e: nat): Feat
    requires e < |es|
  {
    Network.Forward(n, n.layers(7), G3(n), Pool(es[e].at), F6(n, o, es, e), H(n, o, es, 7)(e))
  }

  /** How the oracle's planes move at event e. */
  lemma OracleMoves(n: Net, o: Deep, es: seq<Input>, e: nat)
    requires e < |es|
    ensures var d, at, up := Before(n, o, es, e), es[e].at, Pool(es[e].at);
      var pass := Passes(n.window, d.drop2(at));
      && H(n, o, es, 4)(e + 1) == Refresh(n.layers(4), G2(n), at, es[e].feat, H(n, o, es, 4)(e))
      && H(n, o, es, 5)(e + 1) == Refresh(n.layers(5), G2(n), at, F4(n, o, es, e), H(n, o, es, 5)(e))
      && H(n, o, es, 6)(e + 1) == (if pass then Refresh(n.layers(6), G3(n), up, F5(n, o, es, e), H(n, o, es, 6)(e))
        else H(n, o, es, 6)(e))
      && H(n, o, es, 7)(e + 1) == (if pass then Refresh(n.layers(7), G3(n), up, F6(n, o, es, e), H(n, o, es, 7)(e))
        else H(n, o, es, 7)(e))
      && OracleStep(n, d, es[e]).1 == if !pass then Dropped2
        else if Passes(n.window, d.drop3(up)) then Emitted(F7(n, o, es, e)) else Dropped3
  {
    BeforeStep(n, o, es, e);
    hide Before, Refresh, Network.Forward, Passes, Bump, G2, G3;
  }

  lemma Layer4(n: Net, d: Deep, o: Deep, es: seq<Input>, h: Plane, f: nat -> Feat)
    requires Exact(n) && Wide(n) && OnGrids(n, es) && SamePlane(d.h4, o.h4) && Ran(Phase4(n, d, es), h, f)
    ensures SamePlane(h, H(n, o, es, 4)(|es|)) && forall e: nat :: e < |es| ==> f(e) == F4(n, o, es, e)
  {
    var p, hs := Phase4(n, d, es), H(n, o, es, 4);
    assert es[..0] == [];
    hide Exact, Ran, Refresh, Network.Forward, H;
    assert SamePlane(p.start, hs(0)) by { HStart(n, o, es); }
    forall e: nat | e < |p.visits| ensures Moves(p, hs, e) { OracleMoves(n, o, es, e); }
    PhaseResult(p, hs, h, f);
    forall e: nat | e < |es| ensures f(e) == F4(n, o, es, e) { assert p.visits[e].enters && p.visits[e].wanted; }
  }

  lemma HStart(n: Net, o: Deep, es: seq<Input>)
    ensures H(n, o, es, 4)(0) == o.h4 && H(n, o, es, 5)(0) == o.h5 && H(n, o, es, 6)(0) == o.h6
      && H(n, o, es, 7)(0) == o.h7
  {
    assert es[..0] == [];
  }

  lemma Layer5(n: Net, d: Deep, o: Deep, es: seq<Input>, outs: Outs, pass2: seq<bool>, h: Plane)
    requires Exact(n) && Wide(n) && OnGrids(n, es) && SamePlane(d.h5, o.h5) && |pass2| == |es|
      && Ran(Phase5(n, d, es, outs, pass2), h, outs.f5)
    requires forall e: nat :: e < |es| ==> outs.f4(e) == F4(n, o, es, e)
    ensures SamePlane(h, H(n, o, es, 5)(|es|)) && forall e: nat :: e < |es| && pass2[e] ==>
      outs.f5(e) == F5(n, o, es, e)
  {
    var p, hs := Phase5(n, d, es, outs, pass2), H(n, o, es, 5);
    hide Exact, Ran, Refresh, Network.Forward, H, F4;
    HStart(n, o, es);
    forall e: nat | e < |p.visits| ensures Moves(p, hs, e) { OracleMoves(n, o, es, e); }
    PhaseResult(p, hs, h, outs.f5);
    forall e: nat | e < |es| && pass2[e]
      ensures outs.f5(e) == F5(n, o, es, e)
    {
      assert p.visits[e].enters && p.visits[e].wanted;
    }
  }

  lemma VisitAt(es: seq<Input>, pass2: seq<bool>, pass3: seq<bool>, e: nat)
    requires e < |es| == |pass2| == |pass3|
    ensures PooledCell(es)(e) == Pool(es[e].at) && (Flag(pass2)(e) <==> pass2[e]) && (Flag(pass3)(e) <==> pass3[e])
  {
  }

  lemma Layer6(n: Net, d: Deep, o: Deep, es: seq<Input>, outs: Outs, pass2: seq<bool>, h: Plane)
    requires Exact(n) && Wide(n) && OnGrids(n, es) && SamePlane(d.h6, o.h6) && |pass2| == |es|
      && Ran(Phase6(n, d, es, outs, pass2), h, outs.f6)
    requires forall e: nat :: e < |es| && pass2[e] ==> outs.f5(e) == F5(n, o, es, e)
    requires forall e: nat :: e < |es| ==> (pass2[e] <==> Passes(n.window, Before(n, o, es, e).drop2(es[e].at)))
    ensures SamePlane(h, H(n, o, es, 6)(|es|)) && forall e: nat :: e < |es| && pass2[e] ==>
      outs.f6(e) == F6(n, o, es, e)
  {
    var p, hs := Phase6(n, d, es, outs, pass2), H(n, o, es, 6);
    hide Exact, Ran, Refresh, Network.Forward, H, F5, Passes, Before;
    HStart(n, o, es);
    forall e: nat | e < |p.visits| ensures Moves(p, hs, e) {
      OracleMoves(n, o, es, e);
      VisitAt(es, pass2, pass2, e);
      assert p.visits[e] == Visit(PooledCell(es)(e), outs.f5(e), Flag(pass2)(e), Flag(pass2)(e));
    }
    PhaseResult(p, hs, h, outs.f6);
    forall e: nat | e < |es| && pass2[e]
      ensures outs.f6(e) == F6(n, o, es, e)
    {
      assert p.visits[e].enters && p.visits[e].wanted;
    }
  }

  lemma Layer7(n: Net, d: Deep, o: Deep, es: seq<Input>, outs: Outs, pass2: seq<bool>, pass3: seq<bool>, h: Plane)
    requires Exact(n) && Wide(n) && OnGrids(n, es) && SamePlane(d.h7, o.h7) && |pass2| == |pass3| == |es|
    requires Ran(Phase7(n, d, es, outs, pass2, pass3), h, outs.f7)
    requires forall e: nat :: e < |es| && pass2[e] ==> outs.f6(e) == F6(n, o, es, e)
    requires forall e: nat :: e < |es| ==> (pass2[e] <==> Passes(n.window, Before(n, o, es, e).drop2(es[e].at)))
    ensures SamePlane(h, H(n, o, es, 7)(|es|)) && forall e: nat :: e < |es| && pass2[e] && pass3[e] ==>
      outs.f7(e) == F7(n, o, es, e)
  {
    var p, hs := Phase7(n, d, es, outs, pass2, pass3), H(n, o, es, 7);
    hide Exact, Ran, Refresh, Network.Forward, H, F6, Passes, Before;
    HStart(n, o, es);
    forall e: nat | e < |p.visits| ensures Moves(p, hs, e) {
      OracleMoves(n, o, es, e);
      VisitAt(es, pass2, pass3, e);
      assert p.visits[e] == Visit(PooledCell(es)(e), outs.f6(e), Flag(pass2)(e), Flag(pass3)(e));
    }
    PhaseResult(p, hs, h, outs.f7);
    forall e: nat | e < |es| && pass2[e] && pass3[e]
      ensures outs.f7(e) == F7(n, o, es, e)
    {
      assert p.visits[e].enters && p.visits[e].wanted;
    }
  }

  /** A batch by warps is the batch event by event: the same hidden cells, the same counters, the
      same fate and final feature for every event, whatever the interleaving in each layer. */
  lemma BatchIsOracle(n: Net, d: Deep, es: seq<Input>, d': Deep, fates: seq<Fate>, outs: Outs, o: Deep)
    requires Exact(n) && Wide(n) && OnGrids(n, es) && Batch(n, d, es, d', fates, outs) && Like(d, o)
    ensures Like(d', Oracle(n, o, es).0) && fates == Oracle(n, o, es).1
  {
    var b := |es|;
    Pass2Length(n, d, es, b);
    var pass2 := Pass2(n, d, es, b).0;
    Pass3Length(n, d, es, pass2, b);
    var pass3 := Pass3(n, d, es, pass2, b).0;
    forall k: nat | k <= b
      ensures Before(n, o, es, k).drop2 == Pass2(n, d, es, k).1
        && Before(n, o, es, k).drop3 == Pass3(n, d, es, pass2, k).1
      ensures k < b ==> (pass2[k] <==> Passes(n.window, Before(n, o, es, k).drop2(es[k].at)))
    {
      Flags(n, d, o, es, pass2, k);
    }
    hide Exact, Ran, H, F4, F5, F6, F7, Phase4, Phase5, Phase6, Phase7, Before, Oracle, Pass2, Passes;
    Layer4(n, d, o, es, d'.h4, outs.f4);
    Layer5(n, d, o, es, outs, pass2, d'.h5);
    Layer6(n, d, o, es, outs, pass2, d'.h6);
    Layer7(n, d, o, es, outs, pass2, pass3, d'.h7);
    AtEnd(n, o, es);
    FatesLength(n, o, es);
    forall e: nat | e < b ensures fates[e] == Oracle(n, o, es).1[e] {
      FateAt(n, o, es, e);
      OracleMoves(n, o, es, e);
      if pass2[e] { Decision3(n, d, es, pass2, pass3, e); }
    }
  }

  lemma AtEnd(n: Net, o: Deep, es: seq<Input>)
    ensures var d := Oracle(n, o, es).0;
      && H(n, o, es, 4)(|es|) == d.h4 && H(n, o, es, 5)(|es|) == d.h5 && H(n, o, es, 6)(|es|) == d.h6
        && H(n, o, es, 7)(|es|) == d.h7
      && Before(n, o, es, |es|) == d
  {
    assert es[..|es|] == es;
  }

  lemma Decision3(n: Net, d: Deep, es: seq<Input>, pass2: seq<bool>, pass3: seq<bool>, e: nat)
    requires e < |es| == |pass2| == |pass3| && pass2[e] && pass3 == Pass3(n, d, es, pass2, |es|).0
    ensures pass3[e] <==> Passes(n.window, Pass3(n, d, es, pass2, e).1(Pool(es[e].at)))
  {
    Pass3Length(n, d, es, pass2, |es|);
    Pass3Length(n, d, es, pass2, e);
    assert Pass3(n, d, es, pass2, e + 1).0 == pass3[..e + 1];
    assert pass3[..e + 1][e] == pass3[e];
  }

  // ---- any stream, cut into any batches ----

  function Flatten<T>(bs: seq<seq<T>>): seq<T> {
    if bs == [] then [] else Flatten(bs[..|bs| - 1]) + bs[|bs| - 1]
  }

  ghost predicate Batches(n: Net, ds: seq<Deep>, bs: seq<seq<Input>>, fs: seq<seq<Fate>>) {
    && |ds| == |bs| + 1 && |fs| == |bs|
    && forall i :: 0 <= i < |bs| ==> BatchAt(n, ds, bs, fs, i)
  }

  ghost predicate BatchAt(n: Net, ds: seq<Deep>, bs: seq<seq<Input>>, fs: seq<seq<Fate>>, i: nat)
    requires |ds| == |bs| + 1 && |fs| == |bs| && i < |bs|
  {
    Linked(n, ds[i], bs[i], ds[i + 1], fs[i])
  }

  ghost predicate Linked(n: Net, d: Deep, es: seq<Input>, d': Deep, fates: seq<Fate>) {
    exists outs :: Batch(n, d, es, d', fates, outs)
  }

  lemma {:induction false} OracleAppend(n: Net, o: Deep, a: seq<Input>, b: seq<Input>)
    ensures Oracle(n, o, a + b).0 == Oracle(n, Oracle(n, o, a).0, b).0
    ensures Oracle(n, o, a + b).1 == Oracle(n, o, a).1 + Oracle(n, Oracle(n, o, a).0, b).1
  {
    hide OracleStep;
    if b == [] {
      assert a + b == a;
    } else {
      OracleAppend(n, o, a, b[..|b| - 1]);
      assert (a + b)[..|a + b| - 1] == a + b[..|b| - 1];
    }
  }

  lemma {:induction false} StreamIsOracle(n: Net, ds: seq<Deep>, bs: seq<seq<Input>>, fs: seq<seq<Fate>>, o: Deep)
    requires Exact(n) && Wide(n) && Batches(n, ds, bs, fs) && Like(ds[0], o)
    requires forall i :: 0 <= i < |bs| ==> OnGrids(n, bs[i])
    ensures Like(ds[|bs|], Oracle(n, o, Flatten(bs)).0) && Flatten(fs) == Oracle(n, o, Flatten(bs)).1
  {
    hide Exact, Batch, Like, Oracle;
    if bs != [] {
      var m := |bs| - 1;
      var ds', bs', fs' := ds[..m + 1], bs[..m], fs[..m];
      forall i | 0 <= i < m ensures BatchAt(n, ds', bs', fs', i) {
        assert BatchAt(n, ds, bs, fs, i);
      }
      StreamIsOracle(n, ds', bs', fs', o);
      assert BatchAt(n, ds, bs, fs, m);
      var x :| Batch(n, ds[m], bs[m], ds[m + 1], fs[m], x);
      BatchIsOracle(n, ds[m], bs[m], ds[m + 1], fs[m], x, Oracle(n, o, Flatten(bs[..m])).0);
      OracleAppend(n, o, Flatten(bs[..m]), bs[m]);
    } else {
      FatesLength(n, o, []);
      assert Oracle(n, o, []).0 == o by { OracleNothing(n, o); }
    }
  }

  lemma OracleNothing(n: Net, o: Deep)
    ensures Oracle(n, o, []).0 == o
  {
  }
}
