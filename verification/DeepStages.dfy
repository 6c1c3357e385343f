/** The oracle of stages 2 and 3 beside the same stages of the sequential loop: the layers are the same,
    the rule by which events are dropped is not. */
module DeepStages {
  import opened Geometry
  import opened Network
  import opened Sequential
  import opened CellBatches

  /** The same hidden planes. */
  ghost predicate SamePlanes(d: Deep, st: State) {
    d.h4 == st.m2.a && d.h5 == st.m2.b && d.h6 == st.m3.a && d.h7 == st.m3.b
  }

  /** One event through the last two stages of the sequential loop. */
  lemma LastStages(n: Net, st: State, at: Cell, f: Feat)
    ensures var g2, g3, c, r := G2(n), G3(n), Pool(at), Enter(n, 2, st, at, f);
      var (h4, f4) := LayerStep(n, 4, g2, at, f, st.m2.a);
      var (h5, f5) := LayerStep(n, 5, g2, at, f4, st.m2.b);
      var (h6, f6) := LayerStep(n, 6, g3, c, f5, st.m3.a);
      var (h7, f7) := LayerStep(n, 7, g3, c, f6, st.m3.b);
      var pass := Passes(n.window, st.m2.drop(c));
      && r.m2 == StageMem(h4, h5, Bump(st.m2.drop, c))
      && r.m3 == (if pass then st.m3.(a := h6, b := h7) else st.m3)
      && r.pred == if pass then Decode(n, st.pred, c, f7) else st.pred
  {
    hide Forward, Refresh, Bump, Passes, Decode;
    var st1 := Sequential.Ran(n, 2, st, at, f);
    var st2 := Checked(2, st1, Pool(at));
    assert Leave(n, 2, st1, at, StageFeat(n, 2, st.m2, at, f)) == if Passes(n.window, st.m2.drop(Pool(at))) then
        Enter(n, 3, st2, Pool(at), StageFeat(n, 2, st.m2, at, f)) else st2;
  }

  /** The oracle's layers are those of the loop: always at stage 2; at stage 3 whenever both let the event
      pass or both drop it; and what the oracle emits is what the loop decodes. */
  lemma SameLayers(n: Net, d: Deep, st: State, i: Input)
    requires SamePlanes(d, st)
    ensures var (d', fate), r := OracleStep(n, d, i), Enter(n, 2, st, i.at, i.feat);
      var pass := Passes(n.window, st.m2.drop(Pool(i.at)));
      && d'.h4 == r.m2.a && d'.h5 == r.m2.b
      && ((fate != Dropped2 <==> pass) ==> SamePlanes(d', r))
      && (fate.Emitted? && pass && InGrid(G3(n), Pool(i.at)) ==>
            r.pred(Pool(i.at)) == n.decode(Pool(i.at), fate.feat))
  {
    LastStages(n, st, i.at, i.feat);
    hide Forward, Refresh, Bump, Passes, Enter;
  }

  /** A stream of inputs through stages 2 and 3 of the loop. */
  function Feed(n: Net, st: State, es: seq<Input>): State {
    if es == [] then st
    else Enter(n, 2, Feed(n, st, es[..|es| - 1]), es[|es| - 1].at, es[|es| - 1].feat)
  }

  /** Event i of a stream is dropped behind stage 2 by both or by neither. */
  ghost predicate SameDrop(n: Net, d: Deep, st: State, es: seq<Input>, i: nat)
    requires i < |es|
  {
    Passes(n.window, Oracle(n, d, es[..i]).0.drop2(es[i].at)) <==>
    Passes(n.window, Feed(n, st, es[..i]).m2.drop(Pool(es[i].at)))
  }

  /** The oracle counts an event on its own cell, the loop on the pooled one.  From fresh counters they
      decide alike on every stream if and only if every event passes anyway. */
  lemma DropRules(n: Net, d: Deep, st: State)
    requires G2(n).w >= 2 && G2(n).h >= 2 && forall c :: d.drop2(c) == 0 && st.m2.drop(c) == 0
    ensures (forall es: seq<Input>, i: nat :: OnGrids(n, es) && i < |es| ==> SameDrop(n, d, st, es, i)) <==>
      n.window <= 1
  {
    if n.window > 1 {
      var es := TwoInBlock(n, d, st);
    } else {
      hide Oracle, Feed;
    }
  }

  /** Two neighbours in one block: both are the first on their cells, the second is not on the block. */
  lemma TwoInBlock(n: Net, d: Deep, st: State) returns (es: seq<Input>)
    requires n.window > 1 && G2(n).w >= 2 && G2(n).h >= 2 && forall c :: d.drop2(c) == 0 && st.m2.drop(c) == 0
    ensures OnGrids(n, es) && |es| == 2 && !SameDrop(n, d, st, es, 1)
  {
    hide OracleStep, Enter, Oracle, Feed;
    var a, b := Input(Cell(0, 0), n.zero), Input(Cell(1, 0), n.zero);
    es := [a, b];
    OneCounted(n, d, st, a);
    assert es[..1] == [a] && es[1] == b;
    assert G3(n) == Halve(G2(n));
  }

  lemma OneCounted(n: Net, d: Deep, st: State, a: Input)
    ensures Oracle(n, d, [a]).0.drop2 == Bump(d.drop2, a.at)
    ensures Feed(n, st, [a]).m2.drop == Bump(st.m2.drop, Pool(a.at))
  {
    hide Forward, Refresh, Bump, Passes, Enter;
    LastStages(n, st, a.at, a.feat);
    assert [a][..0] == [];
    assert Oracle(n, d, []) == (d, []) && Feed(n, st, []) == st;
    assert Oracle(n, d, [a]).0 == OracleStep(n, d, a).0;
    assert Feed(n, st, [a]) == Enter(n, 2, st, a.at, a.feat);
  }

  /** Then they are the same on every stream. */
  lemma {:induction false} OracleIsStages(n: Net, d: Deep, st: State, es: seq<Input>)
    requires n.window <= 1 && SamePlanes(d, st)
    ensures SamePlanes(Oracle(n, d, es).0, Feed(n, st, es))
  {
    hide Enter, SamePlanes;
    if es == [] {
    } else {
      var rest, i := es[..|es| - 1], es[|es| - 1];
      OracleIsStages(n, d, st, rest);
      SameLayers(n, Oracle(n, d, rest).0, Feed(n, st, rest), i);
    }
  }
}
