/** Batches whose decision counters never wrap, against the oracle, whose counters are bytes. */
module CountingBatches {
  import opened Arith
  import opened Network
  import opened WarpLayer
  import opened CellBatches
  import opened OracleLoops

  /** One batch: the decision loops on counters that never wrap, then the layers. */
  ghost predicate CountingBatch(n: Net, d: Deep, es: seq<Input>, d': Deep, fates: seq<Fate>, o: Outs)
    requires n.window >= 1
  {
    var b := |es|;
    CountLength(n.window, d.drop2, es, b);
    var (pass2, count2) := Count2(n.window, d.drop2, es, b);
    var (pass3, count3) := Count3(n.window, d.drop3, es, pass2, b);
    Layers(n, d, es, pass2, pass3, d', fates, o) && d'.drop2 == count2 && d'.drop3 == count3
  }

  /** Same planes, and bytes that are the counters modulo 256. */
  ghost predicate Alike(a: Deep, o: Deep) {
    && SamePlane(a.h4, o.h4) && SamePlane(a.h5, o.h5) && SamePlane(a.h6, o.h6) && SamePlane(a.h7, o.h7)
    && Congruent(a.drop2, o.drop2) && Congruent(a.drop3, o.drop3)
  }

  /** The same batch on bytes. */
  function OnBytes(d: Deep, o: Deep): Deep {
    d.(drop2 := o.drop2, drop3 := o.drop3)
  }

  lemma LayersIgnoreCounters(n: Net, d: Deep, e: Deep, es: seq<Input>, pass2: seq<bool>, pass3: seq<bool>, d': Deep,
      e': Deep,
                             fates: seq<Fate>, o: Outs)
    requires Layers(n, d, es, pass2, pass3, d', fates, o) && e == OnBytes(d, e) && e' == OnBytes(d', e')
    ensures Layers(n, e, es, pass2, pass3, e', fates, o)
  {
    hide Ran, LayerPhase;
  }

  lemma CountingIsBatch(n: Net, d: Deep, es: seq<Input>, d': Deep, fates: seq<Fate>, outs: Outs, o: Deep)
      returns (e': Deep)
    requires n.window >= 1 && 256 % n.window == 0 && Alike(d, o) && CountingBatch(n, d, es, d', fates, outs)
    ensures Batch(n, OnBytes(d, o), es, e', fates, outs) && e' == OnBytes(d', e') && Congruent(d'.drop2, e'.drop2)
      && Congruent(d'.drop3, e'.drop3)
  {
    hide Count2, Count3, Pass2, Pass3, Layers, Congruent;
    var b, e := |es|, OnBytes(d, o);
    CountLength(n.window, d.drop2, es, b);
    Pass2Length(n, e, es, b);
    FlagsLikeBytes2(n, e, d.drop2, es, b);
    var pass2 := Pass2(n, e, es, b).0;
    FlagsLikeBytes3(n, e, d.drop3, es, pass2, b);
    var pass3 := Pass3(n, e, es, pass2, b).0;
    e' := d'.(drop2 := Pass2(n, e, es, b).1, drop3 := Pass3(n, e, es, pass2, b).1);
    LayersIgnoreCounters(n, d, e, es, pass2, pass3, d', e', fates, outs);
  }

  /** With a window that divides 256 a batch on unbounded counters gives the planes, fates and
      features of the oracle, whose bytes are the remainders of the counters. */
  lemma CountingIsOracle(n: Net, d: Deep, es: seq<Input>, d': Deep, fates: seq<Fate>, outs: Outs, o: Deep)
    requires Exact(n) && Wide(n) && OnGrids(n, es) && n.window >= 1 && 256 % n.window == 0
    requires Alike(d, o) && CountingBatch(n, d, es, d', fates, outs)
    ensures Alike(d', Oracle(n, o, es).0) && fates == Oracle(n, o, es).1
  {
    var e' := CountingIsBatch(n, d, es, d', fates, outs, o);
    hide Batch, CountingBatch, Oracle, Exact;
    BatchIsOracle(n, OnBytes(d, o), es, e', fates, outs, o);
  }

  // ---- any stream, cut into any batches ----

  ghost predicate CountingLinked(n: Net, d: Deep, es: seq<Input>, d': Deep, fates: seq<Fate>)
    requires n.window >= 1
  {
    exists outs :: CountingBatch(n, d, es, d', fates, outs)
  }

  ghost predicate CountingBatches(n: Net, ds: seq<Deep>, bs: seq<seq<Input>>, fs: seq<seq<Fate>>)
    requires n.window >= 1
  {
    |ds| == |bs| + 1 && |fs| == |bs| && forall i :: 0 <= i < |bs| ==> CountingLinked(n, ds[i], bs[i], ds[i + 1], fs[i])
  }

  lemma {:induction false} CountingStreamIsOracle(n: Net, ds: seq<Deep>, bs: seq<seq<Input>>, fs: seq<seq<Fate>>,
      o: Deep)
    requires Exact(n) && Wide(n) && n.window >= 1 && 256 % n.window == 0 && CountingBatches(n, ds, bs, fs)
      && Alike(ds[0], o)
    requires forall i :: 0 <= i < |bs| ==> OnGrids(n, bs[i])
    ensures Alike(ds[|bs|], Oracle(n, o, Flatten(bs)).0) && Flatten(fs) == Oracle(n, o, Flatten(bs)).1
  {
    hide Exact, CountingBatch, Alike, Oracle, Wide, OnGrids;
    if bs == [] {
      FatesLength(n, o, []);
      OracleNothing(n, o);
    } else {
      var m := |bs| - 1;
      var ds', bs', fs' := ds[..m + 1], bs[..m], fs[..m];
      forall i | 0 <= i < m ensures CountingLinked(n, ds'[i], bs'[i], ds'[i + 1], fs'[i]) {
        assert CountingLinked(n, ds[i], bs[i], ds[i + 1], fs[i]);
      }
      CountingStreamIsOracle(n, ds', bs', fs', o);
      assert CountingLinked(n, ds[m], bs[m], ds[m + 1], fs[m]);
      var x :| CountingBatch(n, ds[m], bs[m], ds[m + 1], fs[m], x);
      CountingIsOracle(n, ds[m], bs[m], ds[m + 1], fs[m], x, Oracle(n, o, Flatten(bs')).0);
      OracleAppend(n, o, Flatten(bs'), bs[m]);
    }
  }

  // ---- batches exist ----

  lemma RanExists(p: Phase) returns (hidden: Plane, out: nat -> Feat)
    requires WarpLayer.Fit(p)
    ensures Ran(p, hidden, out)
  {
    var steps, s := BarrierReached(p, [], WarpLayer.Start(p));
    hidden, out := s.hidden, (e: nat) => if e < |p.visits| then Output(p, s, e) else p.net.zero;
  }

  lemma PhasesFit(n: Net, d: Deep, es: seq<Input>, o: Outs, pass2: seq<bool>, pass3: seq<bool>)
    requires Wide(n) && OnGrids(n, es)
    ensures WarpLayer.Fit(Phase4(n, d, es)) && WarpLayer.Fit(Phase5(n, d, es, o, pass2))
    ensures WarpLayer.Fit(Phase6(n, d, es, o, pass2)) && WarpLayer.Fit(Phase7(n, d, es, o, pass2, pass3))
  {
  }

  /** For any decisions the warps can run the layers. */
  lemma LayersExist(n: Net, d: Deep, es: seq<Input>, pass2: seq<bool>, pass3: seq<bool>)
      returns (d': Deep, fates: seq<Fate>, o: Outs)
    requires Wide(n) && OnGrids(n, es) && |pass2| == |pass3| == |es|
    ensures Layers(n, d, es, pass2, pass3, d', fates, o) && d'.drop2 == d.drop2 && d'.drop3 == d.drop3
  {
    hide Ran, WarpLayer.Fit, Wide, OnGrids, LayerPhase;
    var none := FeatOf(n, []);
    o := Outs(none, none, none, none);
    PhasesFit(n, d, es, o, pass2, pass3);
    var h4, f4 := RanExists(Phase4(n, d, es));
    o := Outs(f4, none, none, none);
    PhasesFit(n, d, es, o, pass2, pass3);
    var h5, f5 := RanExists(Phase5(n, d, es, o, pass2));
    o := Outs(f4, f5, none, none);
    PhasesFit(n, d, es, o, pass2, pass3);
    var h6, f6 := RanExists(Phase6(n, d, es, o, pass2));
    o := Outs(f4, f5, f6, none);
    PhasesFit(n, d, es, o, pass2, pass3);
    var h7, f7 := RanExists(Phase7(n, d, es, o, pass2, pass3));
    o := Outs(f4, f5, f6, f7);
    d' := d.(h4 := h4, h5 := h5, h6 := h6, h7 := h7);
    fates := seq(|es|, e requires 0 <= e < |es| => if !pass2[e] then Dropped2 else if !pass3[e] then Dropped3
      else Emitted(o.f7(e)));
  }

  lemma {:induction false} Count3Length(window: nat, count: Bytes, es: seq<Input>, pass2: seq<bool>, k: nat)
    requires window >= 1 && k <= |es| == |pass2|
    ensures |Count3(window, count, es, pass2, k).0| == k
  {
    if k == 0 {
    } else {
      Count3Length(window, count, es, pass2, k - 1);
    }
  }

  lemma CountingExists(n: Net, d: Deep, es: seq<Input>) returns (d': Deep, fates: seq<Fate>, o: Outs)
    requires n.window >= 1 && Wide(n) && OnGrids(n, es)
    ensures CountingBatch(n, d, es, d', fates, o)
  {
    hide Count2, Count3, Layers, Wide, OnGrids;
    CountLength(n.window, d.drop2, es, |es|);
    var (pass2, count2) := Count2(n.window, d.drop2, es, |es|);
    Count3Length(n.window, d.drop3, es, pass2, |es|);
    var (pass3, count3) := Count3(n.window, d.drop3, es, pass2, |es|);
    var e';
    e', fates, o := LayersExist(n, d, es, pass2, pass3);
    d' := e'.(drop2 := count2, drop3 := count3);
    LayersIgnoreCounters(n, d, d, es, pass2, pass3, e', d', fates, o);
  }

  // ---- and only then ----

  /** The 257th event of a cell is dropped by the batch and not by the oracle. */
  lemma TooMany(n: Net, d: Deep, i: Input, o: Deep, d': Deep, fates: seq<Fate>, outs: Outs)
    requires n.window >= 1 && 256 % n.window != 0 && d.drop2(i.at) == o.drop2(i.at) == 0
    requires CountingBatch(n, d, seq(257, _ => i), d', fates, outs)
    ensures fates != Oracle(n, o, seq(257, _ => i)).1
  {
    var es := seq(257, _ => i);
    hide Layers;
    Repeated(n, o, d.drop2, es, i.at, 256);
    CountLength(n.window, d.drop2, es, 256);
    CountLength(n.window, d.drop2, es, 257);
    assert !Count2(n.window, d.drop2, es, 257).0[256];
    DroppedAt(n, d, es, d', fates, outs, 256);
    FatesLength(n, o, es);
    FateAt(n, o, es, 256);
    Pass2Length(n, o, es, 257);
    Flags(n, o, o, es, Pass2(n, o, es, 257).0, 256);
    Unique(0, 0, 0, n.window);
    assert Before(n, o, es, 256).drop2(i.at) == 0;
    hide Count2, Pass2, Oracle, Before, Refresh, Forward;
  }

  lemma DroppedAt(n: Net, d: Deep, es: seq<Input>, d': Deep, fates: seq<Fate>, outs: Outs, e: nat)
    requires n.window >= 1 && CountingBatch(n, d, es, d', fates, outs) && e < |es|
    requires |Count2(n.window, d.drop2, es, |es|).0| == |es| && !Count2(n.window, d.drop2, es, |es|).0[e]
    ensures |fates| == |es| && fates[e] == Dropped2
  {
    hide Ran, Count2, Count3;
  }

  /** So batches with counters that never wrap agree with the oracle on every stream of events if and
      only if the window divides 256. */
  lemma CountingExactly(n: Net, d: Deep, o: Deep, i: Input)
    requires Exact(n) && Wide(n) && OnGrids(n, [i]) && n.window >= 1 && Alike(d, o) && d.drop2(i.at) == 0
    ensures (forall es, d', fates, outs :: OnGrids(n, es) && CountingBatch(n, d, es, d', fates, outs) ==>
      fates == Oracle(n, o, es).1)
            <==> 256 % n.window == 0
  {
    if 256 % n.window == 0 {
      forall es, d', fates, outs | OnGrids(n, es) && CountingBatch(n, d, es, d', fates, outs)
        ensures fates == Oracle(n, o, es).1
      {
        CountingIsOracle(n, d, es, d', fates, outs, o);
      }
    } else {
      var es := seq(257, _ => i);
      assert [i][0] == i && OnGrids(n, es);
      assert o.drop2(i.at) == 0;
      hide CountingBatch, Oracle, Exact, Wide, Alike;
      var d', fates, outs := CountingExists(n, d, es);
      TooMany(n, d, i, o, d', fates, outs);
    }
  }
}
