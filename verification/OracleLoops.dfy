/** The loops around stages 2 and 3: the oracle on arrays, event by event, and the two decision
    loops of a batch, whose counters do not wrap. */
module OracleLoops {
  import opened Arith
  import opened Geometry
  import opened Network
  import opened Sequential
  import opened Kernels
  import opened CellBatches

  /** Hidden arrays of layers 4 to 7, counter arrays behind stages 2 and 3. */
  class Arrays {
    const h4: array<Hid>
    const h5: array<Hid>
    const h6: array<Hid>
    const h7: array<Hid>
    const drop2: array<nat>
    const drop3: array<nat>

    constructor (a: array<Hid>, b: array<Hid>, c: array<Hid>, d: array<Hid>, e: array<nat>, f: array<nat>)
      ensures h4 == a && h5 == b && h6 == c && h7 == d && drop2 == e && drop3 == f
    {
      h4, h5, h6, h7, drop2, drop3 := a, b, c, d, e, f;
    }

    ghost predicate Fits(n: Net) {
      && h4.Length == h5.Length == drop2.Length == Cells(G2(n))
        && h6.Length == h7.Length == drop3.Length == Cells(G3(n))
      && h4 != h5 && h4 != h6 && h4 != h7 && h5 != h6 && h5 != h7 && h6 != h7 && drop2 != drop3
      && (var hidden: set<object> := {h4, h5, h6, h7}; drop2 !in hidden && drop3 !in hidden)
    }

    ghost predicate Holds(n: Net, d: Deep)
      requires Fits(n)
      reads h4, h5, h6, h7, drop2, drop3
    {
      && Shows(h4, G2(n), d.h4) && Shows(h5, G2(n), d.h5) && Shows(drop2, G2(n), d.drop2)
      && Shows(h6, G3(n), d.h6) && Shows(h7, G3(n), d.h7) && Shows(drop3, G3(n), d.drop3)
    }
  }

  /** Events that got past stage 2, and past stage 3. */
  function Past2(fs: seq<Fate>): nat {
    if fs == [] then 0 else Past2(fs[..|fs| - 1]) + if fs[|fs| - 1].Dropped2? then 0 else 1
  }

  function Past3(fs: seq<Fate>): nat {
    if fs == [] then 0 else Past3(fs[..|fs| - 1]) + if fs[|fs| - 1].Emitted? then 1 else 0
  }

  lemma PastStep(fs: seq<Fate>, f: Fate)
    ensures Past2(fs + [f]) == Past2(fs) + if f.Dropped2? then 0 else 1
    ensures Past3(fs + [f]) == Past3(fs) + if f.Emitted? then 1 else 0
  {
    assert (fs + [f])[..|fs|] == fs;
  }

  /** The same events, by number. */
  function Past2At(fs: seq<Fate>): set<nat> {
    set i: nat | i < |fs| && fs[i] != Dropped2
  }

  function Past3At(fs: seq<Fate>): set<nat> {
    set i: nat | i < |fs| && fs[i].Emitted?
  }

  lemma {:induction false} PastAre(fs: seq<Fate>)
    ensures Past2(fs) == |Past2At(fs)| && Past3(fs) == |Past3At(fs)|
  {
    if fs == [] {
      assert Past2At(fs) == {} && Past3At(fs) == {};
    } else {
      var k := |fs| - 1;
      PastAre(fs[..k]);
      OneMoreIndex(Past2At(fs[..k]), Past2At(fs), k, fs[k] != Dropped2);
      OneMoreIndex(Past3At(fs[..k]), Past3At(fs), k, fs[k].Emitted?);
    }
  }

  method OracleEvent(n: Net, a: Arrays, i: Input, ghost d: Deep) returns (fate: Fate)
    requires a.Fits(n) && a.Holds(n, d) && InGrid(G2(n), i.at) && InGrid(G3(n), Pool(i.at))
    modifies a.h4, a.h5, a.h6, a.h7, a.drop2, a.drop3
    ensures a.Holds(n, OracleStep(n, d, i).0) && fate == OracleStep(n, d, i).1
  {
    hide Shows, Forward, Refresh, Bump, Passes, Pool, InGrid, Cells;
    var g2, g3 := Halve(Halve(n.grid)), Halve(Halve(Halve(n.grid)));
    TwoHalvings(n);
    var buf := LayerForward(n, n.layers(4), a.h4, g2, i.at, i.feat, d.h4);
    var out2 := LayerForward(n, n.layers(5), a.h5, g2, i.at, buf, d.h5);
    var pass2 := TouchByte(a.drop2, g2, n.window, i.at, d.drop2);
    if !pass2 { return Dropped2; }
    var at := Pool(i.at);
    buf := LayerForward(n, n.layers(6), a.h6, g3, at, out2, d.h6);
    var out3 := LayerForward(n, n.layers(7), a.h7, g3, at, buf, d.h7);
    var pass3 := TouchByte(a.drop3, g3, n.window, at, d.drop3);
    fate := if pass3 then Emitted(out3) else Dropped3;
  }

  lemma TwoHalvings(n: Net)
    ensures G2(n) == Halve(Halve(n.grid)) && G3(n) == Halve(Halve(Halve(n.grid)))
  {
    assert StageGrid(n.grid, 0) == n.grid;
    assert StageGrid(n.grid, 1) == Halve(n.grid);
    assert StageGrid(n.grid, 2) == Halve(Halve(n.grid));
  }

  lemma OracleSplit(n: Net, d: Deep, es: seq<Input>, i: nat)
    requires i < |es|
    ensures var r := Oracle(n, d, es[..i]);
      Oracle(n, d, es[..i + 1]) == (OracleStep(n, r.0, es[i]).0, r.1 + [OracleStep(n, r.0, es[i]).1])
  {
    hide OracleStep;
    assert es[..i + 1][..i] == es[..i];
  }

  /** cpu_oracle. */
  method CpuOracle(n: Net, a: Arrays, es: seq<Input>, ghost d: Deep) returns (fates: seq<Fate>, pass2: nat, pass3: nat)
    requires a.Fits(n) && a.Holds(n, d) && OnGrids(n, es)
    modifies a.h4, a.h5, a.h6, a.h7, a.drop2, a.drop3
    ensures a.Holds(n, Oracle(n, d, es).0) && fates == Oracle(n, d, es).1
    ensures pass2 == Past2(fates) && pass3 == Past3(fates)
    ensures pass2 == |Past2At(fates)| && pass3 == |Past3At(fates)|
  {
    hide OracleStep, Past2, Past3, Arrays.Holds, Arrays.Fits;
    fates, pass2, pass3 := [], 0, 0;
    NonePast(n, d);
    assert es[..0] == [];
    for i := 0 to |es|
      invariant a.Holds(n, Oracle(n, d, es[..i]).0) && fates == Oracle(n, d, es[..i]).1
      invariant pass2 == Past2(fates) && pass3 == Past3(fates)
    {
      OracleSplit(n, d, es, i);
      var fate := OracleEvent(n, a, es[i], Oracle(n, d, es[..i]).0);
      PastStep(fates, fate);
      fates := fates + [fate];
      if !fate.Dropped2? { pass2 := pass2 + 1; }
      if fate.Emitted? { pass3 := pass3 + 1; }
    }
    PastAre(fates);
    assert es[..|es|] == es;
  }

  lemma NonePast(n: Net, d: Deep)
    ensures Past2([]) == Past3([]) == 0 && Oracle(n, d, []) == (d, [])
  {
  }

  // ---- the decision loops of a batch ----

  function Raise(count: Bytes, c: Cell): Bytes {
    (k: Cell) => if k == c then count(k) + 1 else count(k)
  }

  /** Flags of the first k events on counters that never wrap. */
  function Count2(window: nat, count: Bytes, es: seq<Input>, k: nat): (seq<bool>, Bytes)
    requires window >= 1 && k <= |es|
  {
    if k == 0 then ([], count)
    else
      var (ps, now) := Count2(window, count, es, k - 1);
      (ps + [now(es[k - 1].at) % window == 0], Raise(now, es[k - 1].at))
  }

  function Count3(window: nat, count: Bytes, es: seq<Input>, pass2: seq<bool>, k: nat): (seq<bool>, Bytes)
    requires window >= 1 && k <= |es| == |pass2|
  {
    if k == 0 then ([], count)
    else
      var (ps, now) := Count3(window, count, es, pass2, k - 1);
      var c := Pool(es[k - 1].at);
      if pass2[k - 1] then (ps + [now(c) % window == 0], Raise(now, c)) else (ps + [false], now)
  }

  method Touch(a: array<nat>, g: Size, window: nat, c: Cell, ghost count: Bytes) returns (pass: bool)
    requires window >= 1 && a.Length == Cells(g) && InGrid(g, c) && Shows(a, g, count)
    modifies a
    ensures Shows(a, g, Raise(count, c)) && pass == (count(c) % window == 0)
  {
    IndexInRange(g, c);
    var pre := a[Index(g, c)];
    Store(a, g, Index(g, c), pre + 1, c, count, Raise(count, c));
    pass := pre % window == 0;
  }

  /** Stage 2: every event of the batch touches its cell. */
  method Decide2(window: nat, a: array<nat>, g: Size, es: seq<Input>, ghost count: Bytes) returns (pass2: seq<bool>)
    requires window >= 1 && a.Length == Cells(g) && Shows(a, g, count) && forall e :: 0 <= e < |es| ==>
      InGrid(g, es[e].at)
    modifies a
    ensures pass2 == Count2(window, count, es, |es|).0 && Shows(a, g, Count2(window, count, es, |es|).1)
  {
    hide Shows, InGrid, Raise;
    pass2 := [];
    for e := 0 to |es|
      invariant pass2 == Count2(window, count, es, e).0 && Shows(a, g, Count2(window, count, es, e).1)
    {
      var pass := Touch(a, g, window, es[e].at, Count2(window, count, es, e).1);
      pass2 := pass2 + [pass];
    }
  }

  /** Stage 3: only events that passed stage 2 touch their pooled cell. */
  method Decide3(window: nat, a: array<nat>, g: Size, es: seq<Input>, pass2: seq<bool>, ghost count: Bytes)
      returns (pass3: seq<bool>)
    requires window >= 1 && a.Length == Cells(g) && Shows(a, g, count) && |pass2| == |es|
    requires forall e :: 0 <= e < |es| ==> InGrid(g, Pool(es[e].at))
    modifies a
    ensures pass3 == Count3(window, count, es, pass2, |es|).0 && Shows(a, g, Count3(window, count, es, pass2, |es|).1)
  {
    hide Shows, InGrid, Raise, Pool;
    pass3 := [];
    for e := 0 to |es|
      invariant pass3 == Count3(window, count, es, pass2, e).0 && Shows(a, g, Count3(window, count, es, pass2, e).1)
    {
      var pass := false;
      if pass2[e] { pass := Touch(a, g, window, Pool(es[e].at), Count3(window, count, es, pass2, e).1); }
      pass3 := pass3 + [pass];
    }
  }

  /** A counter and the byte that wraps with it. */
  ghost predicate Congruent(count: Bytes, drop: Bytes) {
    forall c :: drop(c) == count(c) % 256
  }

  lemma RaiseBump(count: Bytes, drop: Bytes, c: Cell)
    requires Congruent(count, drop)
    ensures Congruent(Raise(count, c), Bump(drop, c))
  {
    forall k ensures Bump(drop, c)(k) == Raise(count, c)(k) % 256 { NextByte(count(k)); }
  }

  lemma SameDecision(window: nat, n: nat)
    requires window >= 1 && 256 % window == 0
    ensures n % window == 0 <==> Passes(window, n % 256)
  {
    ModMod(n, window, 256);
    if window == 1 { Unique(n, n, 0, 1); }
  }

  /** With a window that divides 256 the batch takes the decisions of the bytes. */
  lemma {:induction false} FlagsLikeBytes2(n: Net, d: Deep, count: Bytes, es: seq<Input>, k: nat)
    requires n.window >= 1 && 256 % n.window == 0 && k <= |es| && Congruent(count, d.drop2)
    ensures Count2(n.window, count, es, k).0 == Pass2(n, d, es, k).0
      && Congruent(Count2(n.window, count, es, k).1, Pass2(n, d, es, k).1)
  {
    hide Passes, Raise, Bump;
    if k == 0 {
    } else {
      FlagsLikeBytes2(n, d, count, es, k - 1);
      var now, drop := Count2(n.window, count, es, k - 1).1, Pass2(n, d, es, k - 1).1;
      RaiseBump(now, drop, es[k - 1].at);
      SameDecision(n.window, now(es[k - 1].at));
    }
  }

  lemma {:induction false} FlagsLikeBytes3(n: Net, d: Deep, count: Bytes, es: seq<Input>, pass2: seq<bool>, k: nat)
    requires n.window >= 1 && 256 % n.window == 0 && k <= |es| == |pass2| && Congruent(count, d.drop3)
    ensures Count3(n.window, count, es, pass2, k).0 == Pass3(n, d, es, pass2, k).0
    ensures Congruent(Count3(n.window, count, es, pass2, k).1, Pass3(n, d, es, pass2, k).1)
  {
    hide Passes, Raise, Bump, Pool;
    if k == 0 {
    } else {
      FlagsLikeBytes3(n, d, count, es, pass2, k - 1);
      var now, drop := Count3(n.window, count, es, pass2, k - 1).1, Pass3(n, d, es, pass2, k - 1).1;
      RaiseBump(now, drop, Pool(es[k - 1].at));
      SameDecision(n.window, now(Pool(es[k - 1].at)));
    }
  }

  /** One cell touched over and over. */
  lemma {:induction false} Repeated(n: Net, d: Deep, count: Bytes, es: seq<Input>, c: Cell, k: nat)
    requires n.window >= 1 && k <= |es| && (forall e :: 0 <= e < |es| ==> es[e].at == c) && count(c) == 0
      && d.drop2(c) == 0
    ensures Count2(n.window, count, es, k).1(c) == k && Pass2(n, d, es, k).1(c) == k % 256
  {
    hide Count2, Pass2;
    CounterStep(n, d, count, es, k);
    if k == 0 {
    } else {
      Repeated(n, d, count, es, c, k - 1);
      NextByte(k - 1);
    }
  }

  lemma CounterStep(n: Net, d: Deep, count: Bytes, es: seq<Input>, k: nat)
    requires n.window >= 1 && k <= |es|
    ensures Count2(n.window, count, es, k).1 == if k == 0 then count
      else Raise(Count2(n.window, count, es, k - 1).1, es[k - 1].at)
    ensures Pass2(n, d, es, k).1 == if k == 0 then d.drop2 else Bump(Pass2(n, d, es, k - 1).1, es[k - 1].at)
  {
    hide Passes, Raise, Bump;
  }

  /** And only then: otherwise the 257th event of a cell is the first they disagree on. */
  lemma FlagsAgreeExactly(n: Net, d: Deep, count: Bytes, i: Input)
    requires n.window >= 1 && count(i.at) == 0 && d.drop2(i.at) == 0 && Congruent(count, d.drop2)
    ensures (forall es: seq<Input> :: Count2(n.window, count, es, |es|).0 == Pass2(n, d, es, |es|).0) <==>
      256 % n.window == 0
  {
    if 256 % n.window == 0 {
      forall es: seq<Input>
        ensures Count2(n.window, count, es, |es|).0 == Pass2(n, d, es, |es|).0
      {
        FlagsLikeBytes2(n, d, count, es, |es|);
      }
    } else {
      var es := seq(257, _ => i);
      Repeated(n, d, count, es, i.at, 256);
      CountLength(n.window, count, es, 256);
      Pass2Length(n, d, es, 256);
      Unique(0, 0, 0, n.window);
      assert !Count2(n.window, count, es, 257).0[256] && Pass2(n, d, es, 257).0[256];
    }
  }

  lemma {:induction false} CountLength(window: nat, count: Bytes, es: seq<Input>, k: nat)
    requires window >= 1 && k <= |es|
    ensures |Count2(window, count, es, k).0| == k
  {
    if k == 0 {
    } else {
      CountLength(window, count, es, k - 1);
    }
  }
}
