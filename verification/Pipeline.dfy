/** The single-threaded pipeline: an object whose buffers each event updates in place. */
module Pipeline {
  import opened Geometry
  import opened Network
  import opened Sequential
  import opened Kernels

  /** A buffer over a grid, with one value everywhere. */
  method Filled<T(!new)>(g: Size, x: T, ghost h: Cell -> T) returns (a: array<T>)
    requires g.w >= 0 && g.h >= 0 && forall c :: h(c) == x
    ensures fresh(a) && a.Length == Cells(g) && Shows(a, g, h)
  {
    a := new T[Cells(g)](_ => x);
    forall c | InGrid(g, c) ensures 0 <= Index(g, c) < Cells(g) { IndexInRange(g, c); }
  }

  /** Buffers of one stage: the hidden arrays of its two layers and the tdrop bytes behind it. */
  class Stage {
    const size: Size
    const pooled: Size
    const a: array<Hid>
    const b: array<Hid>
    const drop: array<nat>

    ghost predicate Fits(g: Size) {
      && size == g && pooled == Halve(g)
      && a.Length == Cells(g) && b.Length == Cells(g) && drop.Length == Cells(pooled)
      && a != b && a as object != drop && b as object != drop
    }

    ghost predicate Holds(m: StageMem)
      requires Fits(size)
      reads a, b, drop
    {
      Shows(a, size, m.a) && Shows(b, size, m.b) && Shows(drop, pooled, m.drop)
    }

    /** Buffers filled with one value each: the state after reset(). */
    constructor (g: Size, zero: Hid, ghost m: StageMem)
      requires g.w >= 0 && g.h >= 0 && forall c :: m.a(c) == zero && m.b(c) == zero && m.drop(c) == 0
      ensures Fits(g) && fresh(a) && fresh(b) && fresh(drop) && Holds(m)
    {
      var a' := Filled(g, zero, m.a);
      var b' := Filled(g, zero, m.b);
      var drop' := Filled(Halve(g), 0, m.drop);
      size, pooled := g, Halve(g);
      a, b, drop := a', b', drop';
    }

    /** stage_forward: both layers, the first feeding the second. */
    method Forward(n: Net, s: nat, ev: Cell, f: Feat, ghost m: StageMem) returns (out: Feat)
      requires Fits(StageGrid(n.grid, s)) && InGrid(size, ev) && Holds(m)
      modifies a, b
      ensures Holds(StageHid(n, s, m, ev, f)) && out == StageFeat(n, s, m, ev, f)
    {
      var tmp := LayerForward(n, n.layers(2 * s), a, size, ev, f, m.a);
      out := LayerForward(n, n.layers(2 * s + 1), b, size, ev, tmp, m.b);
    }

    /** stage_forward_state_only: the first layer in full, because it feeds the second; of the
        second only the hidden cells, unless the event sits on the border or the stage is a late one. */
    method ForwardStateOnly(n: Net, s: nat, ev: Cell, f: Feat, ghost m: StageMem)
      requires Fits(StageGrid(n.grid, s)) && InGrid(size, ev) && Holds(m)
      modifies a, b
      ensures Holds(StageHid(n, s, m, ev, f))
    {
      var tmp := LayerForward(n, n.layers(2 * s), a, size, ev, f, m.a);
      var second := n.layers(2 * s + 1);
      if s <= 1 && second.wide && Interior(size, ev) {
        InteriorStateOnly(n, second, b, size, ev, tmp, m.b);
      } else {
        var _ := LayerForward(n, second, b, size, ev, tmp, m.b);
      }
    }

    /** tdrop_check_at. */
    method TdropCheck(window: nat, c: Cell, ghost m: StageMem) returns (pass: bool)
      requires Fits(size) && InGrid(pooled, c) && Holds(m)
      modifies drop
      ensures Holds(m.(drop := Bump(m.drop, c))) && pass == Passes(window, m.drop(c))
    {
      pass := TouchByte(drop, pooled, window, c, m.drop);
    }
  }

  /** Both sides are multiples of eight, so pooling never leaves the grid. */
  predicate Eights(g: Size) {
    g.w >= 0 && g.h >= 0 && g.w % 8 == 0 && g.h % 8 == 0
  }

  lemma PoolInGrid(g: Size, s: nat, ev: Cell)
    requires Eights(g) && s <= 2 && InGrid(StageGrid(g, s), ev)
    ensures InGrid(StageGrid(g, s + 1), Pool(ev))
  {
    var p, q := g.w / 8, g.h / 8;
    assert StageGrid(g, 0) == Size(8 * p, 8 * q);
    assert StageGrid(g, 1) == Size(4 * p, 4 * q);
    assert StageGrid(g, 2) == Size(2 * p, 2 * q);
    assert StageGrid(g, 3) == Size(p, q);
  }

  ghost function BuffersOf(st: Stage): set<object> {
    {st.a, st.b, st.drop}
  }

  /** Four stages, each on half the grid of the one before. */
  method BuildStages(g: Size, zero: Hid, ghost st: State) returns (ss: seq<Stage>, last: Size)
    requires g.w >= 0 && g.h >= 0
    requires forall s, c :: 0 <= s < 4 ==> st.Mem(s).a(c) == zero && st.Mem(s).b(c) == zero && st.Mem(s).drop(c) == 0
    ensures |ss| == 4 && last == StageGrid(g, 3) && last.w >= 0 && last.h >= 0
    ensures forall s :: 0 <= s < 4 ==> ss[s].Fits(StageGrid(g, s)) && fresh(BuffersOf(ss[s])) && ss[s].Holds(st.Mem(s))
    ensures forall s, t :: 0 <= s < t < 4 ==> BuffersOf(ss[s]) !! BuffersOf(ss[t])
  {
    hide Cells, Stage.Holds;
    ss, last := [], g;
    for i := 0 to 4
      invariant |ss| == i && last.w >= 0 && last.h >= 0 && (i < 4 ==> last == StageGrid(g, i))
        && (i == 4 ==> last == StageGrid(g, 3))
      invariant forall s :: 0 <= s < i ==>
        ss[s].Fits(StageGrid(g, s)) && fresh(BuffersOf(ss[s])) && ss[s].Holds(st.Mem(s))
      invariant forall s, t :: 0 <= s < t < i ==> BuffersOf(ss[s]) !! BuffersOf(ss[t])
    {
      assert forall c :: st.Mem(i).a(c) == zero;
      var stage := new Stage(last, zero, st.Mem(i));
      ss := ss + [stage];
      if i < 3 { last := Halve(last); }
    }
  }

  /** The state after reset(): every row of the head is what it makes of a zero feature there. */
  function Reset(n: Net, zero: Hid, calm: Feat): State {
    var m := StageMem(_ => zero, _ => zero, _ => 0);
    State(_ => -1.0, m, m, m, m, Prepopulated(n, calm))
  }

  function Prepopulated(n: Net, calm: Feat): Cell -> Row {
    (c: Cell) => n.decode(c, calm)
  }

  /** The rows above gy, and those left of gx in row gy, are decoded. */
  function DecodedTo(n: Net, calm: Feat, before: Cell -> Row, gy: int, gx: int): Cell -> Row {
    (c: Cell) => if c.y < gy || (c.y == gy && c.x < gx) then n.decode(c, calm) else before(c)
  }

  /** prepopulate_head_zero. */
  method PrepopulateHead(n: Net, calm: Feat, rows: array<Row>, g: Size, ghost before: Cell -> Row)
    requires g.w >= 0 && g.h >= 0 && rows.Length == Cells(g) && Shows(rows, g, before)
    modifies rows
    ensures Shows(rows, g, Prepopulated(n, calm))
    ensures forall c :: InGrid(g, c) ==> 0 <= Index(g, c) < rows.Length && rows[Index(g, c)] == n.decode(c, calm)
  {
    hide Cells, Index;
    for gy := 0 to g.h
      invariant Shows(rows, g, DecodedTo(n, calm, before, gy, 0))
    {
      for gx := 0 to g.w
        invariant Shows(rows, g, DecodedTo(n, calm, before, gy, gx))
      {
        var c := Cell(gx, gy);
        Store(rows, g, Index(g, c), n.decode(c, calm), c, DecodedTo(n, calm, before, gy, gx),
          DecodedTo(n, calm, before, gy, gx + 1));
      }
    }
  }

  /** Buffers of the right sizes, none shared. */
  ghost predicate Parts(n: Net, lastT: array<real>, stages: seq<Stage>, rows: array<Row>) {
    && Eights(n.grid) && lastT.Length == Cells(n.grid) && rows.Length == Cells(StageGrid(n.grid, 3))
    && |stages| == 4
    && (forall s :: 0 <= s < 4 ==> stages[s].Fits(StageGrid(n.grid, s)))
    && (forall s, t :: 0 <= s < t < 4 ==> BuffersOf(stages[s]) !! BuffersOf(stages[t]))
    && (forall s :: 0 <= s < 4 ==> lastT !in BuffersOf(stages[s]) && rows !in BuffersOf(stages[s]))
    && lastT as object != rows
  }

  ghost function AllBuffers(lastT: array<real>, stages: seq<Stage>, rows: array<Row>): set<object>
    requires |stages| == 4
  {
    {lastT, rows} + BuffersOf(stages[0]) + BuffersOf(stages[1]) + BuffersOf(stages[2]) + BuffersOf(stages[3])
  }

  /** The buffers hold a sequential state. */
  ghost predicate Hold(n: Net, lastT: array<real>, stages: seq<Stage>, rows: array<Row>, st: State)
    requires Parts(n, lastT, stages, rows)
    reads AllBuffers(lastT, stages, rows)
  {
    && Shows(lastT, n.grid, st.lastT)
    && (forall s :: 0 <= s < 4 ==> stages[s].Holds(st.Mem(s)))
    && Shows(rows, StageGrid(n.grid, 3), st.pred)
  }

  class Pipe {
    const net: Net
    const lastT: array<real>
    const stages: seq<Stage>
    const rows: array<Row>

    ghost predicate Valid() {
      Parts(net, lastT, stages, rows)
    }

    ghost function Repr(): set<object>
      requires Valid()
    {
      AllBuffers(lastT, stages, rows)
    }

    ghost predicate Holds(st: State)
      requires Valid()
      reads Repr()
    {
      Hold(net, lastT, stages, rows, st)
    }

    constructor (n: Net, t: array<real>, ss: seq<Stage>, r: array<Row>)
      requires Parts(n, t, ss, r)
      ensures Valid() && net == n && lastT == t && stages == ss && rows == r
    {
      net, lastT, stages, rows := n, t, ss, r;
    }

    /** preprocess, for a pixel on the sensor. */
    method Preprocess(e: Event, ghost st: State) returns (f: Feat)
      requires Valid() && Holds(st) && InGrid(net.grid, At(e))
      modifies lastT
      ensures Holds(st.(lastT := Stamp(st.lastT, e))) && f == InputFeat(net, st.lastT, e)
      ensures exists v :: Clipped(st.lastT(At(e)), e.t, v) && f == net.embed(v, e.p)
    {
      DtIsClipped(st.lastT(At(e)), e.t);
      var idx := Index(net.grid, At(e));
      IndexInRange(net.grid, At(e));
      var prev := lastT[idx];
      var dt := 1.0;
      if prev >= 0.0 {
        var v := (e.t - prev) / 100000.0;
        if v < 0.0 { v := 0.0; }
        if v > 1.0 { v := 1.0; }
        dt := v;
      }
      Store(lastT, net.grid, idx, e.t, At(e), st.lastT, Stamp(st.lastT, e));
      f := net.embed(dt, e.p);
    }

    method StageForward(s: nat, ev: Cell, f: Feat, ghost st: State) returns (out: Feat)
      requires Valid() && Holds(st) && s <= 3 && InGrid(StageGrid(net.grid, s), ev)
      modifies stages[s].a, stages[s].b
      ensures Holds(st.With(s, StageHid(net, s, st.Mem(s), ev, f))) && out == StageFeat(net, s, st.Mem(s), ev, f)
    {
      hide StageHid, StageFeat, Shows, StageGrid, Stage.Holds, Cells;
      out := stages[s].Forward(net, s, ev, f, st.Mem(s));
    }

    method StageForwardStateOnly(s: nat, ev: Cell, f: Feat, ghost st: State)
      requires Valid() && Holds(st) && s <= 3 && InGrid(StageGrid(net.grid, s), ev)
      modifies stages[s].a, stages[s].b
      ensures Holds(st.With(s, StageHid(net, s, st.Mem(s), ev, f)))
    {
      hide StageHid, Shows, StageGrid, Stage.Holds, Cells;
      stages[s].ForwardStateOnly(net, s, ev, f, st.Mem(s));
    }

    /** tdrop_check_at for an event at ev of stage s. */
    method TdropAndPool(s: nat, ev: Cell, ghost st: State) returns (pass: bool)
      requires Valid() && Holds(st) && s <= 2 && InGrid(StageGrid(net.grid, s), ev)
      modifies stages[s].drop
      ensures var m := st.Mem(s);
        Holds(st.With(s, m.(drop := Bump(m.drop, Pool(ev))))) && pass == Passes(net.window, m.drop(Pool(ev)))
      ensures InGrid(StageGrid(net.grid, s + 1), Pool(ev))
    {
      hide Shows, Cells, Passes;
      PoolInGrid(net.grid, s, ev);
      pass := stages[s].TdropCheck(net.window, Pool(ev), st.Mem(s));
    }

    method HeadDecodeCell(ev: Cell, f: Feat, ghost st: State)
      requires Valid() && Holds(st)
      modifies rows
      ensures Holds(st.(pred := Decode(net, st.pred, ev, f)))
    {
      var g := StageGrid(net.grid, 3);
      if !InGrid(g, ev) { return; }
      Store(rows, g, Index(g, ev), net.decode(ev, f), ev, st.pred, Decode(net, st.pred, ev, f));
    }

    /** process_one is one step of the sequential loop. */
    method ProcessOne(e: Event, ghost st: State)
      requires Valid() && Holds(st)
      modifies Repr()
      ensures Holds(Sequential.ProcessOne(net, st, e))
    {
      hide Hold, StageHid, StageFeat, Decode, InputFeat, Stamp, Passes, Bump;
      if e.x < 0 || e.x >= net.grid.w || e.y < 0 || e.y >= net.grid.h { return; }
      var f := Preprocess(e, st);
      ghost var st' := st.(lastT := Stamp(st.lastT, e));
      var at := At(e);
      for s := 0 to 3
        invariant InGrid(StageGrid(net.grid, s), at) && Holds(st')
        invariant Enter(net, s, st', at, f) == Sequential.ProcessOne(net, st, e)
      {
        ghost var mid := st'.With(s, StageHid(net, s, st'.Mem(s), at, f));
        var out := StageForward(s, at, f, st');
        var pass := TdropAndPool(s, at, mid);
        st' := mid.With(s, mid.Mem(s).(drop := Bump(mid.Mem(s).drop, Pool(at))));
        if !pass { return; }
        at, f := Pool(at), out;
      }
      var out := StageForward(3, at, f, st');
      HeadDecodeCell(at, out, st'.With(3, StageHid(net, 3, st'.Mem(3), at, f)));
    }

    /** The loop over a stream. */
    method ProcessAll(es: seq<Event>, ghost st: State)
      requires Valid() && Holds(st)
      modifies Repr()
      ensures Holds(Run(net, st, es))
    {
      hide Sequential.ProcessOne, Parts, Hold, AllBuffers;
      for i := 0 to |es|
        invariant Holds(Run(net, st, es[..i]))
      {
        ProcessOne(es[i], Run(net, st, es[..i]));
        assert es[..i + 1][..i] == es[..i];
      }
      assert es[..|es|] == es;
    }
  }

  method NewPipe(n: Net, zero: Hid, blank: Row, calm: Feat) returns (p: Pipe)
    requires Eights(n.grid)
    ensures p.Valid() && p.net == n && fresh(p.Repr())
    ensures p.Holds(Reset(n, zero, calm))
  {
    ghost var st := Reset(n, zero, calm);
    var t, ss, r := BuildAll(n, zero, blank, calm, st);
    p := new Pipe(n, t, ss, r);
  }

  method BuildAll(n: Net, zero: Hid, blank: Row, calm: Feat, ghost st: State)
      returns (t: array<real>, ss: seq<Stage>, r: array<Row>)
    requires Eights(n.grid) && st == Reset(n, zero, calm)
    ensures Parts(n, t, ss, r) && fresh(AllBuffers(t, ss, r)) && Hold(n, t, ss, r, st)
  {
    hide Cells, Stage.Holds, Stage.Fits, Shows;
    t := Filled(n.grid, -1.0, st.lastT);
    var g3;
    ss, g3 := BuildStages(n.grid, zero, st);
    r := Filled(g3, blank, (c: Cell) => blank);
    PrepopulateHead(n, calm, r, g3, (c: Cell) => blank);
  }
}
