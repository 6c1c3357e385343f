/** The reference: one event at a time through preprocess, four stages and the head. */
module Sequential {
  import opened Geometry
  import opened Network

  datatype Event = Event(t: real, x: int, y: int, p: real)

  /** What one stage owns: hidden planes of its two layers and the tdrop bytes after it
      (stage 3 has no boundary and never uses `drop`). */
  datatype StageMem = StageMem(a: Plane, b: Plane, drop: Bytes)

  datatype State = State(
    lastT: Cell -> real,
    m0: StageMem, m1: StageMem, m2: StageMem, m3: StageMem,
    pred: Cell -> Row)
  {
    function Mem(s: nat): StageMem {
      if s == 0 then m0 else if s == 1 then m1 else if s == 2 then m2 else m3
    }

    function With(s: nat, m: StageMem): State {
      if s == 0 then this.(m0 := m) else if s == 1 then this.(m1 := m)
      else if s == 2 then this.(m2 := m) else this.(m3 := m)
    }
  }

  function At(e: Event): Cell {
    Cell(e.x, e.y)
  }

  /** Time since the last event of the pixel, in units of 1e5 microseconds, clipped to [0, 1];
      a pixel that has seen no event holds a negative time. */
  function DtNorm(prev: real, t: real): real {
    if prev < 0.0 then 1.0
    else
      var v := (t - prev) / 100000.0;
      if v < 0.0 then 0.0 else if v > 1.0 then 1.0 else v
  }

  /** What the time difference has to be, case by case. */
  ghost predicate Clipped(prev: real, t: real, v: real) {
    && (prev < 0.0 ==> v == 1.0)
    && (prev >= 0.0 && t < prev ==> v == 0.0)
    && (prev >= 0.0 && 0.0 <= t - prev <= 100000.0 ==> v * 100000.0 == t - prev)
    && (prev >= 0.0 && t - prev > 100000.0 ==> v == 1.0)
  }

  lemma DtIsClipped(prev: real, t: real)
    ensures Clipped(prev, t, DtNorm(prev, t)) && 0.0 <= DtNorm(prev, t) <= 1.0
  {
  }

  function Stamp(lastT: Cell -> real, e: Event): Cell -> real {
    (c: Cell) => if c == At(e) then e.t else lastT(c)
  }

  function InputFeat(n: Net, lastT: Cell -> real, e: Event): Feat {
    n.embed(DtNorm(lastT(At(e)), e.t), e.p)
  }

  /** Does an event pass whose cell byte held `pre`? */
  predicate Passes(window: nat, pre: nat) {
    window <= 1 || pre % window == 0
  }

  /** One touch of a byte counter: it wraps at 256. */
  function Bump(drop: Bytes, c: Cell): Bytes {
    (k: Cell) => if k == c then (drop(k) + 1) % 256 else drop(k)
  }

  function StageFeat(n: Net, s: nat, m: StageMem, ev: Cell, f: Feat): Feat {
    var g := StageGrid(n.grid, s);
    Forward(n, n.layers(2 * s + 1), g, ev, Forward(n, n.layers(2 * s), g, ev, f, m.a), m.b)
  }

  function StageHid(n: Net, s: nat, m: StageMem, ev: Cell, f: Feat): StageMem {
    var g := StageGrid(n.grid, s);
    m.(a := Refresh(n.layers(2 * s), g, ev, f, m.a),
       b := Refresh(n.layers(2 * s + 1), g, ev, Forward(n, n.layers(2 * s), g, ev, f, m.a), m.b))
  }

  /** The state after stage s ran on an event, and after its boundary was checked at pooled cell c. */
  function Ran(n: Net, s: nat, st: State, ev: Cell, f: Feat): State {
    st.With(s, StageHid(n, s, st.Mem(s), ev, f))
  }

  function Checked(s: nat, st: State, c: Cell): State {
    st.With(s, st.Mem(s).(drop := Bump(st.Mem(s).drop, c)))
  }

  /** An event enters stage s with input f. */
  function Enter(n: Net, s: nat, st: State, ev: Cell, f: Feat): State
    requires s <= 3
    decreases 3 - s, 1
  {
    Leave(n, s, st.With(s, StageHid(n, s, st.Mem(s), ev, f)), ev, StageFeat(n, s, st.Mem(s), ev, f))
  }

  /** Stage s is done with output f: drop or pass at the boundary; after stage 3, decode the head. */
  function Leave(n: Net, s: nat, st: State, ev: Cell, f: Feat): State
    requires s <= 3
    decreases 3 - s, 0
  {
    if s == 3 then st.(pred := Decode(n, st.pred, ev, f))
    else
      var m := st.Mem(s);
      var st' := st.With(s, m.(drop := Bump(m.drop, Pool(ev))));
      if Passes(n.window, m.drop(Pool(ev))) then Enter(n, s + 1, st', Pool(ev), f) else st'
  }

  function Decode(n: Net, pred: Cell -> Row, ev: Cell, f: Feat): Cell -> Row {
    (c: Cell) => if c == ev && InGrid(StageGrid(n.grid, 3), ev) then n.decode(ev, f) else pred(c)
  }

  /** process_one: an event outside the sensor changes nothing. */
  function ProcessOne(n: Net, st: State, e: Event): State {
    if !InGrid(n.grid, At(e)) then st
    else Enter(n, 0, st.(lastT := Stamp(st.lastT, e)), At(e), InputFeat(n, st.lastT, e))
  }

  /** The sequential loop over a stream. */
  function Run(n: Net, st: State, es: seq<Event>): State {
    if es == [] then st else ProcessOne(n, Run(n, st, es[..|es| - 1]), es[|es| - 1])
  }
}
