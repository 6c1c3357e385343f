/** The SSLA-S network with its arithmetic left uninterpreted.
    A feature, a hidden cell and a prediction row are abstract values; a layer is given by
    its recurrent step, by the contribution of one patch and by the residual-plus-norm that
    closes it.  Equality of results is therefore equality of bits. */
module Network {
  import opened Geometry

  type Feat(!new)
  type Hid(!new)
  type Row(!new)

  type Plane = Cell -> Hid
  type Bytes = Cell -> nat

  /** One layer.  `wide` is num_pos == 9 (a 3x3 window), otherwise num_pos == 1.
      lru(p, f, h): the hidden cell after lru_step with the gates of qvgIn[p] on input f.
      emit(p, f, h): goW[p] applied to the gated output of the updated cell h.
      finish(f, s): residual of f added to the accumulated sum s, then layer norm. */
  datatype Layer = Layer(
    wide: bool,
    lru: (nat, Feat, Hid) -> Hid,
    emit: (nat, Feat, Hid) -> Feat,
    finish: (Feat, Feat) -> Feat)

  datatype Net = Net(
    grid: Size,
    window: nat,
    zero: Feat,
    add: (Feat, Feat) -> Feat,
    embed: (real, real) -> Feat,
    layers: nat -> Layer,
    decode: (Cell, Feat) -> Row)

  /** An event as a producer hands it on: coordinates and the input feature of layer 0. */
  datatype Job = Job(at: Cell, feat: Feat)

  /** Grid of stage s. */
  function StageGrid(g: Size, s: nat): Size {
    if s == 0 then g else Halve(StageGrid(g, s - 1))
  }

  function Positions(l: Layer): nat {
    if l.wide then 9 else 1
  }

  /** The cell that position p of the layer works on. */
  function Spot(l: Layer, ev: Cell, p: nat): Cell {
    if l.wide then PatchCell(ev, p) else ev
  }

  /** The cells an event updates in a layer. */
  predicate Touches(l: Layer, g: Size, ev: Cell, c: Cell) {
    InGrid(g, c) && if l.wide then Near(ev, c) else c == ev
  }

  function PositionOf(l: Layer, ev: Cell, c: Cell): nat {
    if l.wide then Delta(ev, c) else 0
  }

  /** Touched cells and positions on the grid are in bijection. */
  lemma PositionIsSpot(l: Layer, g: Size, ev: Cell, c: Cell)
    requires Touches(l, g, ev, c)
    ensures PositionOf(l, ev, c) < Positions(l) && Spot(l, ev, PositionOf(l, ev, c)) == c
  {
    DeltaBijection(ev, c, 0);
  }

  lemma SpotIsTouched(l: Layer, g: Size, ev: Cell, p: nat)
    requires p < Positions(l) && InGrid(g, Spot(l, ev, p))
    ensures Touches(l, g, ev, Spot(l, ev, p)) && PositionOf(l, ev, Spot(l, ev, p)) == p
  {
    DeltaBijection(ev, ev, p);
  }

  /** The hidden cell c after the event. */
  function NextHid(l: Layer, g: Size, ev: Cell, f: Feat, h: Plane, c: Cell): Hid {
    if Touches(l, g, ev, c) then l.lru(PositionOf(l, ev, c), f, h(c)) else h(c)
  }

  /** The hidden plane after the event: each touched cell takes one step, nothing else changes. */
  function Refresh(l: Layer, g: Size, ev: Cell, f: Feat, h: Plane): Plane {
    (c: Cell) => NextHid(l, g, ev, f, h, c)
  }

  /** What position p adds to the layer's output. */
  function Share(l: Layer, ev: Cell, f: Feat, h: Plane, p: nat): Feat {
    l.emit(p, f, l.lru(p, f, h(Spot(l, ev, p))))
  }

  /** Positions are accumulated from the highest down; those outside the grid are skipped. */
  function Gather(n: Net, l: Layer, g: Size, ev: Cell, f: Feat, h: Plane, p: nat): Feat
    requires p <= Positions(l)
    decreases Positions(l) - p
  {
    if p == Positions(l) then n.zero
    else if InGrid(g, Spot(l, ev, p)) then
      n.add(Gather(n, l, g, ev, f, h, p + 1), Share(l, ev, f, h, p))
    else Gather(n, l, g, ev, f, h, p + 1)
  }

  /** Output of a layer for one event. */
  function Forward(n: Net, l: Layer, g: Size, ev: Cell, f: Feat, h: Plane): Feat {
    l.finish(f, Gather(n, l, g, ev, f, h, 0))
  }

  /** `add` in exact arithmetic: a commutative monoid. */
  ghost predicate Exact(n: Net) {
    && (forall a, b :: n.add(a, b) == n.add(b, a))
    && (forall a, b, c :: n.add(n.add(a, b), c) == n.add(a, n.add(b, c)))
    && (forall a :: n.add(a, n.zero) == a)
  }

  ghost predicate SamePlane(h: Plane, k: Plane) {
    forall c :: h(c) == k(c)
  }

  /** Layer output depends only on the cells the event touches. */
  lemma {:induction false} GatherLocal(n: Net, l: Layer, g: Size, ev: Cell, f: Feat, h: Plane, k: Plane, p: nat)
    requires p <= Positions(l)
    requires forall c :: Touches(l, g, ev, c) ==> h(c) == k(c)
    requires l.wide || InGrid(g, ev)
    ensures Gather(n, l, g, ev, f, h, p) == Gather(n, l, g, ev, f, k, p)
    decreases Positions(l) - p
  {
    if p < Positions(l) {
      GatherLocal(n, l, g, ev, f, h, k, p + 1);
      if InGrid(g, Spot(l, ev, p)) {
        DeltaBijection(ev, ev, p);
        assert Touches(l, g, ev, Spot(l, ev, p));
      }
    }
  }
}
