/** The fused kernels as layers of the network: when features and hidden cells are read as vectors of
    numbers, and the layer's arithmetic as the projections, the gated step and the sums, the kernels
    compute the very layer that the pipeline runs. */
module FusedNetwork {
  import opened Geometry
  import opened Network
  import opened Matrices
  import opened Kernels
  import opened FusedLayers

  /** How features and hidden cells are read. */
  datatype Reading = Reading(vec: Feat -> seq<real>, chan: Hid -> seq<real>)

  /** What position p emits to output o from the stepped channels. */
  function Emission(p: Patch, inDim: nat, d: nat, x: seq<real>, after: seq<real>, o: int): real {
    Sum(EmissionTerms(p, inDim, d, x, after, o), d)
  }

  function EmissionTerms(p: Patch, inDim: nat, d: nat, x: seq<real>, after: seq<real>, o: int): int -> real {
    (c: int) => Entry(p.goW, d, o, c) * (Query(p, inDim, d, x, c) * Matrices.At(after, c))
  }

  ghost predicate AddsUp(r: Reading, n: Net, d: nat) {
    && |r.vec(n.zero)| == d && (forall o :: 0 <= o < d ==> r.vec(n.zero)[o] == 0.0)
    && (forall a, b :: |r.vec(a)| == |r.vec(b)| == d ==>
          |r.vec(n.add(a, b))| == d && forall o :: 0 <= o < d ==> r.vec(n.add(a, b))[o] == r.vec(a)[o] + r.vec(b)[o])
  }

  ghost predicate StepsAs(r: Reading, l: Layer, f: Feat, j: FusedLayers.Job, p: nat)
    requires p < |j.ws|
  {
    && (forall h :: |r.chan(h)| == j.d)
    && (forall h, c :: 0 <= c < j.d ==>
          r.chan(l.lru(p, f, h))[c] == NewHid(j.ws[p], j.inDim, j.d, j.x, r.chan(h)[c], c))
    && (forall h :: |r.vec(l.emit(p, f, h))| == j.d)
    && (forall h, o :: 0 <= o < j.d ==>
          r.vec(l.emit(p, f, h))[o] == Emission(j.ws[p], j.inDim, j.d, j.x, r.chan(h), o))
  }

  ghost predicate Closes(r: Reading, l: Layer, f: Feat, d: nat, residual: seq<real>, norm: seq<real> -> seq<real>)
    requires |residual| == d
  {
    forall s :: |r.vec(s)| == d ==>
      r.vec(l.finish(f, s)) == norm(seq(d, o requires 0 <= o < d => residual[o] + r.vec(s)[o]))
  }

  /** On input f the layer is what the weights of the job say. */
  ghost predicate Realises(r: Reading, n: Net, l: Layer, f: Feat, j: FusedLayers.Job, residual: seq<real>,
      norm: seq<real> -> seq<real>)
  {
    && Ready(j) && l.wide && j.x == r.vec(f) && |residual| == j.d
    && AddsUp(r, n, j.d) && (forall p: nat :: p < 9 ==> StepsAs(r, l, f, j, p)) && Closes(r, l, f, j.d, residual, norm)
  }

  /** The array holds the plane. */
  ghost predicate Stored(r: Reading, j: FusedLayers.Job, a: seq<real>, h: Plane) {
    |a| == Cells(j.g) * j.d && forall c :: InGrid(j.g, c) ==> Slice(j, a, c) == r.chan(h(c))
  }

  /** One position: what the layer shares is what the kernel contributes. */
  lemma ShareIsContribution(r: Reading, l: Layer, f: Feat, j: FusedLayers.Job, p: nat, h: Hid, o: int)
    requires p < |j.ws| && StepsAs(r, l, f, j, p) && 0 <= o < j.d
    ensures |r.vec(l.emit(p, f, l.lru(p, f, h)))| == j.d
    ensures r.vec(l.emit(p, f, l.lru(p, f, h)))[o] == Contribution(j.ws[p], j.inDim, j.d, j.x, r.chan(h), o)
  {
    hide NewHid, Query, Entry, Sum;
    SumSame(EmissionTerms(j.ws[p], j.inDim, j.d, j.x, r.chan(l.lru(p, f, h)), o),
      FusedLayers.Terms(j.ws[p], j.inDim, j.d, j.x, r.chan(h), o), j.d);
  }

  /** All positions from p up. */
  lemma {:induction false} GatherIsContributions(r: Reading, n: Net, l: Layer, f: Feat, j: FusedLayers.Job,
      a: seq<real>, h: Plane, p: nat)
    requires Ready(j) && l.wide && AddsUp(r, n, j.d) && (forall q: nat :: q < 9 ==> StepsAs(r, l, f, j, q))
    requires Stored(r, j, a, h) && p <= 9
    ensures |r.vec(Gather(n, l, j.g, j.ev, f, h, p))| == j.d
    ensures forall o :: 0 <= o < j.d ==> r.vec(Gather(n, l, j.g, j.ev, f, h, p))[o] == Contributions(j, a, p, o)
    decreases 9 - p
  {
    hide Contribution, Slice, PatchCell, StepsAs, Ready, Cells;
    if p == 9 {
    } else {
      GatherIsContributions(r, n, l, f, j, a, h, p + 1);
      var c := PatchCell(j.ev, p);
      InWindow(j, p);
      var share := l.emit(p, f, l.lru(p, f, h(c)));
      SharesAll(r, l, f, j, p, h(c));
      assert Gather(n, l, j.g, j.ev, f, h, p) == n.add(Gather(n, l, j.g, j.ev, f, h, p + 1), share);
      assert Slice(j, a, c) == r.chan(h(c));
      hide Gather, AddsUp, Stored;
      SumOfTwo(r, n, j.d, Gather(n, l, j.g, j.ev, f, h, p + 1), share);
    }
  }

  lemma InWindow(j: FusedLayers.Job, p: nat)
    requires Ready(j) && p < 9
    ensures InGrid(j.g, PatchCell(j.ev, p)) && |j.ws| == 9
  {
  }

  lemma SharesAll(r: Reading, l: Layer, f: Feat, j: FusedLayers.Job, p: nat, h: Hid)
    requires p < |j.ws| && StepsAs(r, l, f, j, p)
    ensures |r.vec(l.emit(p, f, l.lru(p, f, h)))| == j.d
    ensures forall o :: 0 <= o < j.d ==>
      r.vec(l.emit(p, f, l.lru(p, f, h)))[o] == Contribution(j.ws[p], j.inDim, j.d, j.x, r.chan(h), o)
  {
    forall o | 0 <= o < j.d
      ensures r.vec(l.emit(p, f, l.lru(p, f, h)))[o] == Contribution(j.ws[p], j.inDim, j.d, j.x, r.chan(h), o)
    {
      ShareIsContribution(r, l, f, j, p, h, o);
    }
    hide Contribution;
  }

  lemma SumOfTwo(r: Reading, n: Net, d: nat, a: Feat, b: Feat)
    requires AddsUp(r, n, d) && |r.vec(a)| == |r.vec(b)| == d
    ensures |r.vec(n.add(a, b))| == d
    ensures forall o :: 0 <= o < d ==> r.vec(n.add(a, b))[o] == r.vec(a)[o] + r.vec(b)[o]
  {
  }

  /** The layer's output is the kernel's. */
  lemma ForwardIsFused(r: Reading, n: Net, l: Layer, f: Feat, j: FusedLayers.Job, residual: seq<real>,
      norm: seq<real> -> seq<real>, a: seq<real>, h: Plane)
    requires Realises(r, n, l, f, j, residual, norm) && Stored(r, j, a, h)
    ensures r.vec(Forward(n, l, j.g, j.ev, f, h)) == LayerOut(j, a, residual, norm)
  {
    hide Gather, Contributions, Stored, AddsUp, StepsAs, Ready, Cells, Closes;
    Fits(r, n, l, f, j, residual, norm, a, h);
    GatherIsContributions(r, n, l, f, j, a, h, 0);
    var v := seq(j.d, o requires 0 <= o < j.d => residual[o] + Contributions(j, a, 0, o));
    Closing(r, l, f, j.d, residual, norm, Gather(n, l, j.g, j.ev, f, h, 0), v);
  }

  lemma Closing(r: Reading, l: Layer, f: Feat, d: nat, residual: seq<real>, norm: seq<real> -> seq<real>, s: Feat,
      v: seq<real>)
    requires |residual| == d && Closes(r, l, f, d, residual, norm) && |r.vec(s)| == |v| == d
    requires forall o :: 0 <= o < d ==> v[o] == residual[o] + r.vec(s)[o]
    ensures r.vec(l.finish(f, s)) == norm(v)
  {
    assert seq(d, o requires 0 <= o < d => residual[o] + r.vec(s)[o]) == v;
  }

  /** And so are its hidden cells. */
  lemma RefreshIsFused(r: Reading, n: Net, l: Layer, f: Feat, j: FusedLayers.Job, residual: seq<real>,
      norm: seq<real> -> seq<real>, a: seq<real>, b: seq<real>, h: Plane)
    requires Realises(r, n, l, f, j, residual, norm) && Stored(r, j, a, h) && HidDone(j, a, b, 0)
    ensures Stored(r, j, b, Refresh(l, j.g, j.ev, f, h))
  {
    assert |j.ws| == 9;
    hide Cells, AddsUp, Closes, Ready, Slice, HidDone;
    SameSize(j, a, b);
    forall c | InGrid(j.g, c) ensures Slice(j, b, c) == r.chan(Refresh(l, j.g, j.ev, f, h)(c)) {
      assert Slice(j, a, c) == r.chan(h(c));
      hide Stored;
      CellIsFused(r, l, f, j, a, b, h, c);
    }
  }

  lemma SameSize(j: FusedLayers.Job, a: seq<real>, b: seq<real>)
    requires |j.ws| == 9 && HidDone(j, a, b, 0)
    ensures |a| == |b| == Cells(j.g) * j.d
  {
    hide ChannelDone;
  }

  lemma CellIsFused(r: Reading, l: Layer, f: Feat, j: FusedLayers.Job, a: seq<real>, b: seq<real>, h: Plane, c: Cell)
    requires Ready(j) && l.wide && (forall p: nat :: p < 9 ==> StepsAs(r, l, f, j, p))
    requires HidDone(j, a, b, 0) && InGrid(j.g, c) && |a| == |b| == Cells(j.g) * j.d && Slice(j, a, c) == r.chan(h(c))
    ensures Slice(j, b, c) == r.chan(Refresh(l, j.g, j.ev, f, h)(c))
  {
    hide NewHid, Slice, Ready, HidDone, Cells, StepsAs;
    SliceAfter(j, a, b, c);
    if Near(j.ev, c) {
      DeltaBijection(j.ev, c, 0);
      SteppedChannels(r, l, f, j, Delta(j.ev, c), h(c), Slice(j, b, c));
    }
  }

  /** The channels of a cell behind the kernel. */
  lemma SliceAfter(j: FusedLayers.Job, a: seq<real>, b: seq<real>, c: Cell)
    requires Ready(j) && HidDone(j, a, b, 0) && InGrid(j.g, c) && |a| == |b| == Cells(j.g) * j.d
    ensures |Slice(j, a, c)| == |Slice(j, b, c)| == j.d
    ensures !Near(j.ev, c) ==> Slice(j, b, c) == Slice(j, a, c)
    ensures Near(j.ev, c) ==> Delta(j.ev, c) < 9 && |j.ws| == 9 && forall i :: 0 <= i < j.d ==>
      Slice(j, b, c)[i] == NewHid(j.ws[Delta(j.ev, c)], j.inDim, j.d, j.x, Slice(j, a, c)[i], i)
  {
    OffsetInRange(j, c);
    DeltaBijection(j.ev, c, 0);
    hide NewHid, Offset, HidDone, Cells, Delta, Near;
    forall i: nat | i < j.d
      ensures Slice(j, b, c)[i] == if Near(j.ev, c) then
          NewHid(j.ws[Delta(j.ev, c)], j.inDim, j.d, j.x, Slice(j, a, c)[i], i) else Slice(j, a, c)[i]
    {
      WindowOnly(j, a, b, c, i);
    }
  }

  lemma SteppedChannels(r: Reading, l: Layer, f: Feat, j: FusedLayers.Job, p: nat, h: Hid, after: seq<real>)
    requires p < |j.ws| && StepsAs(r, l, f, j, p) && |after| == j.d && |r.chan(h)| == j.d
    requires forall i :: 0 <= i < j.d ==> after[i] == NewHid(j.ws[p], j.inDim, j.d, j.x, r.chan(h)[i], i)
    ensures after == r.chan(l.lru(p, f, h))
  {
    hide NewHid;
  }

  /** So the tiled kernel on the flat array is the layer the pipeline runs at an interior event: it leaves
      the layer's plane and returns the layer's output. */
  method FusedForward(r: Reading, n: Net, l: Layer, f: Feat, j: FusedLayers.Job, hid: array<real>,
      residual: seq<real>, norm: seq<real> -> seq<real>, ghost h: Plane)
      returns (out: seq<real>)
    requires Realises(r, n, l, f, j, residual, norm) && Stored(r, j, hid[..], h)
    modifies hid
    ensures Stored(r, j, hid[..], Refresh(l, j.g, j.ev, f, h))
    ensures out == r.vec(Forward(n, l, j.g, j.ev, f, h))
  {
    ghost var a := hid[..];
    hide Realises, Stored, HidDone, Forward, Refresh, LayerOut;
    Fits(r, n, l, f, j, residual, norm, a, h);
    ForwardIsFused(r, n, l, f, j, residual, norm, a, h);
    out := TiledLayerResidualFirst(j, hid, residual, norm);
    RefreshIsFused(r, n, l, f, j, residual, norm, a, hid[..], h);
  }

  lemma Fits(r: Reading, n: Net, l: Layer, f: Feat, j: FusedLayers.Job, residual: seq<real>,
      norm: seq<real> -> seq<real>, a: seq<real>, h: Plane)
    requires Realises(r, n, l, f, j, residual, norm) && Stored(r, j, a, h)
    ensures Ready(j) && |a| == Cells(j.g) * j.d && |residual| == j.d
  {
  }
}
