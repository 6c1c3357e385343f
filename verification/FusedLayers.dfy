/** The fused interior kernels against the generic layer, in exact arithmetic. */
module FusedLayers {
  import opened Arith
  import opened Geometry
  import opened Matrices
  import opened Gate
  import opened Kernels
  import Weights

  /** Weights of one patch position. */
  type Patch = Weights.Fused

  predicate Sized(p: Patch, inDim: nat, d: nat) {
    && |p.qvgIn| == 3 * d * inDim && |p.goW| == |p.goWT| == d * d
    && forall i, j :: 0 <= i < d && 0 <= j < d ==> Entry(p.goWT, d, i, j) == Entry(p.goW, d, j, i)
  }

  /** What load_layer makes fits the kernels. */
  lemma FusedFits(r: Weights.Raw, p: nat)
    requires Weights.Sized(r)
    ensures Sized(Weights.FusedAt(r, p), r.inDim, r.dim)
  {
    var d, w, s := r.dim, Weights.FusedAt(r, p), Weights.Scatter(r, Weights.Block(Weights.NumIn(r), p));
    Weights.TimesSize(r.q, d, d, s, r.inDim);
    Weights.TimesSize(r.v, d, d, s, r.inDim);
    Weights.TimesSize(r.g, d, d, s, r.inDim);
    Weights.TimesSize(Weights.Gather(r, Weights.Block(Weights.NumOut(r), p)), d, d, r.o, d);
    Weights.MatrixEntries(d, d, Weights.TransposedEntry(w.goW, d));
    forall i, j | 0 <= i < d && 0 <= j < d
      ensures Entry(w.goWT, d, i, j) == Entry(w.goW, d, j, i)
    {
      Weights.GoTransposed(r, p, i, j);
    }
    Distribute(3, 0, d * r.inDim);
    assert 3 * d * r.inDim == 3 * (d * r.inDim);
    hide Entry, Weights.Times, Weights.Scatter;
  }

  // ---- what one patch does ----

  function Query(p: Patch, inDim: nat, d: nat, x: seq<real>, c: int): real {
    Dot(p.qvgIn, inDim, c, x)
  }

  /** Channel c of the hidden cell after lru_step. */
  function NewHid(p: Patch, inDim: nat, d: nat, x: seq<real>, h: real, c: int): real {
    Next(PadeGate(Dot(p.qvgIn, inDim, 2 * d + c, x)), Dot(p.qvgIn, inDim, d + c, x), h)
  }

  /** What channel c adds to output o. */
  function Terms(p: Patch, inDim: nat, d: nat, x: seq<real>, hs: seq<real>, o: int): int -> real {
    (c: int) => Entry(p.goW, d, o, c) * (Query(p, inDim, d, x, c) * NewHid(p, inDim, d, x, At(hs, c), c))
  }

  function Contribution(p: Patch, inDim: nat, d: nat, x: seq<real>, hs: seq<real>, o: int): real {
    Sum(Terms(p, inDim, d, x, hs, o), d)
  }

  /** The slice of a hidden cell before and after the patch. */
  ghost predicate Updated(p: Patch, inDim: nat, d: nat, x: seq<real>, before: seq<real>, after: seq<real>, off: nat) {
    && |before| == |after| && off + d <= |before|
    && (forall i :: off <= i < off + d ==> after[i] == NewHid(p, inDim, d, x, before[i], i - off))
    && (forall i :: 0 <= i < |before| && !(off <= i < off + d) ==> after[i] == before[i])
  }

  ghost predicate Added(p: Patch, inDim: nat, d: nat, x: seq<real>, hs: seq<real>, before: seq<real>,
      after: seq<real>) {
    |before| == |after| == d && forall o :: 0 <= o < d ==> after[o] == before[o] + Contribution(p, inDim, d, x, hs, o)
  }

  // ---- matvec: one lane, and four lanes with a paired reduction ----

  method RowDot(w: seq<real>, cols: nat, r: nat, x: seq<real>) returns (acc: real)
    requires |x| == cols && r * cols + cols <= |w|
    ensures acc == Dot(w, cols, r, x)
  {
    acc := 0.0;
    for j := 0 to cols
      invariant acc == Sum(Products(w, cols, r, x), j)
    {
      acc := acc + w[r * cols + j] * x[j];
    }
  }

  method RowDot4(w: seq<real>, cols: nat, r: nat, x: seq<real>) returns (acc: real)
    requires |x| == cols && cols % 4 == 0 && r * cols + cols <= |w|
    ensures acc == Dot(w, cols, r, x)
  {
    hide Products, Sum;
    ghost var f := Products(w, cols, r, x);
    assert Dot(w, cols, r, x) == Sum(f, cols) && Sum(f, 0) == 0.0 by { NoTerms(f); }
    var a0, a1, a2, a3 := 0.0, 0.0, 0.0, 0.0;
    var j, b := 0, r * cols;
    while j < cols
      invariant 0 <= j <= cols && j % 4 == 0 && b == r * cols + j && a0 + a1 + (a2 + a3) == Sum(f, j)
    {
      FourMore(f, j);
      var p0 := Lane(w, cols, r, x, j, b);
      var p1 := Lane(w, cols, r, x, j + 1, b + 1);
      var p2 := Lane(w, cols, r, x, j + 2, b + 2);
      var p3 := Lane(w, cols, r, x, j + 3, b + 3);
      a0, a1, a2, a3 := a0 + p0, a1 + p1, a2 + p2, a3 + p3;
      j, b := j + 4, b + 4;
    }
    acc := (a0 + a1) + (a2 + a3);
  }

  /** One product of a lane. */
  method Lane(w: seq<real>, cols: nat, r: nat, x: seq<real>, j: nat, b: nat) returns (p: real)
    requires b == r * cols + j && b < |w| && j < |x|
    ensures p == Products(w, cols, r, x)(j)
  {
    p := x[j] * w[b];
  }

  lemma NoTerms(f: int -> real)
    ensures Sum(f, 0) == 0.0
  {
  }

  lemma FourMore(f: int -> real, j: nat)
    ensures Sum(f, j + 4) == Sum(f, j) + f(j) + f(j + 1) + f(j + 2) + f(j + 3)
  {
    assert Sum(f, j + 2) == Sum(f, j + 1) + f(j + 1);
    assert Sum(f, j + 3) == Sum(f, j + 2) + f(j + 2);
  }

  /** matvec_in12_neon_core: four outputs at a time, added to a bias, to nothing or to what is there. */
  method MatvecIn12(x: seq<real>, w: seq<real>, bias: seq<real>, y: array<real>, accumulate: bool)
    requires |x| == 12 && y.Length % 4 == 0 && |w| == y.Length * 12 && (bias == [] || |bias| == y.Length)
    modifies y
    ensures forall o :: 0 <= o < y.Length ==>
      y[o] == (if accumulate then old(y[o]) else if bias != [] then bias[o] else 0.0) + Dot(w, 12, o, x)
  {
    hide Dot;
    var o := 0;
    while o < y.Length
      invariant 0 <= o <= y.Length && o % 4 == 0
      invariant forall i :: 0 <= i < o ==>
        y[i] == (if accumulate then old(y[i]) else if bias != [] then bias[i] else 0.0) + Dot(w, 12, i, x)
      invariant forall i :: o <= i < y.Length ==> y[i] == old(y[i])
    {
      var s0 := RowDot4(w, 12, o, x);
      var s1 := RowDot4(w, 12, o + 1, x);
      var s2 := RowDot4(w, 12, o + 2, x);
      var s3 := RowDot4(w, 12, o + 3, x);
      if accumulate {
        y[o], y[o + 1], y[o + 2], y[o + 3] := y[o] + s0, y[o + 1] + s1, y[o + 2] + s2, y[o + 3] + s3;
      } else if bias != [] {
        y[o], y[o + 1], y[o + 2], y[o + 3] := s0 + bias[o], s1 + bias[o + 1], s2 + bias[o + 2], s3 + bias[o + 3];
      } else {
        y[o], y[o + 1], y[o + 2], y[o + 3] := s0, s1, s2, s3;
      }
      o := o + 4;
    }
  }

  // ---- one patch: the generic kernel ----

  /** Rows of the weights are inside the matrix. */
  lemma RowsFit(p: Patch, inDim: nat, d: nat, r: nat)
    requires Sized(p, inDim, d) && r < 3 * d
    ensures r * inDim + inDim <= |p.qvgIn|
  {
    TimesMonotone(inDim, r + 1, 3 * d);
    Distribute(r, 1, inDim);
  }

  lemma OutFits(p: Patch, inDim: nat, d: nat, r: nat)
    requires Sized(p, inDim, d) && r < d
    ensures r * d + d <= |p.goW| && r * d + d <= |p.goWT|
  {
    TimesMonotone(d, r + 1, d);
    Distribute(r, 1, d);
  }

  /** The gated states of a patch. */
  ghost predicate Gated(p: Patch, inDim: nat, d: nat, x: seq<real>, hs: seq<real>, qh: seq<real>) {
    |qh| == d && forall c :: 0 <= c < d ==> qh[c] == Query(p, inDim, d, x, c) * NewHid(p, inDim, d, x, At(hs, c), c)
  }

  lemma GatedDot(p: Patch, inDim: nat, d: nat, x: seq<real>, hs: seq<real>, qh: seq<real>, o: int)
    requires Gated(p, inDim, d, x, hs, qh)
    ensures Dot(p.goW, d, o, qh) == Contribution(p, inDim, d, x, hs, o)
  {
    hide NewHid, Query;
    SumSame(Products(p.goW, d, o, qh), Terms(p, inDim, d, x, hs, o), d);
  }

  lemma ChannelStep(w: Patch, inDim: nat, d: nat, x: seq<real>, hs: seq<real>, qh: seq<real>, c: nat)
    requires c < d && Gated(w, inDim, d, x, hs, qh)
    ensures |qh| == d && Stepped(Dot(w.qvgIn, inDim, 2 * d + c, x), Dot(w.qvgIn, inDim, d + c, x),
      Dot(w.qvgIn, inDim, c, x), At(hs, c), NewHid(w, inDim, d, x, At(hs, c), c), qh[c])
  {
    hide Dot, PadeGate, Next, Stepped;
    StepMeaning(Dot(w.qvgIn, inDim, 2 * d + c, x), Dot(w.qvgIn, inDim, d + c, x), Dot(w.qvgIn, inDim, c, x), At(hs, c));
    assert qh[c] == Query(w, inDim, d, x, c) * NewHid(w, inDim, d, x, At(hs, c), c);
    assert qh[c] == Gate.Gated(Dot(w.qvgIn, inDim, c, x), NewHid(w, inDim, d, x, At(hs, c), c));
  }

  /** With the weights that load_layer makes, in terms of the raw ones: gate and value come from the
      projections of the scattered input, and what comes out is the gather of the o projection of the
      gated state. */
  lemma PatchMeaning(r: Weights.Raw, p: nat, x: seq<real>, hs: seq<real>, qh: seq<real>, c: nat)
    requires Weights.Sized(r) && c < r.dim && Gated(Weights.FusedAt(r, p), r.inDim, r.dim, x, hs, qh)
    ensures var w, s := Weights.FusedAt(r, p), Weights.Scattered(r, Weights.Block(Weights.NumIn(r), p), x);
      && Query(w, r.inDim, r.dim, x, c) == Dot(r.q, r.dim, c, s)
      && Stepped(Dot(r.g, r.dim, c, s), Dot(r.v, r.dim, c, s), Dot(r.q, r.dim, c, s), At(hs, c),
                 NewHid(w, r.inDim, r.dim, x, At(hs, c), c), qh[c])
      && Contribution(w, r.inDim, r.dim, x, hs, c)
         == Weights.Gathered(r, Weights.Block(Weights.NumOut(r), p), Weights.Projected(r.o, r.dim, qh), c)
  {
    hide Dot, Weights.FusedAt, Contribution, NewHid, Gated, Stepped, Weights.Scattered;
    Weights.QvgIsProjection(r, p, x, c);
    ChannelStep(Weights.FusedAt(r, p), r.inDim, r.dim, x, hs, qh, c);
    Weights.GoIsGather(r, p, qh, c);
    GatedDot(Weights.FusedAt(r, p), r.inDim, r.dim, x, hs, qh, c);
  }

  /** process_patch: project to q, v, g; lru_step on the hidden slice; add goW times the gated state. */
  method GenericPatch(p: Patch, inDim: nat, d: nat, x: seq<real>, hid: array<real>, off: nat, out: array<real>)
    requires Sized(p, inDim, d) && |x| == inDim && off + d <= hid.Length && out.Length == d && hid != out
    modifies hid, out
    ensures Updated(p, inDim, d, x, old(hid[..]), hid[..], off)
    ensures Added(p, inDim, d, x, old(hid[off..off + d]), old(out[..]), out[..])
  {
    hide Dot, Contribution;
    ghost var hs := hid[off..off + d];
    var qvg := Project(p, inDim, d, x);
    var qh := Recur(p, inDim, d, x, qvg, hid, off);
    for o := 0 to d
      invariant Updated(p, inDim, d, x, old(hid[..]), hid[..], off)
      invariant forall i :: 0 <= i < o ==> out[i] == old(out[i]) + Contribution(p, inDim, d, x, hs, i)
      invariant forall i :: o <= i < d ==> out[i] == old(out[i])
    {
      OutFits(p, inDim, d, o);
      GatedDot(p, inDim, d, x, hs, qh, o);
      var acc := RowDot(p.goW, d, o, qh);
      out[o] := out[o] + acc;
    }
  }

  method Project(p: Patch, inDim: nat, d: nat, x: seq<real>) returns (qvg: seq<real>)
    requires Sized(p, inDim, d) && |x| == inDim
    ensures |qvg| == 3 * d && forall r :: 0 <= r < 3 * d ==> qvg[r] == Dot(p.qvgIn, inDim, r, x)
  {
    qvg := [];
    for r := 0 to 3 * d
      invariant |qvg| == r && forall i :: 0 <= i < r ==> qvg[i] == Dot(p.qvgIn, inDim, i, x)
    {
      RowsFit(p, inDim, d, r);
      var s := RowDot(p.qvgIn, inDim, r, x);
      qvg := qvg + [s];
    }
  }

  method Recur(p: Patch, inDim: nat, d: nat, x: seq<real>, qvg: seq<real>, hid: array<real>, off: nat)
      returns (qh: seq<real>)
    requires |qvg| == 3 * d && forall r :: 0 <= r < 3 * d ==> qvg[r] == Dot(p.qvgIn, inDim, r, x)
    requires off + d <= hid.Length
    modifies hid
    ensures Updated(p, inDim, d, x, old(hid[..]), hid[..], off)
    ensures Gated(p, inDim, d, x, old(hid[off..off + d]), qh)
  {
    hide Dot, PadeGate, Next;
    qh := [];
    for c := 0 to d
      invariant |qh| == c
      invariant forall i :: off <= i < off + c ==> hid[i] == NewHid(p, inDim, d, x, old(hid[i]), i - off)
      invariant forall i :: 0 <= i < hid.Length && !(off <= i < off + c) ==> hid[i] == old(hid[i])
      invariant forall i :: 0 <= i < c ==>
        qh[i] == Query(p, inDim, d, x, i) * NewHid(p, inDim, d, x, old(hid[off + i]), i)
    {
      hid[off + c] := Next(PadeGate(qvg[2 * d + c]), qvg[d + c], hid[off + c]);
      qh := qh + [qvg[c] * hid[off + c]];
    }
  }

  // ---- one patch: the tiled kernel ----

  /** Four channels: project, step the hidden slice in place, gate. */
  method Tile(p: Patch, inDim: nat, d: nat, x: seq<real>, hid: array<real>, off: nat, c: nat) returns (qh: seq<real>)
    requires Sized(p, inDim, d) && |x| == inDim && inDim % 4 == 0 && c + 4 <= d && off + d <= hid.Length
    modifies hid
    ensures forall i :: 0 <= i < hid.Length ==>
      hid[i] == if off + c <= i < off + c + 4 then NewHid(p, inDim, d, x, old(hid[i]), i - off) else old(hid[i])
    ensures |qh| == 4 && forall l :: 0 <= l < 4 ==>
      qh[l] == Query(p, inDim, d, x, c + l) * NewHid(p, inDim, d, x, old(hid[off + c + l]), c + l)
  {
    hide Dot, PadeGate;
    qh := [];
    for l := 0 to 4
      invariant |qh| == l
      invariant forall i :: 0 <= i < hid.Length ==>
        hid[i] == if off + c <= i < off + c + l then NewHid(p, inDim, d, x, old(hid[i]), i - off) else old(hid[i])
      invariant forall i :: 0 <= i < l ==>
        qh[i] == Query(p, inDim, d, x, c + i) * NewHid(p, inDim, d, x, old(hid[off + c + i]), c + i)
    {
      RowsFit(p, inDim, d, c + l);
      RowsFit(p, inDim, d, d + c + l);
      RowsFit(p, inDim, d, 2 * d + c + l);
      var q := RowDot4(p.qvgIn, inDim, c + l, x);
      var v := RowDot4(p.qvgIn, inDim, d + c + l, x);
      var g := RowDot4(p.qvgIn, inDim, 2 * d + c + l, x);
      var h := Next(PadeGate(g), v, hid[off + c + l]);
      hid[off + c + l] := h;
      qh := qh + [q * h];
    }
  }

  /** A row of the transpose is a column of the output matrix, and stands in one piece. */
  lemma TransposedRow(p: Patch, inDim: nat, d: nat, c: nat)
    requires Sized(p, inDim, d) && c < d
    ensures c * d + d <= |p.goWT| && forall o :: 0 <= o < d ==> p.goWT[c * d..c * d + d][o] == Entry(p.goW, d, o, c)
  {
    OutFits(p, inDim, d, c);
    forall o | 0 <= o < d ensures p.goWT[c * d..c * d + d][o] == Entry(p.goW, d, o, c) {
      assert Entry(p.goWT, d, c, o) == Entry(p.goW, d, o, c);
    }
  }

  /** Four rows, each times one gated state, added to the outputs. */
  method AddRows(r0: seq<real>, r1: seq<real>, r2: seq<real>, r3: seq<real>, qh: seq<real>, out: array<real>)
    requires |r0| == |r1| == |r2| == |r3| == out.Length && |qh| == 4
    modifies out
    ensures forall o :: 0 <= o < out.Length ==>
      out[o] == old(out[o]) + r0[o] * qh[0] + r1[o] * qh[1] + r2[o] * qh[2] + r3[o] * qh[3]
  {
    for o := 0 to out.Length
      invariant forall i :: 0 <= i < o ==>
        out[i] == old(out[i]) + r0[i] * qh[0] + r1[i] * qh[1] + r2[i] * qh[2] + r3[i] * qh[3]
      invariant forall i :: o <= i < out.Length ==> out[i] == old(out[i])
    {
      out[o] := out[o] + r0[o] * qh[0];
      out[o] := out[o] + r1[o] * qh[1];
      out[o] := out[o] + r2[o] * qh[2];
      out[o] := out[o] + r3[o] * qh[3];
    }
  }

  /** What four channels add to output o. */
  function TileSum(p: Patch, d: nat, o: int, c: int, qh: seq<real>): real
    requires |qh| == 4
  {
    Entry(p.goW, d, o, c) * qh[0] + Entry(p.goW, d, o, c + 1) * qh[1] + Entry(p.goW, d, o, c + 2) * qh[2]
      + Entry(p.goW, d, o, c + 3) * qh[3]
  }

  /** Four rows of the transposed output matrix, each times one gated state. */
  method AccumTile(p: Patch, inDim: nat, d: nat, c: nat, qh: seq<real>, out: array<real>)
    requires Sized(p, inDim, d) && c + 4 <= d && |qh| == 4 && out.Length == d
    modifies out
    ensures forall o :: 0 <= o < d ==>
      out[o] == old(out[o]) + TileSum(p, d, o, c, qh)
  {
    hide Entry, Sized;
    TransposedRow(p, inDim, d, c);
    TransposedRow(p, inDim, d, c + 1);
    TransposedRow(p, inDim, d, c + 2);
    TransposedRow(p, inDim, d, c + 3);
    AddRows(p.goWT[c * d..c * d + d], p.goWT[(c + 1) * d..(c + 1) * d + d],
            p.goWT[(c + 2) * d..(c + 2) * d + d], p.goWT[(c + 3) * d..(c + 3) * d + d], qh, out);
  }

  lemma TileTerms(p: Patch, inDim: nat, d: nat, x: seq<real>, hs: seq<real>, o: int, c: nat, qh: seq<real>)
    requires |qh| == 4 && forall l :: 0 <= l < 4 ==>
      qh[l] == Query(p, inDim, d, x, c + l) * NewHid(p, inDim, d, x, At(hs, c + l), c + l)
    ensures Sum(Terms(p, inDim, d, x, hs, o), c + 4) == Sum(Terms(p, inDim, d, x, hs, o), c) + TileSum(p, d, o, c, qh)
  {
    hide Query, NewHid, Entry, Sum;
    FourMore(Terms(p, inDim, d, x, hs, o), c);
  }

  /** The tiled patch does what the generic patch does. */
  method TiledPatch(p: Patch, inDim: nat, d: nat, x: seq<real>, hid: array<real>, off: nat, out: array<real>)
    requires Sized(p, inDim, d) && |x| == inDim && inDim % 4 == 0 && d % 4 == 0 && off + d <= hid.Length
      && out.Length == d && hid != out
    modifies hid, out
    ensures Updated(p, inDim, d, x, old(hid[..]), hid[..], off)
    ensures Added(p, inDim, d, x, old(hid[off..off + d]), old(out[..]), out[..])
  {
    hide Query, NewHid, Entry, Sized, TileSum, Terms;
    ghost var hs := hid[off..off + d];
    var c := 0;
    while c < d
      invariant 0 <= c <= d && c % 4 == 0
      invariant forall i :: 0 <= i < hid.Length ==>
        hid[i] == if off <= i < off + c then NewHid(p, inDim, d, x, old(hid[i]), i - off) else old(hid[i])
      invariant forall o :: 0 <= o < d ==> out[o] == old(out[o]) + Sum(Terms(p, inDim, d, x, hs, o), c)
    {
      var qh := Tile(p, inDim, d, x, hid, off, c);
      AccumTile(p, inDim, d, c, qh, out);
      forall o | 0 <= o < d
        ensures Sum(Terms(p, inDim, d, x, hs, o), c + 4)
          == Sum(Terms(p, inDim, d, x, hs, o), c) + TileSum(p, d, o, c, qh)
      {
        TileTerms(p, inDim, d, x, hs, o, c, qh);
      }
      c := c + 4;
    }
  }

  // ---- the nine cells around an interior event ----

  /** Layer shape: input and output width, grid, event, input and the nine patches. */
  datatype Job = Job(inDim: nat, d: nat, g: Size, ev: Cell, x: seq<real>, ws: seq<Patch>)

  predicate Ready(j: Job) {
    && |j.x| == j.inDim && j.inDim % 4 == 0 && j.d % 4 == 0 && |j.ws| == 9
      && (forall p :: 0 <= p < 9 ==> Sized(j.ws[p], j.inDim, j.d))
    && InGrid(j.g, j.ev) && Interior(j.g, j.ev)
  }

  /** Where cell c's channels start in the hidden array. */
  function Offset(j: Job, c: Cell): int {
    Index(j.g, c) * j.d
  }

  lemma OffsetInRange(j: Job, c: Cell)
    requires InGrid(j.g, c)
    ensures 0 <= Offset(j, c) && Offset(j, c) + j.d <= Cells(j.g) * j.d
  {
    IndexInRange(j.g, c);
    TimesMonotone(j.d, Index(j.g, c) + 1, Cells(j.g));
    Distribute(Index(j.g, c), 1, j.d);
    TimesMonotone(j.d, 0, Index(j.g, c));
  }

  /** Channels of different cells lie apart. */
  lemma SlicesApart(j: Job, c: Cell, k: Cell, i: nat)
    requires InGrid(j.g, c) && InGrid(j.g, k) && c != k && i < j.d
    ensures !(Offset(j, c) <= Offset(j, k) + i < Offset(j, c) + j.d)
  {
    IndexInjective(j.g, c, k);
    var y := Offset(j, k) + i;
    Unique(y, Index(j.g, k), i, j.d);
    if Offset(j, c) <= y < Offset(j, c) + j.d { Unique(y, Index(j.g, c), y - Offset(j, c), j.d); }
  }

  function Slice(j: Job, h: seq<real>, c: Cell): seq<real>
    requires InGrid(j.g, c) && |h| == Cells(j.g) * j.d
  {
    OffsetInRange(j, c);
    h[Offset(j, c)..Offset(j, c) + j.d]
  }

  /** Cells at positions `left` and up have been through their patch, all others are as they were. */
  ghost predicate HidDone(j: Job, before: seq<real>, after: seq<real>, left: nat)
    requires |j.ws| == 9
  {
    && |before| == |after| == Cells(j.g) * j.d
    && forall c, i :: InGrid(j.g, c) && 0 <= i < j.d ==> ChannelDone(j, before, after, left, c, i)
  }

  ghost predicate ChannelDone(j: Job, before: seq<real>, after: seq<real>, left: nat, c: Cell, i: int)
    requires |j.ws| == 9
  {
    var y, p := Offset(j, c) + i, Delta(j.ev, c);
    && 0 <= y < |before| && y < |after|
    && after[y] == if Near(j.ev, c) && left <= p < 9 then NewHid(j.ws[p], j.inDim, j.d, j.x, before[y], i)
      else before[y]
  }

  /** The sum of what positions `left` and up contribute to output o. */
  function Contributions(j: Job, before: seq<real>, left: nat, o: int): real
    requires Ready(j) && |before| == Cells(j.g) * j.d && left <= 9
    decreases 9 - left
  {
    if left == 9 then 0.0
    else
      WindowIndex(j.g, j.ev, left, 1 - left / 3, 1 - left % 3);
      Contributions(j, before, left + 1, o)
      + Contribution(j.ws[left], j.inDim, j.d, j.x, Slice(j, before, PatchCell(j.ev, left)), o)
  }

  ghost predicate OutDone(j: Job, before: seq<real>, start: seq<real>, out: seq<real>, left: nat)
    requires Ready(j) && |before| == Cells(j.g) * j.d && left <= 9
  {
    |start| == |out| == j.d && forall o :: 0 <= o < j.d ==> out[o] == start[o] + Contributions(j, before, left, o)
  }

  /** A patch still to be done is untouched. */
  lemma SliceUntouched(j: Job, before: seq<real>, h: seq<real>, left: nat)
    requires Ready(j) && left < 9 && HidDone(j, before, h, left + 1)
    ensures InGrid(j.g, PatchCell(j.ev, left))
      && Slice(j, h, PatchCell(j.ev, left)) == Slice(j, before, PatchCell(j.ev, left))
  {
    var c := PatchCell(j.ev, left);
    WindowIndex(j.g, j.ev, left, 1 - left / 3, 1 - left % 3);
    DeltaBijection(j.ev, c, left);
    OffsetInRange(j, c);
    var a, b := Slice(j, h, c), Slice(j, before, c);
    hide NewHid, PatchCell, Delta, Offset;
    forall i | 0 <= i < j.d ensures a[i] == b[i] { assert ChannelDone(j, before, h, left + 1, c, i); }
  }

  lemma PatchDone(j: Job, before: seq<real>, h: seq<real>, h': seq<real>, left: nat)
    requires Ready(j) && left < 9 && HidDone(j, before, h, left + 1)
    requires InGrid(j.g, PatchCell(j.ev, left)) && 0 <= Offset(j, PatchCell(j.ev, left))
    requires Updated(j.ws[left], j.inDim, j.d, j.x, h, h', Offset(j, PatchCell(j.ev, left)))
    ensures HidDone(j, before, h', left)
  {
    var c := PatchCell(j.ev, left);
    DeltaBijection(j.ev, c, left);
    forall k, i | InGrid(j.g, k) && 0 <= i < j.d ensures ChannelDone(j, before, h', left, k, i) {
      assert ChannelDone(j, before, h, left + 1, k, i);
      DeltaBijection(j.ev, k, left);
      if k != c { SlicesApart(j, c, k, i); }
      hide NewHid, PatchCell, Delta, Offset;
    }
  }

  lemma Nothing(j: Job, before: seq<real>, start: seq<real>)
    requires Ready(j) && |before| == Cells(j.g) * j.d && |start| == j.d
    ensures HidDone(j, before, before, 9) && OutDone(j, before, start, start, 9)
  {
    forall c, i | InGrid(j.g, c) && 0 <= i < j.d ensures ChannelDone(j, before, before, 9, c, i) {
      OffsetInRange(j, c);
      DeltaBijection(j.ev, c, 0);
      hide NewHid, Offset;
    }
  }

  lemma OneMoreOut(j: Job, before: seq<real>, start: seq<real>, o: seq<real>, o': seq<real>, hs: seq<real>, left: nat)
    requires Ready(j) && |before| == Cells(j.g) * j.d && left < 9 && OutDone(j, before, start, o, left + 1)
    requires InGrid(j.g, PatchCell(j.ev, left)) && hs == Slice(j, before, PatchCell(j.ev, left))
    requires Added(j.ws[left], j.inDim, j.d, j.x, hs, o, o')
    ensures OutDone(j, before, start, o', left)
  {
    hide Contribution, Slice, PatchCell;
  }

  /** The code's steps around the event: rows from above, columns from the left. */
  const DX: seq<int> := [-1, 0, 1, -1, 0, 1, -1, 0, 1]
  const DY: seq<int> := [-1, -1, -1, 0, 0, 0, 1, 1, 1]
  const DELTA: seq<nat> := [8, 7, 6, 5, 4, 3, 2, 1, 0]

  /** patch_idx = base + dy * W + dx is the cell of position delta. */
  lemma Walk(j: Job, k: nat)
    requires Ready(j) && k < 9
    ensures DELTA[k] == 8 - k
    ensures var c := PatchCell(j.ev, 8 - k);
      && InGrid(j.g, c) && (Index(j.g, j.ev) + DY[k] * j.g.w + DX[k]) * j.d == Offset(j, c)
      && 0 <= Offset(j, c) && Offset(j, c) + j.d <= Cells(j.g) * j.d
  {
    WalkIndex(j, k);
    hide Index, PatchCell, Cells;
    OffsetInRange(j, PatchCell(j.ev, 8 - k));
  }

  lemma WalkIndex(j: Job, k: nat)
    requires Ready(j) && k < 9
    ensures DELTA[k] == 8 - k
    ensures InGrid(j.g, PatchCell(j.ev, 8 - k))
      && Index(j.g, j.ev) + DY[k] * j.g.w + DX[k] == Index(j.g, PatchCell(j.ev, 8 - k))
  {
    hide Index, PatchCell;
    WindowIndex(j.g, j.ev, 8 - k, DY[k], DX[k]);
  }

  /** The patches one after the other, by the generic kernel ... */
  method GenericPatches(j: Job, hid: array<real>, out: array<real>)
    requires Ready(j) && hid.Length == Cells(j.g) * j.d && out.Length == j.d && hid != out
    modifies hid, out
    ensures HidDone(j, old(hid[..]), hid[..], 0) && OutDone(j, old(hid[..]), old(out[..]), out[..], 0)
  {
    hide HidDone, OutDone, Slice, Updated, Added, Offset, PatchCell, Index, Cells;
    ghost var before, start := hid[..], out[..];
    Nothing(j, before, start);
    for k := 0 to 9
      invariant HidDone(j, before, hid[..], 9 - k) && OutDone(j, before, start, out[..], 9 - k)
    {
      ghost var h, o, c := hid[..], out[..], PatchCell(j.ev, 8 - k);
      Walk(j, k);
      SliceUntouched(j, before, h, 8 - k);
      var off := (Index(j.g, j.ev) + DY[k] * j.g.w + DX[k]) * j.d;
      SliceIs(j, hid[..], c);
      GenericPatch(j.ws[8 - k], j.inDim, j.d, j.x, hid, off, out);
      PatchDone(j, before, h, hid[..], 8 - k);
      OneMoreOut(j, before, start, o, out[..], Slice(j, h, c), 8 - k);
    }
  }

  lemma SliceIs(j: Job, h: seq<real>, c: Cell)
    requires InGrid(j.g, c) && |h| == Cells(j.g) * j.d && 0 <= Offset(j, c) && Offset(j, c) + j.d <= |h|
    ensures Slice(j, h, c) == h[Offset(j, c)..Offset(j, c) + j.d]
  {
  }

  /** ... and by the tiled kernel. */
  method TiledPatches(j: Job, hid: array<real>, out: array<real>)
    requires Ready(j) && hid.Length == Cells(j.g) * j.d && out.Length == j.d && hid != out
    modifies hid, out
    ensures HidDone(j, old(hid[..]), hid[..], 0) && OutDone(j, old(hid[..]), old(out[..]), out[..], 0)
  {
    hide HidDone, OutDone, Slice, Updated, Added, Offset, PatchCell, Index, Cells;
    ghost var before, start := hid[..], out[..];
    Nothing(j, before, start);
    for k := 0 to 9
      invariant HidDone(j, before, hid[..], 9 - k) && OutDone(j, before, start, out[..], 9 - k)
    {
      ghost var h, o, c := hid[..], out[..], PatchCell(j.ev, 8 - k);
      Walk(j, k);
      SliceUntouched(j, before, h, 8 - k);
      var patchIdx := Index(j.g, j.ev) + DY[k] * j.g.w + DX[k];
      var pos := DELTA[k];
      SliceIs(j, hid[..], c);
      TiledPatch(j.ws[pos], j.inDim, j.d, j.x, hid, patchIdx * j.d, out);
      PatchDone(j, before, h, hid[..], 8 - k);
      OneMoreOut(j, before, start, o, out[..], Slice(j, h, c), 8 - k);
    }
  }

  // ---- the whole layer, with its residual and an uninterpreted layer norm ----

  /** What the layer must return. */
  function LayerOut(j: Job, before: seq<real>, residual: seq<real>, norm: seq<real> -> seq<real>): seq<real>
    requires Ready(j) && |before| == Cells(j.g) * j.d && |residual| == j.d
  {
    norm(seq(j.d, o requires 0 <= o < j.d => residual[o] + Contributions(j, before, 0, o)))
  }

  method AddInPlace(a: array<real>, b: seq<real>)
    requires a.Length == |b|
    modifies a
    ensures forall o :: 0 <= o < a.Length ==> a[o] == old(a[o]) + b[o]
  {
    for o := 0 to a.Length
      invariant forall i :: 0 <= i < o ==> a[i] == old(a[i]) + b[i]
      invariant forall i :: o <= i < a.Length ==> a[i] == old(a[i])
    {
      a[o] := a[o] + b[o];
    }
  }

  /** layer_forward_ct at an interior event: patches from zero, then the residual, then the norm. */
  method GenericLayer(j: Job, hid: array<real>, residual: seq<real>, norm: seq<real> -> seq<real>)
      returns (r: seq<real>)
    requires Ready(j) && hid.Length == Cells(j.g) * j.d && |residual| == j.d
    modifies hid
    ensures HidDone(j, old(hid[..]), hid[..], 0) && r == LayerOut(j, old(hid[..]), residual, norm)
  {
    hide HidDone, Contributions, Ready;
    ghost var before := hid[..];
    var out := new real[j.d](_ => 0.0);
    GenericPatches(j, hid, out);
    AddInPlace(out, residual);
    assert out[..] == seq(j.d, o requires 0 <= o < j.d => residual[o] + Contributions(j, before, 0, o));
    r := norm(out[..]);
  }

  /** s1_l0_interior_tiled: the residual first, then the patches. */
  method TiledLayerResidualFirst(j: Job, hid: array<real>, residual: seq<real>, norm: seq<real> -> seq<real>)
      returns (r: seq<real>)
    requires Ready(j) && hid.Length == Cells(j.g) * j.d && |residual| == j.d
    modifies hid
    ensures HidDone(j, old(hid[..]), hid[..], 0) && r == LayerOut(j, old(hid[..]), residual, norm)
  {
    hide HidDone, Contributions, Ready;
    ghost var before := hid[..];
    var out := new real[j.d](o requires 0 <= o < j.d => residual[o]);
    TiledPatches(j, hid, out);
    assert out[..] == seq(j.d, o requires 0 <= o < j.d => residual[o] + Contributions(j, before, 0, o));
    r := norm(out[..]);
  }

  lemma InputWidth(j: Job)
    requires Ready(j)
    ensures |j.x| == j.inDim
  {
  }

  /** s1_l1_interior_tiled: patches from zero, then the input itself as residual. */
  method TiledLayerResidualLast(j: Job, hid: array<real>, norm: seq<real> -> seq<real>) returns (r: seq<real>)
    requires Ready(j) && hid.Length == Cells(j.g) * j.d && j.inDim == j.d
    modifies hid
    ensures |j.x| == j.d && HidDone(j, old(hid[..]), hid[..], 0) && r == LayerOut(j, old(hid[..]), j.x, norm)
  {
    hide HidDone, Contributions, Ready, Cells;
    InputWidth(j);
    ghost var before := hid[..];
    var out := new real[j.d](_ => 0.0);
    TiledPatches(j, hid, out);
    AddInPlace(out, j.x);
    assert out[..] == seq(j.d, o requires 0 <= o < j.d => j.x[o] + Contributions(j, before, 0, o));
    r := norm(out[..]);
  }

  /** No kernel touches a cell outside the window, and every cell inside takes one step. */
  lemma WindowOnly(j: Job, before: seq<real>, after: seq<real>, c: Cell, i: nat)
    requires Ready(j) && HidDone(j, before, after, 0) && InGrid(j.g, c) && i < j.d
    ensures 0 <= Offset(j, c) && Offset(j, c) + i < |before| && |after| == |before|
    ensures !Near(j.ev, c) ==> after[Offset(j, c) + i] == before[Offset(j, c) + i]
    ensures Near(j.ev, c) ==>
      Delta(j.ev, c) < 9 && after[Offset(j, c) + i]
        == NewHid(j.ws[Delta(j.ev, c)], j.inDim, j.d, j.x, before[Offset(j, c) + i], i)
  {
    DeltaBijection(j.ev, c, 0);
    OffsetInRange(j, c);
    assert ChannelDone(j, before, after, 0, c, i);
    hide NewHid, Offset;
  }
}
