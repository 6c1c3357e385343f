/** load_layer: the projections of a layer fused into two matrices for each position. */
module Weights {
  import opened Arith
  import opened Matrices

  /** One position: q, v and g rows on the layer's input, the output matrix, and its transpose. */
  datatype Fused = Fused(qvgIn: seq<real>, goW: seq<real>, goWT: seq<real>)

  datatype Loaded = Failure | Success(numPos: nat, positions: seq<Fused>)

  /** The raw weights of a layer; all matrices row-major. */
  datatype Raw = Raw(
    inDim: nat, dim: nat,
    win: seq<real>, winCols: nat,    // inDim x winCols
    wout: seq<real>, woutRows: nat,  // woutRows x dim
    q: seq<real>, v: seq<real>, g: seq<real>, o: seq<real>)

  predicate Sized(r: Raw) {
    && r.dim >= 1 && |r.win| == r.inDim * r.winCols && |r.wout| == r.woutRows * r.dim
    && |r.q| == |r.v| == |r.g| == |r.o| == r.dim * r.dim
  }

  function Max(a: nat, b: nat): nat {
    if a >= b then a else b
  }

  function NumIn(r: Raw): nat
    requires r.dim >= 1
  {
    r.winCols / r.dim
  }

  function NumOut(r: Raw): nat
    requires r.dim >= 1
  {
    r.woutRows / r.dim
  }

  function NumPos(r: Raw): nat
    requires r.dim >= 1
  {
    Max(NumIn(r), NumOut(r))
  }

  /** Block used by position p: a side with one block shares it among all positions. */
  function Block(blocks: nat, p: nat): nat {
    if blocks == 1 then 0 else p
  }

  /** Each side has one block, or one for every position. */
  predicate Fits(r: Raw)
    requires r.dim >= 1
  {
    NumIn(r) in {1, NumPos(r)} && NumOut(r) in {1, NumPos(r)}
  }

  /** That is what the reads of load_layer need: exactly then every position's block is there. */
  lemma BlocksExist(r: Raw)
    requires r.dim >= 1
    ensures (forall p: nat :: p < NumPos(r) ==> Block(NumIn(r), p) < NumIn(r) && Block(NumOut(r), p) < NumOut(r)) <==>
      Fits(r)
  {
    if !Fits(r) {
      var p: nat := if NumIn(r) < NumPos(r) then NumIn(r) else NumOut(r);
      assert Block(NumIn(r), p) >= NumIn(r) || Block(NumOut(r), p) >= NumOut(r);
    }
  }

  /** The blocks of a side are as many as fill it, and the positions as many as fill the longer one. */
  lemma BlocksTile(r: Raw)
    requires r.dim >= 1 && r.winCols % r.dim == 0 && r.woutRows % r.dim == 0
    ensures NumIn(r) * r.dim == r.winCols && NumOut(r) * r.dim == r.woutRows
    ensures NumPos(r) * r.dim == if r.winCols >= r.woutRows then r.winCols else r.woutRows
  {
    Split(r.winCols, r.dim);
    Split(r.woutRows, r.dim);
    if NumIn(r) >= NumOut(r) { TimesMonotone(r.dim, NumOut(r), NumIn(r)); } else {
      TimesMonotone(r.dim, NumIn(r), NumOut(r));
    }
  }

  // ---- what the loops compute ----

  /** The matrix of all entries f(i, j). */
  function MatrixOf(rows: nat, cols: nat, f: (int, int) -> real): seq<real> {
    seq(rows * cols, k requires 0 <= k < rows * cols => if cols == 0 then 0.0 else f(k / cols, k % cols))
  }

  lemma MatrixEntries(rows: nat, cols: nat, f: (int, int) -> real)
    ensures Holds(MatrixOf(rows, cols, f), rows, cols, f)
  {
    forall i, j | 0 <= i < rows && 0 <= j < cols
      ensures Entry(MatrixOf(rows, cols, f), cols, i, j) == f(i, j)
    {
      InMatrix(rows, cols, i, j);
    }
  }

  /** scatter[d, c] = W_in_cat[c, pin * D + d] and gather[i, j] = W_out_cat[pout * D + j, i]. */
  function ScatterEntry(r: Raw, pin: nat): (int, int) -> real {
    (d: int, c: int) => Entry(r.win, r.winCols, c, pin * r.dim + d)
  }

  function GatherEntry(r: Raw, pout: nat): (int, int) -> real {
    (i: int, j: int) => Entry(r.wout, r.dim, pout * r.dim + j, i)
  }

  function ProductEntry(a: seq<real>, inner: nat, b: seq<real>, cols: nat): (int, int) -> real {
    (i: int, j: int) => Product(a, inner, b, cols, i, j)
  }

  function TransposedEntry(a: seq<real>, cols: nat): (int, int) -> real {
    (i: int, j: int) => Entry(a, cols, j, i)
  }

  function Scatter(r: Raw, pin: nat): seq<real> {
    MatrixOf(r.dim, r.inDim, ScatterEntry(r, pin))
  }

  function Gather(r: Raw, pout: nat): seq<real> {
    MatrixOf(r.dim, r.dim, GatherEntry(r, pout))
  }

  function Times(a: seq<real>, rows: nat, inner: nat, b: seq<real>, cols: nat): seq<real> {
    MatrixOf(rows, cols, ProductEntry(a, inner, b, cols))
  }

  /** Everything about position p. */
  function FusedAt(r: Raw, p: nat): Fused
    requires r.dim >= 1
  {
    var s, d := Scatter(r, Block(NumIn(r), p)), r.dim;
    var goW := Times(Gather(r, Block(NumOut(r), p)), d, d, r.o, d);
    Fused(Times(r.q, d, d, s, r.inDim) + Times(r.v, d, d, s, r.inDim) + Times(r.g, d, d, s, r.inDim),
          goW, MatrixOf(d, d, TransposedEntry(goW, d)))
  }

  // ---- what the fused matrices mean ----

  /** The layer input scattered to position p: its block of W_in_cat, transposed, times x. */
  function Scattered(r: Raw, pin: nat, x: seq<real>): seq<real> {
    seq(r.dim, d requires 0 <= d < r.dim => Sum(ScatterTerms(r, pin, x, d), r.inDim))
  }

  function ScatterTerms(r: Raw, pin: nat, x: seq<real>, d: int): int -> real {
    (c: int) => Entry(r.win, r.winCols, c, pin * r.dim + d) * At(x, c)
  }

  /** o_proj of z, and the gather after it. */
  function Projected(w: seq<real>, dim: nat, z: seq<real>): seq<real> {
    seq(dim, k requires 0 <= k < dim => Dot(w, dim, k, z))
  }

  function Gathered(r: Raw, pout: nat, z: seq<real>, i: int): real {
    Sum(GatherTerms(r, pout, z, i), r.dim)
  }

  function GatherTerms(r: Raw, pout: nat, z: seq<real>, i: int): int -> real {
    (j: int) => Entry(r.wout, r.dim, pout * r.dim + j, i) * At(z, j)
  }

  /** Rows of a block inside a stack of three. */
  lemma StackedDot(a: seq<real>, b: seq<real>, c: seq<real>, rows: nat, cols: nat, i: nat, x: seq<real>)
    requires |a| == |b| == |c| == rows * cols && i < rows
    ensures Dot(a + b + c, cols, i, x) == Dot(a, cols, i, x)
    ensures Dot(a + b + c, cols, rows + i, x) == Dot(b, cols, i, x)
    ensures Dot(a + b + c, cols, 2 * rows + i, x) == Dot(c, cols, i, x)
  {
    hide Dot;
    assert (2 * rows) * cols == 2 * (rows * cols);
    BlockDot([], a, b + c, rows, cols, 0, i, x);
    BlockDot(a, b, c, rows, cols, rows, i, x);
    BlockDot(a + b, c, [], rows, cols, 2 * rows, i, x);
    assert [] + a + (b + c) == a + b + c && a + b + c + [] == a + b + c;
  }

  lemma BlockDot(pre: seq<real>, m: seq<real>, post: seq<real>, rows: nat, cols: nat, first: nat, i: nat, x: seq<real>)
    requires |m| == rows * cols && i < rows && |pre| == first * cols
    ensures Dot(pre + m + post, cols, first + i, x) == Dot(m, cols, i, x)
  {
    var s := pre + m + post;
    Distribute(first, i, cols);
    forall j | 0 <= j < cols ensures Products(s, cols, first + i, x)(j) == Products(m, cols, i, x)(j) {
      InMatrix(rows, cols, i, j);
      assert s[|pre| + (i * cols + j)] == m[i * cols + j];
    }
    SumSame(Products(s, cols, first + i, x), Products(m, cols, i, x), cols);
  }

  /** Row i of a matrix given by its entries, times x. */
  function RowTerms(f: (int, int) -> real, i: int, x: seq<real>): int -> real {
    (j: int) => f(i, j) * At(x, j)
  }

  lemma DotOfEntries(m: seq<real>, rows: nat, cols: nat, f: (int, int) -> real, i: int, x: seq<real>)
    requires Holds(m, rows, cols, f) && 0 <= i < rows
    ensures Dot(m, cols, i, x) == Sum(RowTerms(f, i, x), cols)
  {
    hide Entry, At;
    forall j | 0 <= j < cols ensures Products(m, cols, i, x)(j) == RowTerms(f, i, x)(j) {
      SameTimes(Entry(m, cols, i, j), f(i, j), At(x, j));
    }
    SumSame(Products(m, cols, i, x), RowTerms(f, i, x), cols);
  }

  lemma SameTimes(a: real, b: real, c: real)
    requires a == b
    ensures a * c == b * c
  {
  }

  lemma TimesDot(a: seq<real>, rows: nat, inner: nat, b: seq<real>, cols: nat, i: nat, x: seq<real>, y: seq<real>)
    requires i < rows && |y| == inner && forall k :: 0 <= k < inner ==> y[k] == Dot(b, cols, k, x)
    ensures Dot(Times(a, rows, inner, b, cols), cols, i, x) == Dot(a, inner, i, y)
  {
    hide Entry, At, MatrixOf, Holds, Dot, Product, Sum;
    var f, m := ProductEntry(a, inner, b, cols), Times(a, rows, inner, b, cols);
    MatrixEntries(rows, cols, f);
    DotOfEntries(m, rows, cols, f, i, x);
    RowOfProduct(a, inner, b, cols, i, x);
    ProductIsTwoSteps(a, inner, b, cols, i, x, y);
  }

  lemma RowOfProduct(a: seq<real>, inner: nat, b: seq<real>, cols: nat, i: nat, x: seq<real>)
    ensures Sum(RowTerms(ProductEntry(a, inner, b, cols), i, x), cols) == Sum(ProductDot(a, inner, b, cols, i, x), cols)
  {
    hide At, Product, Sum;
    SumSame(RowTerms(ProductEntry(a, inner, b, cols), i, x), ProductDot(a, inner, b, cols, i, x), cols);
  }

  lemma ScatterDot(r: Raw, pin: nat, x: seq<real>, d: nat)
    requires d < r.dim
    ensures Scattered(r, pin, x)[d] == Dot(Scatter(r, pin), r.inDim, d, x)
  {
    MatrixEntries(r.dim, r.inDim, ScatterEntry(r, pin));
    hide Entry, At, MatrixOf, Holds, Dot;
    DotOfEntries(Scatter(r, pin), r.dim, r.inDim, ScatterEntry(r, pin), d, x);
    SumSame(ScatterTerms(r, pin, x, d), RowTerms(ScatterEntry(r, pin), d, x), r.inDim);
  }

  /** One product with qvgIn[p] is the q, v and g projection of the scattered input. */
  lemma QvgIsProjection(r: Raw, p: nat, x: seq<real>, i: nat)
    requires Sized(r) && i < r.dim
    ensures var m, s := FusedAt(r, p).qvgIn, Scattered(r, Block(NumIn(r), p), x);
      && Dot(m, r.inDim, i, x) == Dot(r.q, r.dim, i, s)
      && Dot(m, r.inDim, r.dim + i, x) == Dot(r.v, r.dim, i, s)
      && Dot(m, r.inDim, 2 * r.dim + i, x) == Dot(r.g, r.dim, i, s)
  {
    var pin, d, n := Block(NumIn(r), p), r.dim, r.inDim;
    var b, s := Scatter(r, pin), Scattered(r, pin, x);
    forall k: nat | k < d ensures s[k] == Dot(b, n, k, x) { ScatterDot(r, pin, x, k); }
    StackedDot(Times(r.q, d, d, b, n), Times(r.v, d, d, b, n), Times(r.g, d, d, b, n), d, n, i, x);
    hide Scatter, Scattered, Times, Dot;
    TimesDot(r.q, d, d, b, n, i, x, s);
    TimesDot(r.v, d, d, b, n, i, x, s);
    TimesDot(r.g, d, d, b, n, i, x, s);
  }

  /** One product with goW[p] is the o projection followed by the gather of position p. */
  lemma GoIsGather(r: Raw, p: nat, z: seq<real>, i: nat)
    requires Sized(r) && i < r.dim
    ensures Dot(FusedAt(r, p).goW, r.dim, i, z) == Gathered(r, Block(NumOut(r), p), Projected(r.o, r.dim, z), i)
  {
    var pout, d := Block(NumOut(r), p), r.dim;
    var a, y := Gather(r, pout), Projected(r.o, d, z);
    hide Gather;
    TimesDot(a, d, d, r.o, d, i, z, y);
    GatherDot(r, pout, y, i);
  }

  lemma GatherDot(r: Raw, pout: nat, y: seq<real>, i: nat)
    requires i < r.dim
    ensures Dot(Gather(r, pout), r.dim, i, y) == Gathered(r, pout, y, i)
  {
    MatrixEntries(r.dim, r.dim, GatherEntry(r, pout));
    hide Entry, At, MatrixOf, Holds, Dot;
    DotOfEntries(Gather(r, pout), r.dim, r.dim, GatherEntry(r, pout), i, y);
    SumSame(GatherTerms(r, pout, y, i), RowTerms(GatherEntry(r, pout), i, y), r.dim);
  }

  /** And goW_T[p] is its transpose. */
  lemma GoTransposed(r: Raw, p: nat, i: int, j: int)
    requires r.dim >= 1 && 0 <= i < r.dim && 0 <= j < r.dim
    ensures Entry(FusedAt(r, p).goWT, r.dim, i, j) == Entry(FusedAt(r, p).goW, r.dim, j, i)
  {
    MatrixEntries(r.dim, r.dim, TransposedEntry(FusedAt(r, p).goW, r.dim));
  }

  // ---- the loops ----

  /** Row-major order: entry (i, j) is number i * cols + j. */
  lemma AtIndex(rows: nat, cols: nat, f: (int, int) -> real, i: nat, j: nat, at: nat)
    requires i < rows && j < cols && at == i * cols + j
    ensures at < |MatrixOf(rows, cols, f)| && MatrixOf(rows, cols, f)[at] == f(i, j)
  {
    InMatrix(rows, cols, i, j);
  }

  /** Two nested loops over rows and columns. */
  method Fill(rows: nat, cols: nat, f: (int, int) -> real) returns (m: seq<real>)
    ensures m == MatrixOf(rows, cols, f)
  {
    hide MatrixOf;
    ghost var t := MatrixOf(rows, cols, f);
    assert |t| == rows * cols by { MatrixEntries(rows, cols, f); }
    var a := new real[rows * cols];
    ghost var at := 0;
    for i := 0 to rows
      invariant at == i * cols <= a.Length && a[..at] == t[..at]
    {
      TimesMonotone(cols, i + 1, rows);
      Distribute(i, 1, cols);
      for j := 0 to cols
        invariant at == i * cols + j <= a.Length && a[..at] == t[..at]
      {
        AtIndex(rows, cols, f, i, j, at);
        a[i * cols + j] := f(i, j);
        assert a[..at + 1] == a[..at] + [f(i, j)] && t[..at + 1] == t[..at] + [f(i, j)];
        at := at + 1;
      }
    }
    m := a[..];
  }

  /** One more entry of a product, in row-major order. */
  lemma NextEntry(a: seq<real>, rows: nat, inner: nat, b: seq<real>, cols: nat, i: nat, j: nat, at: nat, t: seq<real>)
    requires i < rows && j < cols && at == i * cols + j && t == Times(a, rows, inner, b, cols)
    ensures at < |t| && t[at] == Product(a, inner, b, cols, i, j)
  {
    InMatrix(rows, cols, i, j);
  }

  /** mm: rows of a times columns of b. */
  method Mm(a: seq<real>, rows: nat, inner: nat, b: seq<real>, cols: nat) returns (m: seq<real>)
    requires |a| == rows * inner && |b| == inner * cols
    ensures m == Times(a, rows, inner, b, cols)
  {
    hide Times, Product;
    ghost var t := Times(a, rows, inner, b, cols);
    TimesSize(a, rows, inner, b, cols);
    m := [];
    ghost var at := 0;
    for i := 0 to rows
      invariant at == i * cols <= |t| && m == t[..at]
    {
      TimesMonotone(cols, i + 1, rows);
      Distribute(i, 1, cols);
      for j := 0 to cols
        invariant at == i * cols + j <= |t| && m == t[..at]
      {
        NextEntry(a, rows, inner, b, cols, i, j, at, t);
        var acc := RowTimesColumn(a, rows, inner, b, cols, i, j);
        m, at := m + [acc], at + 1;
      }
    }
  }

  lemma TimesSize(a: seq<real>, rows: nat, inner: nat, b: seq<real>, cols: nat)
    ensures |Times(a, rows, inner, b, cols)| == rows * cols
  {
  }

  method RowTimesColumn(a: seq<real>, rows: nat, inner: nat, b: seq<real>, cols: nat, i: nat, j: nat)
      returns (acc: real)
    requires |a| == rows * inner && |b| == inner * cols && i < rows && j < cols
    ensures acc == Product(a, inner, b, cols, i, j)
  {
    acc := 0.0;
    for k := 0 to inner
      invariant acc == Sum(Terms(a, inner, b, cols, i, j), k)
    {
      InMatrix(rows, inner, i, k);
      InMatrix(inner, cols, k, j);
      acc := acc + a[i * inner + k] * b[k * cols + j];
    }
  }

  /** load_layer: every position fused, or an error when the shapes are not multiples of the layer's
      width.  Reads are flat: an index past a row is in the next one, and past the matrix it gives 0. */
  method LoadLayer(r: Raw) returns (l: Loaded)
    requires Sized(r)
    ensures l.Failure? <==> r.winCols % r.dim != 0 || r.woutRows % r.dim != 0
    ensures l.Success? ==> l.numPos == NumPos(r) == |l.positions| && forall p :: 0 <= p < l.numPos ==>
      l.positions[p] == FusedAt(r, p)
    ensures l.Success? ==> l.numPos * r.dim == if r.winCols >= r.woutRows then r.winCols else r.woutRows
  {
    if r.winCols % r.dim != 0 || r.woutRows % r.dim != 0 { return Failure; }
    var d, n := r.dim, r.inDim;
    var positions := [];
    for p := 0 to NumPos(r)
      invariant |positions| == p && forall k :: 0 <= k < p ==> positions[k] == FusedAt(r, k)
    {
      var pin, pout := Block(NumIn(r), p), Block(NumOut(r), p);
      var scatter := Fill(d, n, ScatterEntry(r, pin));
      var gather := Fill(d, d, GatherEntry(r, pout));
      var q := Mm(r.q, d, d, scatter, n);
      var v := Mm(r.v, d, d, scatter, n);
      var g := Mm(r.g, d, d, scatter, n);
      var goW := Mm(gather, d, d, r.o, d);
      var goWT := Fill(d, d, TransposedEntry(goW, d));
      positions := positions + [Fused(q + v + g, goW, goWT)];
    }
    l := Success(NumPos(r), positions);
    BlocksTile(r);
  }
}
