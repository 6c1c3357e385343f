/** Sums and row-major matrices over the reals. */
module Matrices {
  import opened Arith

  /** f(0) + ... + f(n - 1). */
  function Sum(f: int -> real, n: nat): real {
    if n == 0 then 0.0 else Sum(f, n - 1) + f(n - 1)
  }

  lemma {:induction false} SumSame(f: int -> real, g: int -> real, n: nat)
    requires forall i :: 0 <= i < n ==> f(i) == g(i)
    ensures Sum(f, n) == Sum(g, n)
  {
    if n == 0 {
    } else {
      SumSame(f, g, n - 1);
    }
  }

  lemma {:induction false} SumZero(n: nat)
    ensures Sum((i: int) => 0.0, n) == 0.0
  {
    if n == 0 {
    } else {
      SumZero(n - 1);
    }
  }

  lemma {:induction false} SumAdd(f: int -> real, g: int -> real, n: nat)
    ensures Sum((i: int) => f(i) + g(i), n) == Sum(f, n) + Sum(g, n)
  {
    if n == 0 {
    } else {
      SumAdd(f, g, n - 1);
    }
  }

  lemma {:induction false} SumScale(a: real, f: int -> real, n: nat)
    ensures Sum((i: int) => a * f(i), n) == a * Sum(f, n)
  {
    if n == 0 {
    } else {
      SumScale(a, f, n - 1);
    }
  }

  /** Row sums first or column sums first. */
  function Row(f: (int, int) -> real, n: nat): int -> real {
    (i: int) => Sum((j: int) => f(i, j), n)
  }

  function Column(f: (int, int) -> real, m: nat): int -> real {
    (j: int) => Sum((i: int) => f(i, j), m)
  }

  lemma {:induction false} SumSwap(f: (int, int) -> real, m: nat, n: nat)
    ensures Sum(Row(f, n), m) == Sum(Column(f, m), n)
  {
    if m == 0 {
      SumSame(Column(f, 0), (j: int) => 0.0, n);
      SumZero(n);
    } else {
      SumSwap(f, m - 1, n);
      var last := (j: int) => f(m - 1, j);
      SumAdd(Column(f, m - 1), last, n);
      SumSame(Column(f, m), (j: int) => Column(f, m - 1)(j) + last(j), n);
    }
  }

  // ---- flat matrices ----

  /** Entry (i, j) of a row-major matrix with `cols` columns. */
  function Entry(s: seq<real>, cols: nat, i: int, j: int): real {
    if 0 <= i * cols + j < |s| then s[i * cols + j] else 0.0
  }

  /** Row i of the matrix times x. */
  function Dot(s: seq<real>, cols: nat, i: int, x: seq<real>): real {
    Sum(Products(s, cols, i, x), cols)
  }

  function Products(s: seq<real>, cols: nat, i: int, x: seq<real>): int -> real {
    (j: int) => Entry(s, cols, i, j) * At(x, j)
  }

  function At(x: seq<real>, j: int): real {
    if 0 <= j < |x| then x[j] else 0.0
  }

  lemma InMatrix(rows: nat, cols: nat, i: int, j: int)
    requires 0 <= i < rows && 0 <= j < cols
    ensures 0 <= i * cols + j < rows * cols && (i * cols + j) / cols == i && (i * cols + j) % cols == j
  {
    TimesMonotone(cols, 0, i);
    TimesMonotone(cols, i + 1, rows);
    Distribute(i, 1, cols);
    Unique(i * cols + j, i, j, cols);
  }

  /** Entries of the product of two matrices. */
  function Product(a: seq<real>, inner: nat, b: seq<real>, cols: nat, i: int, j: int): real {
    Sum(Terms(a, inner, b, cols, i, j), inner)
  }

  function Terms(a: seq<real>, inner: nat, b: seq<real>, cols: nat, i: int, j: int): int -> real {
    (k: int) => Entry(a, inner, i, k) * Entry(b, cols, k, j)
  }

  /** c is the matrix of all entries f(i, j). */
  ghost predicate Holds(c: seq<real>, rows: nat, cols: nat, f: (int, int) -> real) {
    |c| == rows * cols && forall i, j :: 0 <= i < rows && 0 <= j < cols ==> Entry(c, cols, i, j) == f(i, j)
  }

  /** The products behind (a b) x, one for each pair of inner indices. */
  function Triple(a: seq<real>, inner: nat, b: seq<real>, cols: nat, i: int, x: seq<real>): (int, int) -> real {
    (j: int, k: int) => Entry(a, inner, i, k) * Entry(b, cols, k, j) * At(x, j)
  }

  lemma TripleRow(a: seq<real>, inner: nat, b: seq<real>, cols: nat, i: int, x: seq<real>, j: int)
    ensures Row(Triple(a, inner, b, cols, i, x), inner)(j) == Product(a, inner, b, cols, i, j) * At(x, j)
  {
    hide Entry, At;
    var t, xj := Terms(a, inner, b, cols, i, j), At(x, j);
    SumScale(xj, t, inner);
    forall k | 0 <= k < inner ensures Triple(a, inner, b, cols, i, x)(j, k) == xj * t(k) { Commute(t(k), xj); }
    Commute(Sum(t, inner), xj);
    SumSame((k: int) => Triple(a, inner, b, cols, i, x)(j, k), (k: int) => xj * t(k), inner);
  }

  lemma TripleColumn(a: seq<real>, inner: nat, b: seq<real>, cols: nat, i: int, x: seq<real>, k: int)
    ensures Column(Triple(a, inner, b, cols, i, x), cols)(k) == Entry(a, inner, i, k) * Dot(b, cols, k, x)
  {
    hide Entry, At;
    var t, aik := Products(b, cols, k, x), Entry(a, inner, i, k);
    SumScale(aik, t, cols);
    forall j | 0 <= j < cols
      ensures Triple(a, inner, b, cols, i, x)(j, k) == aik * t(j)
    {
      Reassociate(aik, Entry(b, cols, k, j), At(x, j));
    }
    SumSame((j: int) => Triple(a, inner, b, cols, i, x)(j, k), (j: int) => aik * t(j), cols);
  }

  lemma Reassociate(a: real, b: real, c: real)
    ensures a * b * c == a * (b * c)
  {
  }

  lemma Commute(a: real, b: real)
    ensures a * b == b * a
  {
  }

  /** Row i of the product applied to x. */
  function ProductDot(a: seq<real>, inner: nat, b: seq<real>, cols: nat, i: int, x: seq<real>): int -> real {
    (j: int) => Product(a, inner, b, cols, i, j) * At(x, j)
  }

  /** A product applied to a vector is its factors applied one after the other: the fused matrix
      does in one step what two projections did. */
  lemma ProductIsTwoSteps(a: seq<real>, inner: nat, b: seq<real>, cols: nat, i: int, x: seq<real>, y: seq<real>)
    requires |y| == inner && forall k :: 0 <= k < inner ==> y[k] == Dot(b, cols, k, x)
    ensures Sum(ProductDot(a, inner, b, cols, i, x), cols) == Dot(a, inner, i, y)
  {
    hide Sum, Entry, Product, Row, Column, Triple;
    var f := Triple(a, inner, b, cols, i, x);
    forall j | 0 <= j < cols
      ensures ProductDot(a, inner, b, cols, i, x)(j) == Row(f, inner)(j)
    {
      TripleRow(a, inner, b, cols, i, x, j);
    }
    SumSame(ProductDot(a, inner, b, cols, i, x), Row(f, inner), cols);
    SumSwap(f, cols, inner);
    forall k | 0 <= k < inner
      ensures Column(f, cols)(k) == Products(a, inner, i, y)(k)
    {
      TripleColumn(a, inner, b, cols, i, x, k);
    }
    SumSame(Column(f, cols), Products(a, inner, i, y), inner);
  }
}
