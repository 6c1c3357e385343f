/** The gate of the recurrent step, approximated by a clamped Pade quotient, over the reals; and how
    far an approximate gate can carry a hidden state off. */
module Gate {
  function Clamp(x: real): real {
    if x < -6.0 then -6.0 else if x > 6.0 then 6.0 else x
  }

  function Den(t: real): (d: real)
    ensures d >= 27.0
  {
    Square(t);
    27.0 + 9.0 * (t * t)
  }

  lemma Square(t: real)
    ensures t * t >= 0.0
  {
  }

  /** tanh(t), roughly: t (27 + t^2) / (27 + 9 t^2). */
  function Pade(t: real): real {
    t * (27.0 + t * t) / Den(t)
  }

  function PadeGate(x: real): real {
    0.5 + 0.5 * Pade(Clamp(x) * 0.5)
  }

  /** Cleared of denominators the difference of two quotients has the sign of b - a. */
  function Factor(a: real, b: real): real {
    729.0 - 216.0 * (a * b) + 27.0 * (a * a + b * b) + 9.0 * (a * b * (a * b))
  }

  lemma FactorBounds(a: real, b: real)
    ensures 0.0 <= Factor(a, b) <= Den(a) * Den(b)
  {
    var p, s := a * b, a * a + b * b;
    Square(a - b);
    assert (a - b) * (a - b) == s - 2.0 * p;
    Square(9.0 - p);
    assert (9.0 - p) * (9.0 - p) == 81.0 - 18.0 * p + p * p;
    assert Factor(a, b) == 27.0 * (s - 2.0 * p) + 9.0 * (81.0 - 18.0 * p + p * p);
    Square(a + b);
    assert (a + b) * (a + b) == s + 2.0 * p;
    Square(p);
    DenProduct(a, b);
    Square(a);
    Square(b);
  }

  lemma DenProduct(a: real, b: real)
    ensures Den(a) * Den(b) == 729.0 + 243.0 * (a * a + b * b) + 81.0 * (a * b * (a * b))
  {
    var u, v := a * a, b * b;
    assert (27.0 + 9.0 * u) * (27.0 + 9.0 * v) == 729.0 + 243.0 * (u + v) + 81.0 * (u * v);
    assert u * v == a * b * (a * b);
  }

  lemma Difference(a: real, b: real)
    ensures (Pade(b) - Pade(a)) * (Den(a) * Den(b)) == (b - a) * Factor(a, b)
  {
    hide *;
    PadeTimes(a);
    PadeTimes(b);
    OverDenominators(Pade(b), Pade(a), Den(a), Den(b), Num(b), Num(a), (b - a) * Factor(a, b)) by { Expand(a, b); }
  }

  function Num(t: real): real {
    t * (27.0 + t * t)
  }

  lemma PadeTimes(t: real)
    ensures Pade(t) * Den(t) == Num(t)
  {
    Quotient(Num(t), Den(t));
  }

  lemma Quotient(n: real, d: real)
    requires d > 0.0
    ensures n / d * d == n
  {
  }

  lemma OverDenominators(p: real, q: real, da: real, db: real, np: real, nq: real, r: real)
    requires p * db == np && q * da == nq && np * da - nq * db == r
    ensures (p - q) * (da * db) == r
  {
    assert (p - q) * (da * db) == p * db * da - q * da * db;
  }

  lemma Expand(a: real, b: real)
    ensures Num(b) * Den(a) - Num(a) * Den(b) == (b - a) * Factor(a, b)
  {
    hide *;
    var ba, ab, bb, aa, b5, a5 := NumDen(a, b);
    var dp, ds, dq := FactorTimes(a, b);
    Powers(a, b, ba, ab, bb, aa, b5, a5, dp, ds, dq);
    Collected(Num(b) * Den(a), Num(a) * Den(b), a, b, ba, ab, bb, aa, b5, a5, dp, ds, dq, (b - a) * Factor(a, b));
  }

  /** Both products, spelled out. */
  lemma NumDen(a: real, b: real) returns (ba: real, ab: real, bb: real, aa: real, b5: real, a5: real)
    ensures ba == b * (a * a) && ab == a * (b * b) && bb == b * (b * b) && aa == a * (a * a)
    ensures b5 == b * (b * b) * (a * a) && a5 == a * (a * a) * (b * b)
    ensures Num(b) * Den(a) == 729.0 * b + 243.0 * ba + 27.0 * bb + 9.0 * b5
    ensures Num(a) * Den(b) == 729.0 * a + 243.0 * ab + 27.0 * aa + 9.0 * a5
  {
    OneProduct(b, b * b, a * a);
    OneProduct(a, a * a, b * b);
    ba, ab, bb, aa := b * (a * a), a * (b * b), b * (b * b), a * (a * a);
    b5, a5 := b * (b * b) * (a * a), a * (a * a) * (b * b);
  }

  lemma FactorTimes(a: real, b: real) returns (dp: real, ds: real, dq: real)
    ensures dp == (b - a) * (a * b) && ds == (b - a) * (a * a + b * b) && dq == (b - a) * (a * b * (a * b))
    ensures (b - a) * Factor(a, b) == 729.0 * (b - a) - 216.0 * dp + 27.0 * ds + 9.0 * dq
  {
    var d, p, s, q := b - a, a * b, a * a + b * b, a * b * (a * b);
    Spelled(d, p, s, q);
    dp, ds, dq := d * p, d * s, d * q;
  }

  /** The differences of the powers. */
  lemma Powers(a: real, b: real, ba: real, ab: real, bb: real, aa: real, b5: real, a5: real, dp: real, ds: real,
      dq: real)
    requires ba == b * (a * a) && ab == a * (b * b) && bb == b * (b * b) && aa == a * (a * a)
    requires b5 == b * (b * b) * (a * a) && a5 == a * (a * a) * (b * b)
    requires dp == (b - a) * (a * b) && ds == (b - a) * (a * a + b * b) && dq == (b - a) * (a * b * (a * b))
    ensures ba - ab == -dp && bb - aa == ds + dp && b5 - a5 == dq
  {
    Cross(a, b);
    Cubes(a, b);
    Fifths(a, b);
  }

  lemma Collected(u: real, v: real, a: real, b: real, ba: real, ab: real, bb: real, aa: real, b5: real, a5: real,
      dp: real, ds: real, dq: real, r: real)
    requires u == 729.0 * b + 243.0 * ba + 27.0 * bb + 9.0 * b5 && v == 729.0 * a + 243.0 * ab + 27.0 * aa + 9.0 * a5
    requires ba - ab == -dp && bb - aa == ds + dp && b5 - a5 == dq
    requires r == 729.0 * (b - a) - 216.0 * dp + 27.0 * ds + 9.0 * dq
    ensures u - v == r
  {
  }

  lemma OneProduct(t: real, u: real, v: real)
    ensures t * (27.0 + u) * (27.0 + 9.0 * v) == 729.0 * t + 243.0 * (t * v) + 27.0 * (t * u) + 9.0 * (t * u * v)
  {
    var w := t * (27.0 + u);
    assert w == 27.0 * t + t * u;
    assert w * (27.0 + 9.0 * v) == 27.0 * w + 9.0 * (w * v);
    assert w * v == 27.0 * (t * v) + t * u * v;
  }

  lemma Cross(a: real, b: real)
    ensures b * (a * a) - a * (b * b) == -((b - a) * (a * b))
  {
  }

  lemma Cubes(a: real, b: real)
    ensures b * (b * b) - a * (a * a) == (b - a) * (a * a + b * b) + (b - a) * (a * b)
  {
  }

  lemma Fifths(a: real, b: real)
    ensures b * (b * b) * (a * a) - a * (a * a) * (b * b) == (b - a) * (a * b * (a * b))
  {
    var p := a * b;
    assert b * (b * b) * (a * a) == b * (p * p) && a * (a * a) * (b * b) == a * (p * p);
  }

  lemma Spelled(d: real, p: real, s: real, q: real)
    ensures d * (729.0 - 216.0 * p + 27.0 * s + 9.0 * q)
      == 729.0 * d - 216.0 * (d * p) + 27.0 * (d * s) + 9.0 * (d * q)
  {
  }

  lemma Between(x: real, den: real, d: real, f: real)
    requires den > 0.0 && d >= 0.0 && 0.0 <= f <= den && x * den == d * f
    ensures 0.0 <= x <= d
  {
    Scale(f, den, d);
    Cancel(x, d, den);
    Scale(0.0, f, d);
    Cancel(0.0, x, den);
  }

  lemma Scale(a: real, b: real, c: real)
    requires a <= b && c >= 0.0
    ensures a * c <= b * c
  {
  }

  lemma Cancel(a: real, b: real, c: real)
    requires c > 0.0 && a * c <= b * c
    ensures a <= b
  {
  }

  /** The quotient rises, and no faster than its argument. */
  lemma PadeSlope(a: real, b: real)
    requires a <= b
    ensures 0.0 <= Pade(b) - Pade(a) <= b - a
  {
    hide *;
    Difference(a, b);
    FactorBounds(a, b);
    assert Den(a) * Den(b) > 0.0;
    Between(Pade(b) - Pade(a), Den(a) * Den(b), b - a, Factor(a, b));
  }

  lemma PadeOdd(t: real)
    ensures Pade(-t) == -Pade(t)
  {
    assert (-t) * (-t) == t * t;
    var d, n := Den(t), t * (27.0 + t * t);
    assert (-t) * (27.0 + t * t) == -n;
    assert (-n) / d == -(n / d);
  }

  lemma PadeEnds()
    ensures Pade(3.0) == 1.0 && Pade(-3.0) == -1.0
  {
    PadeOdd(3.0);
  }

  /** The gate lies between 0 and 1, and reaches both ends exactly where the clamp sets in. */
  lemma GateRange(x: real)
    ensures 0.0 <= PadeGate(x) <= 1.0
    ensures x <= -6.0 ==> PadeGate(x) == 0.0
    ensures x >= 6.0 ==> PadeGate(x) == 1.0
  {
    var t := Clamp(x) * 0.5;
    PadeEnds();
    PadeSlope(-3.0, t);
    PadeSlope(t, 3.0);
  }

  /** It rises with slope at most a quarter. */
  lemma GateSlope(x: real, y: real)
    requires x <= y
    ensures 0.0 <= PadeGate(y) - PadeGate(x) <= 0.25 * (y - x)
  {
    PadeSlope(Clamp(x) * 0.5, Clamp(y) * 0.5);
  }

  /** It is symmetric about one half, as the logistic function is. */
  lemma GateSymmetric(x: real)
    ensures PadeGate(-x) == 1.0 - PadeGate(x)
  {
    PadeOdd(Clamp(x) * 0.5);
    assert Clamp(-x) == -Clamp(x);
  }

  // ---- the recurrent step ----

  function Abs(x: real): real {
    if x < 0.0 then -x else x
  }

  /** One channel of lru_step: the new hidden value. */
  function Next(gate: real, v: real, h: real): real {
    gate * h + v
  }

  /** Hidden value after the first n steps. */
  function Hidden(gates: int -> real, vs: int -> real, start: real, n: nat): real {
    if n == 0 then start else Next(gates(n - 1), vs(n - 1), Hidden(gates, vs, start, n - 1))
  }

  /** The product of the gates from i up to n. */
  function Passed(gates: int -> real, i: nat, n: nat): real
    decreases n
  {
    if n <= i then 1.0 else gates(n - 1) * Passed(gates, i, n - 1)
  }

  /** What is left at n of the first k inputs. */
  function Remembered(gates: int -> real, vs: int -> real, k: nat, n: nat): real {
    if k == 0 then 0.0 else Remembered(gates, vs, k - 1, n) + Passed(gates, k, n) * vs(k - 1)
  }

  /** The recurrence solved: the start fades with all gates, each input with the gates after it. */
  lemma {:induction false} HiddenSolved(gates: int -> real, vs: int -> real, start: real, n: nat)
    ensures Hidden(gates, vs, start, n) == Passed(gates, 0, n) * start + Remembered(gates, vs, n, n)
  {
    if n == 0 {
    } else {
      HiddenSolved(gates, vs, start, n - 1);
      RememberedNext(gates, vs, n - 1, n);
      Spread(gates(n - 1), Passed(gates, 0, n - 1), start, Remembered(gates, vs, n - 1, n - 1));
    }
  }

  lemma {:induction false} RememberedNext(gates: int -> real, vs: int -> real, k: nat, n: nat)
    requires k < n
    ensures Remembered(gates, vs, k, n) == gates(n - 1) * Remembered(gates, vs, k, n - 1)
  {
    if k == 0 {
    } else {
      RememberedNext(gates, vs, k - 1, n);
      Spread(gates(n - 1), Passed(gates, k, n - 1), vs(k - 1), Remembered(gates, vs, k - 1, n - 1));
    }
  }

  lemma Spread(g: real, p: real, x: real, r: real)
    ensures g * (p * x + r) == g * p * x + g * r
  {
  }

  lemma Kept(p: real, g: real, d: real)
    requires 0.0 <= g <= 1.0 && p == g * d
    ensures Abs(p) <= Abs(d)
  {
    AbsProduct(g, d);
    Scale(g, 1.0, Abs(d));
  }

  lemma Error(q: real, o: real, k: real, e: real, eps: real, bound: real)
    requires Abs(o) <= eps && Abs(k) <= bound && q == o * k && e == eps * bound
    ensures Abs(q) <= e
  {
    AbsProduct(o, k);
    Scale(Abs(o), eps, Abs(k));
    Scale(Abs(k), bound, eps);
  }

  /** A gate in [0, 1] never widens a gap; an error of the gate adds at most its size times the state. */
  lemma GapStep(g: real, g': real, v: real, h: real, k: real, eps: real, bound: real)
    requires 0.0 <= g <= 1.0 && Abs(g - g') <= eps && Abs(k) <= bound
    ensures Abs(Next(g, v, h) - Next(g', v, k)) <= Abs(h - k) + eps * bound
  {
    hide *;
    var p, q, e := g * (h - k), (g - g') * k, eps * bound;
    Kept(p, g, h - k);
    Error(q, g - g', k, e, eps, bound);
    NextGap(g, g', v, h, k, p, q);
    Triangle(Next(g, v, h) - Next(g', v, k), p, q);
  }

  lemma NextGap(g: real, g': real, v: real, h: real, k: real, p: real, q: real)
    requires p == g * (h - k) && q == (g - g') * k
    ensures Next(g, v, h) - Next(g', v, k) == p + q
  {
    assert g * (h - k) == g * h - g * k && (g - g') * k == g * k - g' * k;
  }

  lemma Triangle(x: real, p: real, q: real)
    requires x == p + q
    ensures Abs(x) <= Abs(p) + Abs(q)
  {
  }

  lemma AbsProduct(x: real, y: real)
    ensures Abs(x * y) == Abs(x) * Abs(y)
  {
  }

  /** Fed the same gates, whatever they are in [0, 1], two hidden states never move apart. */
  lemma {:induction false} NeverApart(gates: int -> real, vs: int -> real, h: real, k: real, n: nat)
    requires forall i :: 0 <= i < n ==> 0.0 <= gates(i) <= 1.0
    ensures Abs(Hidden(gates, vs, h, n) - Hidden(gates, vs, k, n)) <= Abs(h - k)
  {
    if n == 0 {
    } else {
      NeverApart(gates, vs, h, k, n - 1);
      var a, b := Hidden(gates, vs, h, n - 1), Hidden(gates, vs, k, n - 1);
      GapStep(gates(n - 1), gates(n - 1), vs(n - 1), a, b, 0.0, Abs(b));
    }
  }

  /** n steps of size e. */
  function Steps(n: nat, e: real): real {
    n as real * e
  }

  lemma OneMore(n: nat, e: real)
    requires n > 0
    ensures Steps(n, e) == Steps(n - 1, e) + e
  {
    var m := (n - 1) as real;
    assert (m + 1.0) * e == m * e + e;
  }

  /** With gates off by at most eps on a state within `bound`, the drift is at most eps * bound a step. */
  lemma {:induction false} DriftBound(gates: int -> real, approx: int -> real, vs: int -> real, h: real, k: real,
      n: nat, eps: real, bound: real)
    requires forall i :: 0 <= i < n ==> 0.0 <= gates(i) <= 1.0 && Abs(gates(i) - approx(i)) <= eps
    requires forall i: nat :: i < n ==> Abs(Hidden(approx, vs, k, i)) <= bound
    ensures Abs(Hidden(gates, vs, h, n) - Hidden(approx, vs, k, n)) <= Abs(h - k) + Steps(n, eps * bound)
  {
    if n > 0 {
      DriftBound(gates, approx, vs, h, k, n - 1, eps, bound);
      var a, b := Hidden(gates, vs, h, n - 1), Hidden(approx, vs, k, n - 1);
      assert Hidden(gates, vs, h, n) == Next(gates(n - 1), vs(n - 1), a)
        && Hidden(approx, vs, k, n) == Next(approx(n - 1), vs(n - 1), b);
      hide Next, Steps, Abs, Hidden;
      GapStep(gates(n - 1), approx(n - 1), vs(n - 1), a, b, eps, bound);
      OneMore(n, eps * bound);
    } else {
      assert 0.0 * (eps * bound) == 0.0;
    }
  }

  function Gates(xs: int -> real): int -> real {
    (j: int) => PadeGate(xs(j))
  }

  lemma GateGap(x: real, y: real, delta: real)
    requires Abs(x - y) <= delta
    ensures 0.0 <= PadeGate(x) <= 1.0 && Abs(PadeGate(x) - PadeGate(y)) <= 0.25 * delta
  {
    GateRange(x);
    if x <= y { GateSlope(x, y); } else { GateSlope(y, x); }
  }

  /** So inputs of the gate that differ by delta, step for step, cost at most a quarter of delta. */
  lemma InputDrift(xs: int -> real, ys: int -> real, vs: int -> real, h: real, n: nat, delta: real, bound: real)
    requires forall i :: 0 <= i < n ==> Abs(xs(i) - ys(i)) <= delta
    requires forall i: nat :: i < n ==> Abs(Hidden(Gates(ys), vs, h, i)) <= bound
    ensures Abs(Hidden(Gates(xs), vs, h, n) - Hidden(Gates(ys), vs, h, n)) <= Steps(n, 0.25 * delta * bound)
  {
    hide PadeGate, Hidden, Clamp, Pade;
    var gx, gy, eps := Gates(xs), Gates(ys), 0.25 * delta;
    forall i | 0 <= i < n ensures 0.0 <= gx(i) <= 1.0 && Abs(gx(i) - gy(i)) <= eps { GateGap(xs(i), ys(i), delta); }
    hide Abs, Gates, Steps;
    DriftBound(gx, gy, vs, h, h, n, eps, bound);
    assert Abs(0.0) == 0.0 by { AbsZero(); }
    assert h - h == 0.0;
  }

  lemma AbsZero()
    ensures Abs(0.0) == 0.0
  {
  }

  // ---- lru_step_neon_core: four channels at a time, in place ----

  /** The readout of a channel. */
  function Gated(q: real, h: real): real {
    q * h
  }

  /** One channel, spelled out: the old value times the gate, plus the input; an open gate keeps all
      of the old value, a closed one nothing. */
  ghost predicate Stepped(g: real, v: real, q: real, before: real, after: real, out: real) {
    && after == PadeGate(g) * before + v && out == q * after
    && (g >= 6.0 ==> after == before + v)
    && (g <= -6.0 ==> after == v)
  }

  lemma StepMeaning(g: real, v: real, q: real, before: real)
    ensures var after := Next(PadeGate(g), v, before); Stepped(g, v, q, before, after, Gated(q, after))
  {
    GateRange(g);
    hide PadeGate;
  }

  method LruStep(g: array<real>, v: array<real>, q: array<real>, h: array<real>, y: array<real>)
    requires g.Length == v.Length == q.Length == h.Length == y.Length && h.Length % 4 == 0
    requires h != y && h !in {g, v, q} && y !in {g, v, q}
    modifies h, y
    ensures forall c :: 0 <= c < h.Length ==> h[c] == Next(PadeGate(g[c]), v[c], old(h[c])) && y[c] == Gated(q[c], h[c])
    ensures forall c :: 0 <= c < h.Length ==> Stepped(g[c], v[c], q[c], old(h[c]), h[c], y[c])
  {
    hide Next, PadeGate, Gated, Stepped;
    var c := 0;
    while c < h.Length
      invariant 0 <= c <= h.Length && c % 4 == 0
      invariant forall i :: 0 <= i < c ==> h[i] == Next(PadeGate(g[i]), v[i], old(h[i])) && y[i] == Gated(q[i], h[i])
      invariant forall i :: c <= i < h.Length ==> h[i] == old(h[i])
    {
      forall i | c <= i < c + 4 { h[i] := Next(PadeGate(g[i]), v[i], h[i]); }
      forall i | c <= i < c + 4 { y[i] := Gated(q[i], h[i]); }
      c := c + 4;
    }
    forall c | 0 <= c < h.Length ensures Stepped(g[c], v[c], q[c], old(h[c]), h[c], y[c]) {
      StepMeaning(g[c], v[c], q[c], old(h[c]));
    }
  }
}
