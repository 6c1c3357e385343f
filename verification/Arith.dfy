/** Products, quotients and remainders. */
module Arith {
  lemma TimesMonotone(s: int, a: int, b: int)
    requires s >= 0 && a <= b
    ensures s * a <= s * b && a * s <= b * s
  {
  }

  lemma TimesLess(s: int, a: int, b: int)
    requires s >= 1 && a * s < b * s
    ensures a < b
  {
    if b <= a { TimesMonotone(s, b, a); }
  }

  lemma DivMonotone(p: int, q: int, s: int)
    requires 0 <= p <= q && s >= 1
    ensures p / s <= q / s
  {
    Split(p, s);
    Split(q, s);
    TimesLess(s, p / s, q / s + 1);
  }

  lemma Split(n: int, s: int)
    requires s >= 1
    ensures n == (n / s) * s + n % s && 0 <= n % s < s
    ensures (n / s) * s <= n < (n / s + 1) * s
  {
    assert n == s * (n / s) + n % s;
  }

  lemma Unique(n: int, q: int, r: int, s: int)
    requires s >= 1 && n == q * s + r && 0 <= r < s
    ensures n / s == q && n % s == r
  {
    Split(n, s);
    TimesLess(s, n / s, q + 1);
    TimesLess(s, q, n / s + 1);
  }

  lemma Shift(n: int, m: int, s: int)
    requires s >= 1
    ensures (n + m * s) / s == n / s + m && (n + m * s) % s == n % s
  {
    Split(n, s);
    Distribute(n / s, m, s);
    Unique(n + m * s, n / s + m, n % s, s);
  }

  lemma Distribute(a: int, b: int, s: int)
    ensures (a + b) * s == a * s + b * s && (a - b) * s == a * s - b * s
  {
  }

  /** A remainder by a multiple keeps the remainder. */
  lemma ModMod(n: int, s: int, m: int)
    requires s >= 1 && m >= 1 && m % s == 0
    ensures n % m % s == n % s
  {
    Split(n, m);
    Split(m, s);
    assert (n / m) * ((m / s) * s) == ((n / m) * (m / s)) * s;
    Shift(n % m, (n / m) * (m / s), s);
  }

  /** A byte that wraps. */
  lemma NextByte(x: nat)
    ensures (x % 256 + 1) % 256 == (x + 1) % 256
  {
  }

  /** Numbers less than s apart have different remainders. */
  lemma Apart(i: int, j: int, s: int)
    requires s >= 1 && i < j < i + s
    ensures i % s != j % s
  {
    Split(i, s);
    Split(j, s);
    if i % s == j % s {
      var d := j / s - i / s;
      Distribute(j / s, i / s, s);
      TimesLess(s, 0, d);
      TimesLess(s, d, 1);
    }
  }

  /** The wrapping difference of two counters less than m apart is their distance. */
  lemma Distance(a: int, b: int, m: int)
    requires m >= 1 && b <= a < b + m
    ensures (a % m - b % m) % m == a - b
  {
    Split(a, m);
    Split(b, m);
    Distribute(a / m, b / m, m);
    Unique(a % m - b % m, b / m - a / m, a - b, m) by { Distribute(b / m, a / m, m); }
  }

  // ---- counting ----

  /** A set of indices below k, and the same with or without k. */
  lemma OneMoreIndex(s: set<nat>, t: set<nat>, k: nat, hit: bool)
    requires forall i :: i in s ==> i < k
    requires forall i: nat :: i in t <==> i in s || (i == k && hit)
    ensures |t| == |s| + if hit then 1 else 0
  {
    assert t == if hit then s + {k} else s;
  }

  // ---- powers of two ----

  function Pow2(k: nat): nat {
    if k == 0 then 1 else 2 * Pow2(k - 1)
  }

  /** Bitwise and of two unsigned words. */
  function And(a: nat, b: nat): nat {
    if a == 0 then 0 else 2 * And(a / 2, b / 2) + (a % 2) * (b % 2)
  }

  lemma {:induction false} AndSelf(n: nat)
    ensures And(n, n) == n
  {
    if n == 0 {
    } else {
      AndSelf(n / 2);
    }
  }

  ghost predicate PowerOfTwo(n: nat) {
    exists k: nat :: n == Pow2(k)
  }

  /** The test n & (n - 1) == 0 finds the powers of two. */
  lemma {:induction false} PowerTest(n: nat)
    requires n >= 1
    ensures And(n, n - 1) == 0 <==> PowerOfTwo(n)
  {
    if n == 1 {
      assert n == Pow2(0);
    } else if n % 2 == 0 {
      PowerTest(n / 2);
      PowerHalved(n);
      assert (n - 1) / 2 == n / 2 - 1;
    } else {
      AndSelf(n / 2);
      assert (n - 1) / 2 == n / 2;
      forall k: nat ensures n != Pow2(k) { OddPower(k); }
    }
  }

  /** And x & (n - 1) is the remainder modulo a power of two n. */
  lemma {:induction false} MaskIsRemainder(x: nat, k: nat)
    ensures Pow2(k) >= 1 && And(x, Pow2(k) - 1) == x % Pow2(k)
  {
    OddPower(k);
    if k == 0 {
      AndNothing(x);
      Unique(x, x, 0, 1);
    } else {
      MaskIsRemainder(x / 2, k - 1);
      OddPower(k - 1);
      var t, h := Pow2(k - 1), x / 2;
      assert (2 * t - 1) / 2 == t - 1 && (2 * t - 1) % 2 == 1;
      AndStep(x, 2 * t - 1);
      Split(h, t);
      Doubled(h / t, t);
      Unique(x, h / t, 2 * (h % t) + x % 2, 2 * t);
    }
  }

  lemma {:induction false} AndNothing(x: nat)
    ensures And(x, 0) == 0
  {
    if x == 0 {
    } else {
      AndNothing(x / 2);
    }
  }

  lemma AndStep(a: nat, b: nat)
    ensures And(a, b) == 2 * And(a / 2, b / 2) + (a % 2) * (b % 2)
  {
  }

  lemma OddPower(k: nat)
    ensures Pow2(k) % 2 == 1 <==> k == 0
    ensures Pow2(k) >= 1
  {
  }

  lemma PowerHalved(n: nat)
    requires n >= 2 && n % 2 == 0
    ensures PowerOfTwo(n) <==> PowerOfTwo(n / 2)
  {
    if PowerOfTwo(n) {
      var k: nat :| n == Pow2(k);
      assert n / 2 == Pow2(k - 1);
    }
    if PowerOfTwo(n / 2) {
      var k: nat :| n / 2 == Pow2(k);
      assert n == Pow2(k + 1);
    }
  }

  /** A power of two divides every larger one, such as the modulus of a machine word. */
  lemma {:induction false} PowersDivide(a: nat, b: nat)
    requires PowerOfTwo(a) && PowerOfTwo(b) && a <= b
    ensures a >= 1 && b % a == 0
  {
    var j: nat :| a == Pow2(j);
    OddPower(j);
    if j == 0 {
      Unique(b, b, 0, 1);
    } else {
      var k: nat :| b == Pow2(k);
      OddPower(k);
      assert a / 2 == Pow2(j - 1) && b / 2 == Pow2(k - 1);
      PowersDivide(a / 2, b / 2);
      var q := b / 2 / (a / 2);
      Split(b / 2, a / 2);
      Doubled(q, a / 2);
      Unique(b, q, 0, a);
    }
  }

  lemma Doubled(q: int, h: int)
    ensures q * (2 * h) == 2 * (q * h)
  {
  }
}
