/** Sums over sets of indices in a commutative monoid. */
module Sums {
  import opened Geometry
  import opened Network

  /** The sum of f over the members of s below k, in ascending order. */
  function Pick(n: Net, s: set<nat>, f: nat -> Feat, k: nat): Feat {
    if k == 0 then n.zero
    else if k - 1 in s then n.add(Pick(n, s, f, k - 1), f(k - 1))
    else Pick(n, s, f, k - 1)
  }

  lemma {:induction false} PickEmpty(n: Net, f: nat -> Feat, k: nat)
    ensures Pick(n, {}, f, k) == n.zero
  {
    if k == 0 {
    } else {
      PickEmpty(n, f, k - 1);
    }
  }

  lemma {:induction false} PickCongruent(n: Net, s: set<nat>, t: set<nat>, f: nat -> Feat, g: nat -> Feat, k: nat)
    requires forall i: nat :: i < k ==> (i in s <==> i in t)
    requires forall i: nat :: i < k && i in s ==> f(i) == g(i)
    ensures Pick(n, s, f, k) == Pick(n, t, g, k)
  {
    if k == 0 {
    } else {
      PickCongruent(n, s, t, f, g, k - 1);
    }
  }

  lemma Swap(n: Net, a: Feat, b: Feat, c: Feat, d: Feat)
    requires Exact(n)
    ensures n.add(n.add(a, b), c) == n.add(n.add(a, c), b)
    ensures n.add(n.add(a, b), n.add(c, d)) == n.add(n.add(a, c), n.add(b, d))
  {
    assert n.add(n.add(a, b), c) == n.add(a, n.add(b, c)) == n.add(a, n.add(c, b)) == n.add(n.add(a, c), b);
    calc {
      n.add(n.add(a, b), n.add(c, d));
      n.add(n.add(n.add(a, b), c), d);
      n.add(n.add(n.add(a, c), b), d);
      n.add(n.add(a, c), n.add(b, d));
    }
  }

  /** One more member adds its value, wherever it stands in the order. */
  lemma {:induction false} PickInsert(n: Net, s: set<nat>, x: nat, f: nat -> Feat, k: nat)
    requires Exact(n) && x !in s && x < k
    ensures Pick(n, s + {x}, f, k) == n.add(Pick(n, s, f, k), f(x))
  {
    if x == k - 1 {
      PickCongruent(n, s + {x}, s, f, f, k - 1);
    } else {
      PickInsert(n, s, x, f, k - 1);
      Swap(n, Pick(n, s, f, k - 1), f(x), f(k - 1), n.zero);
    }
  }

  /** Disjoint sets add up. */
  lemma {:induction false} PickUnion(n: Net, s: set<nat>, t: set<nat>, f: nat -> Feat, k: nat)
    requires Exact(n) && s !! t
    ensures Pick(n, s + t, f, k) == n.add(Pick(n, s, f, k), Pick(n, t, f, k))
  {
    if k == 0 {
    } else {
      PickUnion(n, s, t, f, k - 1);
      var a, b := Pick(n, s, f, k - 1), Pick(n, t, f, k - 1);
      Swap(n, a, b, f(k - 1), n.zero);
    }
  }

  /** The union of the first m parts. */
  function Parts(part: nat -> set<nat>, who: set<nat>, m: nat): set<nat> {
    if m == 0 then {} else if m - 1 in who then Parts(part, who, m - 1) + part(m - 1) else Parts(part, who, m - 1)
  }

  lemma {:induction false} PartsMember(part: nat -> set<nat>, who: set<nat>, m: nat, x: nat)
    ensures x in Parts(part, who, m) <==> exists j: nat :: j < m && j in who && x in part(j)
  {
    if m == 0 {
    } else {
      PartsMember(part, who, m - 1, x);
    }
  }

  lemma {:induction false} PartsDisjoint(part: nat -> set<nat>, who: set<nat>, m: nat, j: nat)
    requires forall i: nat :: i < m && i in who ==> part(i) !! part(j)
    ensures Parts(part, who, m) !! part(j)
  {
    if m == 0 {
    } else {
      PartsDisjoint(part, who, m - 1, j);
    }
  }

  /** Summing each part and then the parts is summing the whole: no index is lost or doubled. */
  lemma {:induction false} PickParts(n: Net, part: nat -> set<nat>, who: set<nat>, m: nat, f: nat -> Feat,
      sub: nat -> Feat, k: nat)
    requires Exact(n)
    requires forall i: nat, j: nat :: i < j < m && i in who && j in who ==> part(i) !! part(j)
    requires forall j: nat :: j < m && j in who ==> sub(j) == Pick(n, part(j), f, k)
    ensures Pick(n, who, sub, m) == Pick(n, Parts(part, who, m), f, k)
  {
    if m == 0 {
      PickEmpty(n, f, k);
    } else {
      PickParts(n, part, who, m - 1, f, sub, k);
      if m - 1 in who {
        PartsDisjoint(part, who, m - 1, m - 1);
        PickUnion(n, Parts(part, who, m - 1), part(m - 1), f, k);
      }
    }
  }

  // ---- the sum of a layer ----

  /** What each position adds, as one function. */
  function Shares(l: Layer, ev: Cell, f: Feat, h: Plane): nat -> Feat {
    (p: nat) => Share(l, ev, f, h, p)
  }

  /** Positions p and up whose cells are on the grid. */
  function Inside(l: Layer, g: Size, ev: Cell, p: nat): set<nat> {
    set q: nat | p <= q < Positions(l) && InGrid(g, Spot(l, ev, q))
  }

  /** A layer's output sums the positions on the grid. */
  lemma {:induction false} GatherIsPick(n: Net, l: Layer, g: Size, ev: Cell, f: Feat, h: Plane, p: nat)
    requires Exact(n) && p <= Positions(l)
    ensures Gather(n, l, g, ev, f, h, p) == Pick(n, Inside(l, g, ev, p), Shares(l, ev, f, h), Positions(l))
    decreases Positions(l) - p
  {
    hide Exact, Pick, Spot, InGrid, Share, Positions;
    var s := Shares(l, ev, f, h);
    if p == Positions(l) {
      assert Inside(l, g, ev, p) == {};
      PickEmpty(n, s, Positions(l));
    } else {
      GatherIsPick(n, l, g, ev, f, h, p + 1);
      if InGrid(g, Spot(l, ev, p)) {
        assert Inside(l, g, ev, p) == Inside(l, g, ev, p + 1) + {p};
        PickInsert(n, Inside(l, g, ev, p + 1), p, s, Positions(l));
      } else {
        assert Inside(l, g, ev, p) == Inside(l, g, ev, p + 1);
      }
    }
  }
}
