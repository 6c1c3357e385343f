/** Temporal dropout: a byte for each pooled cell, of which every window-th touch passes. */
module Tdrop {
  import opened Arith
  import opened Sequential

  /** How many of n touches pass a byte that starts at `init`. */
  function PassCount(window: nat, init: nat, n: nat): nat {
    if n == 0 then 0 else PassCount(window, init, n - 1) + if Passes(window, (init + n - 1) % 256) then 1 else 0
  }

  lemma OneTouch(window: nat, init: nat, n: nat)
    ensures PassCount(window, init, n + 1) == PassCount(window, init, n) + if Passes(window, (init + n) % 256) then 1
      else 0
    ensures ((init + n) % 256 + 1) % 256 == (init + (n + 1)) % 256
  {
    hide Passes;
    NextByte(init + n);
  }

  /** A byte and its account across one event that may touch it and may pass it. */
  lemma Touch(window: nat, init: nat, byte: nat, n: nat, touched: bool, passed: bool)
    requires byte == (init + n) % 256 && (passed <==> touched && Passes(window, byte))
    ensures (if touched then (byte + 1) % 256 else byte) == (init + (n + if touched then 1 else 0)) % 256
    ensures PassCount(window, init, n + if touched then 1 else 0) == PassCount(window, init, n) + if passed then 1
      else 0
  {
    OneTouch(window, init, n);
    hide Passes;
  }

  function Ceil(n: nat, w: nat): nat
    requires w >= 1
  {
    (n + w - 1) / w
  }

  lemma CeilStep(n: nat, w: nat)
    requires w >= 1
    ensures Ceil(n + 1, w) == Ceil(n, w) + if n % w == 0 then 1 else 0
  {
    Split(n, w);
    var q, r := n / w, n % w;
    Distribute(q, 1, w);
    Unique(n + w, q + 1, r, w);
    if r == 0 { Unique(n + w - 1, q, w - 1, w); } else { Unique(n + w - 1, q + 1, r - 1, w); }
  }

  /** After n touches of a fresh byte exactly this many passed: ceil(256 / w) for every full round of
      the byte, and the rounded-up share of the round that is under way. */
  lemma {:induction false} PassesExactly(w: nat, n: nat)
    requires w > 1
    ensures PassCount(w, 0, n) == (n / 256) * Ceil(256, w) + Ceil(n % 256, w)
  {
    if n == 0 {
      Unique(w - 1, 0, w - 1, w);
    } else {
      PassesExactly(w, n - 1);
      CeilStep((n - 1) % 256, w);
      Split(n - 1, 256);
      if (n - 1) % 256 < 255 {
        Unique(n, (n - 1) / 256, (n - 1) % 256 + 1, 256);
      } else {
        Unique(n, (n - 1) / 256 + 1, 0, 256);
        Distribute((n - 1) / 256, 1, Ceil(256, w));
        Unique(w - 1, 0, w - 1, w);
      }
      hide Ceil;
    }
  }

  /** A byte decides like an unbounded counter, touch by touch, exactly when the window divides 256
      (or lets everything pass). */
  lemma ByteLikeUnbounded(w: nat)
    ensures (forall n: nat {:trigger Passes(w, n)} :: Passes(w, n % 256) <==> Passes(w, n)) <==> w <= 1 || 256 % w == 0
  {
    if w > 1 {
      if 256 % w == 0 {
        forall n: nat ensures Passes(w, n % 256) <==> Passes(w, n) { ModMod(n, w, 256); }
      } else {
        assert 256 % 256 == 0 && Passes(w, 256 % 256) && !Passes(w, 256);
      }
    }
  }

  /** Passes of an unbounded counter. */
  function Unbounded(w: nat, n: nat): nat {
    if n == 0 then 0 else Unbounded(w, n - 1) + if Passes(w, n - 1) then 1 else 0
  }

  lemma {:induction false} UnboundedExactly(w: nat, n: nat)
    requires w > 1
    ensures Unbounded(w, n) == Ceil(n, w)
  {
    if n == 0 {
      Unique(w - 1, 0, w - 1, w);
    } else {
      UnboundedExactly(w, n - 1);
      CeilStep(n - 1, w);
    }
  }

  /** When the window divides 256 one event in w passes, rounded up, and only then. */
  lemma OneInWindow(w: nat)
    requires w > 1
    ensures (forall n: nat :: PassCount(w, 0, n) == Ceil(n, w)) <==> 256 % w == 0
  {
    if 256 % w == 0 {
      forall n: nat ensures PassCount(w, 0, n) == Ceil(n, w) { SameCount(w, n); }
    } else {
      PassesExactly(w, 256);
      CeilStep(256, w);
      assert PassCount(w, 0, 257) == PassCount(w, 0, 256) + 1;
      assert Ceil(0, w) == 0 by { Unique(w - 1, 0, w - 1, w); }
      assert PassCount(w, 0, 257) != Ceil(257, w);
    }
  }

  lemma {:induction false} SameCount(w: nat, n: nat)
    requires w > 1 && 256 % w == 0
    ensures PassCount(w, 0, n) == Ceil(n, w)
  {
    UnboundedExactly(w, n);
    if n == 0 {
    } else {
      SameCount(w, n - 1);
      UnboundedExactly(w, n - 1);
      ModMod(n - 1, w, 256);
    }
  }
}
