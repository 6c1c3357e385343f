/** Which shard owns which patch of an event: affected_shard_mask and shard_patch_mask. */
module Ownership {
  import opened Arith

  /** A mask is the set of its bits; the code keeps it in sixteen. */
  const MASK_BITS := 16

  function StripWidth(w: int, n: nat): int
    requires n >= 1
  {
    (w + n - 1) / n
  }

  /** Columns are clamped to the grid, strips beyond the last shard fold into it. */
  function ShardOfCol(c: int, w: int, n: nat): nat
    requires n >= 1 && w >= 1
  {
    StripPositive(w, n);
    var col := if c < 0 then 0 else if c >= w then w - 1 else c;
    var s := col / StripWidth(w, n);
    if s >= n then n - 1 else s
  }

  lemma StripPositive(w: int, n: nat)
    requires n >= 1 && w >= 1
    ensures StripWidth(w, n) >= 1
    ensures StripWidth(w, n) * n >= w
  {
    var q := (w + n - 1) / n;
    assert w + n - 1 == q * n + (w + n - 1) % n;
  }

  /** A strip is as narrow as n of them can be and still cover the grid. */
  lemma StripIsLeast(w: int, n: nat, s: int)
    requires n >= 1 && w >= 1
    ensures n * s >= w <==> s >= StripWidth(w, n)
  {
    StripPositive(w, n);
    var q := StripWidth(w, n);
    Split(w + n - 1, n);
    if s >= q { TimesMonotone(n, q, s); } else {
      TimesMonotone(n, s, q - 1);
      Distribute(q, -1, n);
    }
  }

  /** A column of the grid belongs to the shard whose strip it lies in; others to the nearest column's. */
  lemma ColumnInStrip(c: int, w: int, n: nat, k: nat)
    requires n >= 1 && w >= 1
    ensures 0 <= c < w ==>
      (ShardOfCol(c, w, n) == k <==> k * StripWidth(w, n) <= c < (k + 1) * StripWidth(w, n))
    ensures c < 0 ==> ShardOfCol(c, w, n) == ShardOfCol(0, w, n)
    ensures c >= w ==> ShardOfCol(c, w, n) == ShardOfCol(w - 1, w, n)
  {
    StripPositive(w, n);
    var s := StripWidth(w, n);
    Split(c, s);
    if 0 <= c < w {
      TimesLess(s, c / s, n);
      if k * s <= c < (k + 1) * s { Unique(c, k, c - k * s, s); }
      hide StripWidth;
      Distribute(k, 1, s);
    }
  }

  /** The one-bit mask of shard k. */
  function Bit(k: nat): set<nat> {
    if k < MASK_BITS then {k} else {}
  }

  function Affected(x: int, w: int, n: nat): set<nat>
    requires n >= 1 && w >= 1
  {
    Bit(ShardOfCol(x - 1, w, n)) + Bit(ShardOfCol(x, w, n)) + Bit(ShardOfCol(x + 1, w, n))
  }

  /** Patch p is at column x + 1 - p % 3. */
  function PatchMask(k: nat, x: int, w: int, n: nat): set<nat>
    requires n >= 1 && w >= 1
  {
    set p: nat | p < 9 && 0 <= x + 1 - p % 3 < w && ShardOfCol(x + 1 - p % 3, w, n) == k
  }

  method ShardPatchMask(k: nat, x: int, w: int, n: nat) returns (mask: set<nat>)
    requires n >= 1 && w >= 1
    ensures mask == PatchMask(k, x, w, n)
  {
    mask := {};
    for p := 0 to 9
      invariant mask == set q: nat | q < p && q in PatchMask(k, x, w, n)
    {
      var col := x + (1 - p % 3);
      if col < 0 || col >= w { continue; }
      if ShardOfCol(col, w, n) == k { mask := mask + {p}; }
    }
  }

  /** The producer's and the sum thread's count of the partials to expect. */
  method CountShards(mask: set<nat>, n: nat) returns (expected: nat)
    requires forall k :: k in mask ==> k < n
    ensures expected == |mask|
  {
    expected := 0;
    ghost var seen: set<nat> := {};
    for k := 0 to n
      invariant expected == |seen| && seen == set i: nat | i in mask && i < k
    {
      if k in mask {
        seen := seen + {k};
        expected := expected + 1;
      }
    }
    assert seen == mask;
  }

  /** Strips are consecutive and every shard of the run is met. */
  lemma ShardMonotone(a: int, b: int, w: int, n: nat)
    requires n >= 1 && w >= 1 && a <= b
    ensures ShardOfCol(a, w, n) <= ShardOfCol(b, w, n) < n
  {
    StripPositive(w, n);
    var s := StripWidth(w, n);
    var p, q := if a < 0 then 0 else if a >= w then w - 1 else a, if b < 0 then 0 else if b >= w then w - 1 else b;
    DivMonotone(p, q, s);
  }

  /** Each in-grid patch belongs to exactly one shard, and to no shard when it is off the grid. */
  lemma PatchOwnedOnce(x: int, w: int, n: nat, p: nat)
    requires n >= 1 && w >= 1 && 0 <= x < w && p < 9
    ensures forall j: nat, k: nat :: p in PatchMask(j, x, w, n) && p in PatchMask(k, x, w, n) ==> j == k
    ensures 0 <= x + 1 - p % 3 < w <==>
            ShardOfCol(x + 1 - p % 3, w, n) < n && p in PatchMask(ShardOfCol(x + 1 - p % 3, w, n), x, w, n)
  {
    ShardMonotone(x + 1 - p % 3, x + 1 - p % 3, w, n);
  }

  /** The shards that receive work are exactly those that own a patch, as long as the last
      occupied strip has a bit in the mask; and only then, whatever the event. */
  lemma AffectedIsNonEmptyMask(w: int, n: nat)
    requires n >= 1 && w >= 1
    ensures (forall x, k: nat :: 0 <= x < w ==> (k in Affected(x, w, n) <==> PatchMask(k, x, w, n) != {}))
            <==> ShardOfCol(w - 1, w, n) < MASK_BITS
  {
    forall x, k: nat | 0 <= x < w
      ensures PatchMask(k, x, w, n) != {} <==>
              k in {ShardOfCol(x - 1, w, n), ShardOfCol(x, w, n), ShardOfCol(x + 1, w, n)}
      ensures k in {ShardOfCol(x - 1, w, n), ShardOfCol(x, w, n), ShardOfCol(x + 1, w, n)} ==>
        k <= ShardOfCol(w - 1, w, n)
    {
      MaskNonEmpty(k, x, w, n);
      ShardMonotone(x - 1, w - 1, w, n);
      ShardMonotone(x, w - 1, w, n);
      ShardMonotone(x + 1, w, w, n);
    }
    if ShardOfCol(w - 1, w, n) >= MASK_BITS {
      var k := ShardOfCol(w - 1, w, n);
      assert k !in Affected(w - 1, w, n) && PatchMask(k, w - 1, w, n) != {};
    }
  }

  lemma MaskNonEmpty(k: nat, x: int, w: int, n: nat)
    requires n >= 1 && w >= 1 && 0 <= x < w
    ensures PatchMask(k, x, w, n) != {} <==>
            k in {ShardOfCol(x - 1, w, n), ShardOfCol(x, w, n), ShardOfCol(x + 1, w, n)}
  {
    assert 1 in PatchMask(ShardOfCol(x, w, n), x, w, n);
    if x > 0 {
      assert 2 in PatchMask(ShardOfCol(x - 1, w, n), x, w, n);
    } else {
      assert ShardOfCol(x - 1, w, n) == ShardOfCol(x, w, n);
    }
    if x + 1 < w {
      assert 0 in PatchMask(ShardOfCol(x + 1, w, n), x, w, n);
    } else {
      assert ShardOfCol(x + 1, w, n) == ShardOfCol(x, w, n);
    }
  }

  /** The positions of an event that some shard runs: those in a column whose shard has a bit in
      the mask. */
  function Served(x: int, w: int, n: nat): set<nat> {
    if n >= 1 && w >= 1 then
      set p: nat | p < 9 && 0 <= x + 1 - p % 3 < w && ShardOfCol(x + 1 - p % 3, w, n) < MASK_BITS
    else {}
  }

  /** They are the masks of the routed shards, taken together. */
  lemma ServedByRouted(x: int, w: int, n: nat, p: nat)
    requires n >= 1 && 0 <= x < w
    ensures p in Served(x, w, n) <==> exists k: nat :: k in Affected(x, w, n) && p in PatchMask(k, x, w, n)
  {
    if p in Served(x, w, n) {
      var k := ShardOfCol(x + 1 - p % 3, w, n);
      assert k in Affected(x, w, n) && p in PatchMask(k, x, w, n);
    }
  }
}
