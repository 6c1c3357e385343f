/** The event ring of the Python side: batches go in and out with at most two slice copies. */
module BatchRing {
  import opened Arith
  import Rings

  /** Slot of item n: n & mask, for a power-of-two capacity. */
  function Place(n: nat, cap: nat): (r: nat)
    requires cap >= 1
    ensures r < cap
  {
    n % cap
  }

  function Min(a: int, b: int): int {
    if a <= b then a else b
  }

  class Ring<T(0)> {
    const cap: nat
    const buf: array<T>
    var head: nat
    var tail: nat

    ghost var items: seq<T>

    ghost predicate Valid()
      reads this, buf
    {
      && cap >= 2 && buf.Length == cap && tail <= head <= tail + cap && |items| == head - tail
      && (forall j :: tail <= j < head ==> buf[Place(j, cap)] == items[j - tail])
    }

    constructor (capacity: nat)
      requires capacity >= 2
      ensures Valid() && fresh(buf) && cap == capacity && items == []
    {
      cap, head, tail, items := capacity, 0, 0, [];
      buf := new T[capacity];
    }

    /** A run of m items from counter n on occupies one stretch of slots, or two when it wraps. */
    lemma Stretch(n: nat, m: nat, j: nat)
      requires cap >= 1 && m <= cap && n <= j < n + m
      ensures var start := Place(n, cap);
        Place(j, cap) == if start + (j - n) < cap then start + (j - n) else start + (j - n) - cap
    {
      var start := Place(n, cap);
      Split(n, cap);
      if start + (j - n) < cap {
        Unique(j, n / cap, start + (j - n), cap);
      } else {
        Distribute(n / cap, 1, cap);
        Unique(j, n / cap + 1, start + (j - n) - cap, cap);
      }
    }

    /** The slots a push of m items writes hold no item. */
    lemma FreeSlots(m: nat)
      requires Valid() && m <= cap - |items|
      ensures var start := Place(head, cap);
        forall i :: tail <= i < head ==> !(start <= Place(i, cap) < start + m) && !(Place(i, cap) < start + m - cap)
    {
      var start := Place(head, cap);
      forall i | tail <= i < head ensures !(start <= Place(i, cap) < start + m) && !(Place(i, cap) < start + m - cap) {
        var x := Place(i, cap);
        var j := if start <= x < start + m then head + (x - start) else head + (x + cap - start);
        if head <= j < head + m {
          Stretch(head, m, j);
          Apart(i, j, cap);
        }
      }
    }

    method TryPushBatch(arr: seq<T>) returns (m: nat)
      requires Valid()
      modifies this`head, this`items, buf
      ensures Valid()
      ensures m == Min(|arr|, cap - old(|items|))
      ensures items == old(items) + arr[..m]
    {
      hide Place;
      if |arr| == 0 { return 0; }
      var h, t := head, tail;
      var free := cap - (h - t);
      if free <= 0 { return 0; }
      m := Min(|arr|, free);
      var start := Place(h, cap);
      var end := start + m;
      FreeSlots(m);
      forall j | h <= j < h + m
        ensures Place(j, cap) == if start + (j - h) < cap then start + (j - h) else start + (j - h) - cap
      {
        Stretch(h, m, j);
      }
      if end <= cap {
        forall i | 0 <= i < m { buf[start + i] := arr[i]; }
      } else {
        var first := cap - start;
        forall i | 0 <= i < first { buf[start + i] := arr[i]; }
        forall i | 0 <= i < m - first { buf[i] := arr[first + i]; }
      }
      head := h + m;
      items := items + arr[..m];
    }

    method TryPopBatch(out: array<T>) returns (m: nat)
      requires Valid() && out != buf
      modifies this`tail, this`items, out
      ensures Valid()
      ensures m == Min(out.Length, |old(items)|)
      ensures out[..m] == old(items)[..m] && items == old(items)[m..]
      ensures forall i :: m <= i < out.Length ==> out[i] == old(out[i])
    {
      hide Place;
      if out.Length == 0 { return 0; }
      var h, t := head, tail;
      var avail := h - t;
      if avail <= 0 { return 0; }
      m := Min(out.Length, avail);
      var start := Place(t, cap);
      var end := start + m;
      forall j | t <= j < t + m
        ensures Place(j, cap) == if start + (j - t) < cap then start + (j - t) else start + (j - t) - cap
      {
        Stretch(t, m, j);
      }
      if end <= cap {
        forall i | 0 <= i < m { out[i] := buf[start + i]; }
      } else {
        var first := cap - start;
        forall i | 0 <= i < first { out[i] := buf[start + i]; }
        forall i | first <= i < m { out[i] := buf[i - first]; }
      }
      forall i | 0 <= i < m ensures out[i] == items[i] { assert buf[Place(t + i, cap)] == items[t + i - tail]; }
      tail := t + m;
      items := items[m..];
    }
  }

  /** A capacity that is no power of two, or less than two, is an error. */
  method NewRing<T(0)>(capacity: nat) returns (r: Rings.Option<Ring<T>>)
    ensures r.None? <==> capacity < 2 || !PowerOfTwo(capacity)
    ensures r.Some? ==>
      fresh(r.value) && fresh(r.value.buf) && r.value.Valid() && r.value.cap == capacity && r.value.items == []
  {
    if capacity < 2 { return Rings.None; }
    PowerTest(capacity);
    if And(capacity, capacity - 1) != 0 { return Rings.None; }
    var ring := new Ring<T>(capacity);
    r := Rings.Some(ring);
  }
}
