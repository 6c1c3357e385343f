/** The single-producer single-consumer ring, load by load and store by store, with counters that wrap. */
module Spsc {
  import opened Arith
  import opened Rings

  /** Slot of the n-th item: the counter is kept modulo `modulus`, and `counter & mask` is its
      remainder by the capacity, a power of two. */
  function Slot(n: nat, cap: nat, modulus: nat): nat
    requires cap >= 1 && modulus >= 1
  {
    n % modulus % cap
  }

  /** Any window of `cap` consecutive items has its own slots, also across the wrap of the
      counters, exactly when the capacity divides the modulus. */
  lemma WrapSafe(cap: nat, modulus: nat)
    requires cap >= 1 && modulus >= cap
    ensures (forall i: nat, j: nat :: i < j < i + cap ==> Slot(i, cap, modulus) != Slot(j, cap, modulus)) <==>
      modulus % cap == 0
  {
    if modulus % cap == 0 {
      forall i: nat, j: nat | i < j < i + cap ensures Slot(i, cap, modulus) != Slot(j, cap, modulus) {
        ModMod(i, cap, modulus);
        ModMod(j, cap, modulus);
        Apart(i, j, cap);
      }
    } else {
      var r := modulus % cap;
      Split(modulus, cap);
      Unique(modulus - r, modulus / cap, 0, cap);
      Unique(modulus - r, 0, modulus - r, modulus);
      Unique(modulus, 1, 0, modulus);
      assert Slot(modulus - r, cap, modulus) == Slot(modulus, cap, modulus);
    }
  }

  /** Remainder, under a name. */
  function Wrap(n: int, m: nat): (r: nat)
    requires m >= 1
    ensures r < m
  {
    n % m
  }

  /** Where try_push and try_pop stand between two accesses to shared memory. */
  datatype Producer = Idle | HasHead(h: nat) | MayWrite(h: nat) | Written(h: nat)
  datatype Consumer = Rest | HasTail(t: nat) | MayRead(t: nat) | HasItem(t: nat)

  /** The shared words and the two threads.  `item` is the consumer's out parameter; `popped`
      is the list of items handed out and `pushes` counts completed pushes. */
  datatype Sys<T> = Sys(
    buf: seq<T>, head: nat, tail: nat,
    producer: Producer, consumer: Consumer, item: Option<T>,
    pushes: nat, popped: seq<T>)

  datatype Step =
    | LoadHead      // push: head_.load
    | CheckFull     // push: tail_.load, then give up or go on
    | WriteSlot     // push: buf_[h & mask_] = v
    | StoreHead     // push: head_.store(h + 1)
    | LoadTail      // pop: tail_.load
    | CheckEmpty    // pop: head_.load, then give up or go on
    | ReadSlot      // pop: out = buf_[t & mask_]
    | StoreTail     // pop: tail_.store(t + 1)

  /** The ring and what its producer wants to push. */
  datatype Config<T> = Config(cap: nat, modulus: nat, input: seq<T>)

  predicate Sound<T>(c: Config<T>) {
    c.cap >= 2 && c.modulus > c.cap && c.modulus % c.cap == 0
  }

  predicate Enabled<T>(c: Config<T>, s: Sys<T>, st: Step) {
    match st
    case LoadHead => s.producer.Idle? && s.pushes < |c.input|
    case CheckFull => s.producer.HasHead?
    case WriteSlot => s.producer.MayWrite?
    case StoreHead => s.producer.Written?
    case LoadTail => s.consumer.Rest?
    case CheckEmpty => s.consumer.HasTail?
    case ReadSlot => s.consumer.MayRead?
    case StoreTail => s.consumer.HasItem?
  }

  predicate Shaped<T>(c: Config<T>, s: Sys<T>) {
    Sound(c) && |s.buf| == c.cap && (s.producer.MayWrite? ==> s.pushes < |c.input|)
      && (s.consumer.HasItem? ==> s.item.Some?)
  }

  function Apply<T>(c: Config<T>, s: Sys<T>, st: Step): Sys<T>
    requires Shaped(c, s) && Enabled(c, s, st)
  {
    match st
    case LoadHead => s.(producer := HasHead(s.head))
    case CheckFull =>
      var h := s.producer.h;
      s.(producer := if Wrap(h - s.tail, c.modulus) >= c.cap then Idle else MayWrite(h))
    case WriteSlot =>
      s.(buf := s.buf[Wrap(s.producer.h, c.cap) := c.input[s.pushes]], producer := Written(s.producer.h))
    case StoreHead => s.(head := Wrap(s.producer.h + 1, c.modulus), producer := Idle, pushes := s.pushes + 1)
    case LoadTail => s.(consumer := HasTail(s.tail))
    case CheckEmpty =>
      var t := s.consumer.t;
      s.(consumer := if s.head == t then Rest else MayRead(t))
    case ReadSlot => s.(item := Some(s.buf[Wrap(s.consumer.t, c.cap)]), consumer := HasItem(s.consumer.t))
    case StoreTail =>
      s.(tail := Wrap(s.consumer.t + 1, c.modulus), consumer := Rest, popped := s.popped + [s.item.value])
  }

  /** Item i is live: pushed and not yet popped. */
  predicate Live<T>(s: Sys<T>, i: int) {
    |s.popped| <= i < s.pushes
  }

  ghost predicate Inv<T>(c: Config<T>, s: Sys<T>) {
    && Shaped(c, s)
    && |s.popped| <= s.pushes <= |c.input| && s.pushes <= |s.popped| + c.cap
    && s.head == Wrap(s.pushes, c.modulus) && s.tail == Wrap(|s.popped|, c.modulus)
    && s.popped == c.input[..|s.popped|]
    && (forall i :: Live(s, i) ==> s.buf[Wrap(i, c.cap)] == c.input[i])
    && ProducerOk(c, s) && ConsumerOk(c, s)
  }

  ghost predicate ProducerOk<T>(c: Config<T>, s: Sys<T>)
    requires Shaped(c, s)
  {
    match s.producer
    case Idle => true
    case HasHead(h) => h == s.head && s.pushes < |c.input|
    case MayWrite(h) => h == s.head && s.pushes < |s.popped| + c.cap
    case Written(h) =>
      && h == s.head && s.pushes < |s.popped| + c.cap && s.pushes < |c.input|
      && s.buf[Wrap(s.pushes, c.cap)] == c.input[s.pushes]
  }

  ghost predicate ConsumerOk<T>(c: Config<T>, s: Sys<T>)
    requires Shaped(c, s)
  {
    match s.consumer
    case Rest => true
    case HasTail(t) => t == s.tail
    case MayRead(t) => t == s.tail && |s.popped| < s.pushes
    case HasItem(t) =>
      && t == s.tail && |s.popped| < s.pushes && |s.popped| < |c.input|
      && s.item == Some(c.input[|s.popped|])
  }

  /** The free slot of the next item is nobody's: no slot is written while it is live. */
  lemma FreeSlot<T>(c: Config<T>, s: Sys<T>, i: nat)
    requires Inv(c, s) && Live(s, i) && s.pushes < |s.popped| + c.cap
    ensures Wrap(s.head, c.cap) == Wrap(s.pushes, c.cap) != Wrap(i, c.cap)
  {
    ModMod(s.pushes, c.cap, c.modulus);
    Apart(i, s.pushes, c.cap);
  }

  lemma Counters(a: nat, b: nat, m: nat)
    requires m >= 1 && b <= a < b + m
    ensures Wrap(Wrap(a, m) - Wrap(b, m), m) == a - b
    ensures Wrap(a, m) == Wrap(b, m) <==> a == b
  {
    Distance(a, b, m);
  }

  /** The counters tell full from not full and empty from not empty. */
  lemma Tests<T>(c: Config<T>, s: Sys<T>)
    requires Inv(c, s)
    ensures Wrap(s.head - s.tail, c.modulus) == s.pushes - |s.popped|
    ensures s.head == s.tail <==> s.pushes == |s.popped|
  {
    Counters(s.pushes, |s.popped|, c.modulus);
    hide Wrap;
  }

  /** One more on a wrapping counter. */
  lemma Succ(n: nat, m: nat)
    requires m >= 2
    ensures Wrap(Wrap(n, m) + 1, m) == Wrap(n + 1, m)
  {
    Split(n, m);
    Shift(n % m + 1, n / m, m);
  }

  lemma StepInv<T>(c: Config<T>, s: Sys<T>, st: Step)
    requires Inv(c, s) && Enabled(c, s, st)
    ensures Inv(c, Apply(c, s, st))
  {
    Tests(c, s);
    Succ(s.pushes, c.modulus);
    Succ(|s.popped|, c.modulus);
    ModMod(s.pushes, c.cap, c.modulus);
    ModMod(|s.popped|, c.cap, c.modulus);
    assert Wrap(s.head, c.cap) == Wrap(s.pushes, c.cap) && Wrap(s.tail, c.cap) == Wrap(|s.popped|, c.cap);
    forall i | Live(s, i) && s.pushes < |s.popped| + c.cap
      ensures Wrap(i, c.cap) != Wrap(s.pushes, c.cap)
    {
      FreeSlot(c, s, i);
    }
    hide Wrap;
  }

  /** The ring as its users see it. */
  function View<T>(c: Config<T>, s: Sys<T>): Ring<T>
    requires |s.popped| <= s.pushes <= |c.input|
  {
    Ring(|s.popped|, c.input[|s.popped|..s.pushes])
  }

  /** Every step is invisible, a push into a ring that has room, or a pop of its oldest item; and
      a push gives up only when the ring is full, a pop only when it is empty. */
  lemma Refines<T>(c: Config<T>, s: Sys<T>, st: Step)
    requires Inv(c, s) && Enabled(c, s, st)
    ensures Inv(c, Apply(c, s, st))
    ensures var v, s' := View(c, s), Apply(c, s, st);
      match st
      case StoreHead => |v.live| < c.cap && s.pushes < |c.input| && View(c, s') == v.Push(c.input[s.pushes])
      case StoreTail => v.live != [] && View(c, s') == v.Pop() && s'.popped == s.popped + [v.live[0]]
      case CheckFull => View(c, s') == v && (s'.producer.Idle? <==> |v.live| == c.cap)
      case CheckEmpty => View(c, s') == v && (s'.consumer.Rest? <==> v.live == [])
      case _ => View(c, s') == v
  {
    StepInv(c, s, st);
    Tests(c, s);
  }

  function Start<T>(c: Config<T>, fill: T): Sys<T> {
    Sys(seq(c.cap, _ => fill), 0, 0, Idle, Rest, None, 0, [])
  }

  ghost predicate Leads<T(!new)>(c: Config<T>, s: Sys<T>, steps: seq<Step>, t: Sys<T>)
    decreases |steps|
  {
    if steps == [] then s == t
    else Shaped(c, s) && Enabled(c, s, steps[0]) && Leads(c, Apply(c, s, steps[0]), steps[1..], t)
  }

  lemma {:induction false} RunInv<T(!new)>(c: Config<T>, s: Sys<T>, steps: seq<Step>, t: Sys<T>)
    requires Inv(c, s) && Leads(c, s, steps, t)
    ensures Inv(c, t)
    decreases |steps|
  {
    if steps == [] {
    } else {
      StepInv(c, s, steps[0]);
      RunInv(c, Apply(c, s, steps[0]), steps[1..], t);
    }
  }

  /** In every run, whatever the interleaving and however often the counters wrap: what was popped
      is a prefix of what was pushed, nothing is lost or doubled in between, no more than a
      capacity of items is inside, and a slot about to be written holds no live item. */
  lemma RunsAreFifo<T(!new)>(c: Config<T>, fill: T, steps: seq<Step>, t: Sys<T>)
    requires Sound(c) && Leads(c, Start(c, fill), steps, t)
    ensures |t.popped| <= t.pushes <= |c.input| && t.popped == c.input[..t.pushes][..|t.popped|]
    ensures t.pushes - |t.popped| <= c.cap
    ensures forall i: nat :: t.producer.MayWrite? && Live(t, i) ==> Wrap(t.producer.h, c.cap) != Wrap(i, c.cap)
    ensures |t.buf| == c.cap && forall i: nat :: Live(t, i) ==> t.buf[Wrap(i, c.cap)] == c.input[i]
  {
    RunInv(c, Start(c, fill), steps, t);
    forall i: nat | t.producer.MayWrite? && Live(t, i)
      ensures Wrap(t.producer.h, c.cap) != Wrap(i, c.cap)
    {
      FreeSlot(c, t, i);
    }
  }

  /** The ring as an object: what one call does when no other call is under way. */
  class SpscRing<T(0)> {
    const modulus: nat
    const cap: nat
    const buf: array<T>
    var head: nat
    var tail: nat

    ghost var pushes: nat
    ghost var items: seq<T>

    ghost predicate Valid()
      reads this, buf
    {
      && cap >= 2 && modulus > cap && modulus % cap == 0 && buf.Length == cap
      && |items| <= pushes && |items| <= cap
      && head == Wrap(pushes, modulus) && tail == Wrap(pushes - |items|, modulus)
      && (forall j :: pushes - |items| <= j < pushes ==> buf[Wrap(j, cap)] == items[j - (pushes - |items|)])
    }

    constructor (capacity: nat, width: nat)
      requires capacity >= 2 && width > capacity && width % capacity == 0
      ensures Valid() && fresh(buf) && cap == capacity && items == []
    {
      cap, modulus := capacity, width;
      buf := new T[capacity];
      head, tail := 0, 0;
      pushes, items := 0, [];
      new;
      Unique(0, 0, 0, width);
    }

    /** What the counters say: the occupancy, the next slot of each side, and that the next slot
        to be written is free unless the ring is full. */
    lemma Facts()
      requires Valid()
      ensures Wrap(head - tail, modulus) == |items| && (head == tail <==> items == [])
      ensures Wrap(head, cap) == Wrap(pushes, cap) && Wrap(head + 1, modulus) == Wrap(pushes + 1, modulus)
      ensures Wrap(tail, cap) == Wrap(pushes - |items|, cap)
        && Wrap(tail + 1, modulus) == Wrap(pushes - |items| + 1, modulus)
      ensures |items| < cap ==> forall j :: pushes - |items| <= j < pushes ==> Wrap(j, cap) != Wrap(pushes, cap)
    {
      Counters(pushes, pushes - |items|, modulus);
      ModMod(pushes, cap, modulus);
      ModMod(pushes - |items|, cap, modulus);
      Succ(pushes, modulus);
      Succ(pushes - |items|, modulus);
      if |items| < cap {
        forall j | pushes - |items| <= j < pushes ensures Wrap(j, cap) != Wrap(pushes, cap) { Apart(j, pushes, cap); }
      }
    }

    method TryPush(v: T) returns (ok: bool)
      requires Valid()
      modifies this`head, this`pushes, this`items, buf
      ensures Valid()
      ensures ok <==> old(|items|) < cap
      ensures items == if ok then old(items) + [v] else old(items)
    {
      hide Wrap;
      Facts();
      var h: int, t: int := head, tail;
      if Wrap(h - t, modulus) >= cap { return false; }
      buf[Wrap(h, cap)] := v;
      head := Wrap(h + 1, modulus);
      items := items + [v];
      pushes := pushes + 1;
      return true;
    }

    method TryPop() returns (out: Option<T>)
      requires Valid()
      modifies this`tail, this`items
      ensures Valid()
      ensures out == if old(items) == [] then None else Some(old(items)[0])
      ensures items == if old(items) == [] then [] else old(items)[1..]
    {
      hide Wrap;
      Facts();
      var t, h := tail, head;
      if h == t { return None; }
      out := Some(buf[Wrap(t, cap)]);
      tail := Wrap(t + 1, modulus);
      items := items[1..];
    }

    method Size() returns (n: nat)
      requires Valid()
      ensures n == |items|
    {
      Facts();
      n := Wrap(head - tail, modulus);
    }
  }

  /** Any other capacity is refused. */
  method NewRing<T(0)>(capacity: nat, width: nat) returns (r: Option<SpscRing<T>>)
    requires PowerOfTwo(width) && width > capacity
    ensures r.None? <==> capacity < 2 || !PowerOfTwo(capacity)
    ensures r.Some? ==>
      fresh(r.value) && fresh(r.value.buf) && r.value.Valid() && r.value.cap == capacity && r.value.items == []
  {
    if capacity < 2 { return None; }
    PowerTest(capacity);
    if And(capacity, capacity - 1) != 0 { return None; }
    PowersDivide(capacity, width);
    var ring := new SpscRing<T>(capacity, width);
    r := Some(ring);
  }
}
