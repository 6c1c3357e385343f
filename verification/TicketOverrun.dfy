/** The ticketed ring without any condition on its runs: when it delivers, and what is lost otherwise. */
module TicketOverrun {
  import opened Arith
  import opened TicketRing

  /** Any run, claims in time or not. */
  ghost predicate Reaches<V(!new)>(c: Config<V>, s: Sys<V>, steps: seq<Step>, t: Sys<V>)
    decreases |steps|
  {
    if steps == [] then s == t
    else Shaped(c, s) && Enabled(c, s, steps[0]) && Reaches(c, Apply(c, s, steps[0]), steps[1..], t)
  }

  lemma {:induction false} ReachesJoin<V(!new)>(c: Config<V>, s: Sys<V>, a: seq<Step>, t: Sys<V>, b: seq<Step>,
      u: Sys<V>)
    requires Reaches(c, s, a, t) && Reaches(c, t, b, u)
    ensures Reaches(c, s, a + b, u)
    decreases |a|
  {
    hide Shaped, Enabled, Apply;
    if a == [] {
      assert a + b == b;
    } else {
      ReachesJoin(c, Apply(c, s, a[0]), a[1..], t, b, u);
      assert (a + b)[1..] == a[1..] + b;
    }
  }

  // ---- tickets and records ----

  function Total<V>(rs: seq<seq<V>>): nat {
    if rs == [] then 0 else Total(rs[..|rs| - 1]) + |rs[|rs| - 1]|
  }

  function Taken(v: seq<nat>): nat {
    if v == [] then 0 else Taken(v[..|v| - 1]) + v[|v| - 1]
  }

  lemma {:induction false} TakenUpdate(v: seq<nat>, w: nat)
    requires w < |v|
    ensures Taken(v[w := v[w] + 1]) == Taken(v) + 1
  {
    var last := |v| - 1;
    if w == last {
      assert v[w := v[w] + 1][..last] == v[..last];
    } else {
      assert v[w := v[w] + 1][..last] == v[..last][w := v[w] + 1];
      TakenUpdate(v[..last], w);
    }
  }

  /** Tickets taken are at most the records there are, and all of them only when every worker has
      come to its end. */
  lemma {:induction false} TakenBound<V>(v: seq<nat>, rs: seq<seq<V>>)
    requires |v| == |rs| && forall i :: 0 <= i < |v| ==> v[i] <= |rs[i]|
    ensures Taken(v) <= Total(rs)
    ensures Taken(v) == Total(rs) <==> forall i :: 0 <= i < |v| ==> v[i] == |rs[i]|
  {
    if v == [] {
    } else {
      var last := |v| - 1;
      TakenBound(v[..last], rs[..last]);
      assert forall i :: 0 <= i < last ==> v[..last][i] == v[i] && rs[..last][i] == rs[i];
    }
  }

  lemma {:induction false} TakenNone(v: seq<nat>)
    requires forall i :: 0 <= i < |v| ==> v[i] == 0
    ensures Taken(v) == 0
  {
    if v == [] {
    } else {
      TakenNone(v[..|v| - 1]);
    }
  }

  // ---- what every run keeps ----

  ghost predicate Kept<V>(c: Config<V>, s: Sys<V>) {
    && Shaped(c, s) && s.head == Taken(s.claimed)
    && (forall w :: 0 <= w < |c.records| && s.workers[w].Writing? ==>
      s.workers[w].ticket < s.head && s.workers[w].done <= c.size)
  }

  lemma StepKept<V>(c: Config<V>, s: Sys<V>, st: Step)
    requires Kept(c, s) && Enabled(c, s, st)
    ensures Kept(c, Apply(c, s, st)) && Apply(c, s, st).next >= s.next
  {
    hide Place, Taken;
    if st.TakeTicket? { TakenUpdate(s.claimed, st.w); }
  }

  lemma {:induction false} RunKept<V(!new)>(c: Config<V>, s: Sys<V>, steps: seq<Step>, t: Sys<V>)
    requires Kept(c, s) && Reaches(c, s, steps, t)
    ensures Kept(c, t) && t.next >= s.next
    decreases |steps|
  {
    hide Kept, Enabled, Apply;
    if steps == [] {
    } else {
      StepKept(c, s, steps[0]);
      RunKept(c, Apply(c, s, steps[0]), steps[1..], t);
    }
  }

  lemma StartKept<V>(c: Config<V>, fill: V)
    requires Sound(c)
    ensures Kept(c, Start(c, fill))
  {
    TakenNone(Start(c, fill).claimed);
  }

  // ---- few records: every claim is in time ----

  lemma {:induction false} AlwaysInTime<V(!new)>(c: Config<V>, s: Sys<V>, steps: seq<Step>, t: Sys<V>)
    requires Kept(c, s) && Total(c.records) <= c.cap && Reaches(c, s, steps, t)
    ensures Leads(c, s, steps, t)
    decreases |steps|
  {
    hide Apply, Place, Taken, Total;
    if steps == [] {
    } else {
      StepKept(c, s, steps[0]);
      TakenBound(s.claimed, c.records);
      AlwaysInTime(c, Apply(c, s, steps[0]), steps[1..], t);
    }
  }

  ghost predicate Stuck<V>(c: Config<V>, s: Sys<V>) {
    Shaped(c, s) && forall st :: !Enabled(c, s, st)
  }

  /** Every ticket was delivered, with the record it was claimed for. */
  ghost predicate AllDelivered<V>(c: Config<V>, s: Sys<V>) {
    && s.next == s.head == |s.claims| == |s.delivered|
    && forall t :: 0 <= t < |s.claims| ==>
      ClaimOk(c, s.claimed, s.claims[t]) && s.delivered[t] == RecordOf(c, s.claims[t])
  }

  lemma FewDeliver<V(!new)>(c: Config<V>, fill: V, steps: seq<Step>, s: Sys<V>)
    requires Sound(c) && Total(c.records) <= c.cap && Reaches(c, Start(c, fill), steps, s) && Stuck(c, s)
    ensures AllDelivered(c, s)
  {
    StartKept(c, fill);
    AlwaysInTime(c, Start(c, fill), steps, s);
    RunKept(c, Start(c, fill), steps, s);
    RunsDeliver(c, fill, steps, s);
    hide Reaches, Leads, Place, Total, RecordOf;
    forall w | 0 <= w < |s.workers| ensures s.workers[w].Idle? {
      assert !Enabled(c, s, WriteField(w)) && !Enabled(c, s, Publish(w));
    }
  }

  // ---- a worker brings a record to its end ----

  /** Same tickets, same consumer. */
  ghost predicate Aside<V>(s: Sys<V>, t: Sys<V>) {
    && t.head == s.head && t.claimed == s.claimed && t.claims == s.claims
    && t.next == s.next && t.reading == s.reading && t.delivered == s.delivered && |t.slots| == |s.slots|
  }

  lemma {:induction false} Finish<V(!new)>(c: Config<V>, s: Sys<V>, w: nat) returns (steps: seq<Step>, t: Sys<V>)
    requires Kept(c, s) && w < |c.records| && s.workers[w].Writing?
    ensures Reaches(c, s, steps, t) && Kept(c, t) && Aside(s, t) && t.workers == s.workers[w := Idle]
    ensures var x := Place(s.workers[w].ticket, c.cap);
      t.slots[x].tag == s.workers[w].ticket + 1 && forall y :: 0 <= y < |s.slots| && y != x ==>
        t.slots[y].tag == s.slots[y].tag
    decreases c.size - s.workers[w].done
  {
    hide Place, Taken;
    if s.workers[w].done == c.size {
      t := Apply(c, s, Publish(w));
      steps := [Publish(w)];
      StepKept(c, s, Publish(w));
      assert Reaches(c, t, [], t);
    } else {
      var s1 := Apply(c, s, WriteField(w));
      StepKept(c, s, WriteField(w));
      var rest;
      rest, t := Finish(c, s1, w);
      steps := [WriteField(w)] + rest;
      assert steps[1..] == rest;
      assert t.workers == s.workers[w := Idle];
    }
  }

  ghost predicate AllIdle<V>(s: Sys<V>) {
    forall w :: 0 <= w < |s.workers| ==> s.workers[w].Idle?
  }

  // ---- many records: a stuck run ----

  /** The consumer has not moved, and once the tickets have gone round the ring its slot carries a
      later tag than the one it waits for. */
  ghost predicate Overrun<V>(c: Config<V>, s: Sys<V>) {
    Kept(c, s) && AllIdle(s) && s.next == 0 && s.reading == [] && (s.head > c.cap ==> s.slots[0].tag > c.cap)
  }

  lemma {:induction false} PushAll<V(!new)>(c: Config<V>, s: Sys<V>) returns (steps: seq<Step>, t: Sys<V>)
    requires Overrun(c, s)
    ensures Reaches(c, s, steps, t) && Overrun(c, t) && forall w :: 0 <= w < |c.records| ==>
      t.claimed[w] == |c.records[w]|
    decreases Total(c.records) - s.head
  {
    hide Taken, Total, Place;
    TakenBound(s.claimed, c.records);
    if w :| 0 <= w < |c.records| && s.claimed[w] < |c.records[w]| {
      var s1 := Apply(c, s, TakeTicket(w));
      StepKept(c, s, TakeTicket(w));
      TakenBound(s1.claimed, c.records);
      var a, s2 := Finish(c, s1, w);
      RoundTag(s.head, c.cap);
      var b;
      b, t := PushAll(c, s2);
      ReachesJoin(c, s1, a, s2, b, t);
      steps := [TakeTicket(w)] + (a + b);
      assert steps[1..] == a + b;
    } else {
      steps, t := [], s;
    }
  }

  /** The first ticket of the second round has the first slot again. */
  lemma RoundTag(ticket: nat, cap: nat)
    requires cap >= 1
    ensures ticket == cap ==> Place(ticket, cap) == 0
  {
    Unique(cap, 1, 0, cap);
  }

  lemma ManyStuck<V(!new)>(c: Config<V>, fill: V) returns (steps: seq<Step>, s: Sys<V>)
    requires Sound(c) && Total(c.records) > c.cap
    ensures Reaches(c, Start(c, fill), steps, s) && Stuck(c, s) && s.next == 0 < s.head
  {
    StartKept(c, fill);
    steps, s := PushAll(c, Start(c, fill));
    TakenBound(s.claimed, c.records);
    Unique(0, 0, 0, c.cap);
    hide Reaches, Total, Taken;
  }

  /** Without a test for a full ring, every run that comes to its end has delivered all it claimed,
      each record whole, if and only if there are no more records than slots. */
  lemma DeliversExactly<V(!new)>(c: Config<V>, fill: V)
    requires Sound(c)
    ensures (forall steps, s :: Reaches(c, Start(c, fill), steps, s) && Stuck(c, s) ==> AllDelivered(c, s)) <==>
      Total(c.records) <= c.cap
  {
    if Total(c.records) <= c.cap {
      forall steps, s | Reaches(c, Start(c, fill), steps, s) && Stuck(c, s)
        ensures AllDelivered(c, s)
      {
        FewDeliver(c, fill, steps, s);
      }
    } else {
      var steps, s := ManyStuck(c, fill);
      assert !AllDelivered(c, s);
    }
  }

  // ---- one claim too far ahead ----

  /** Ticket q is never delivered: its slot carries a later tag, and will never carry an earlier one. */
  ghost predicate Lost<V>(c: Config<V>, s: Sys<V>, q: nat) {
    && Kept(c, s) && s.next <= q < s.head && s.slots[Place(q, c.cap)].tag > q + 1
    && (forall w ::
          0 <= w < |c.records| && s.workers[w].Writing? && Place(s.workers[w].ticket, c.cap) == Place(q, c.cap) ==>
            s.workers[w].ticket > q)
  }

  lemma {:induction false} StaysLost<V(!new)>(c: Config<V>, s: Sys<V>, q: nat, steps: seq<Step>, t: Sys<V>)
    requires Lost(c, s, q) && Reaches(c, s, steps, t)
    ensures t.next <= q
    decreases |steps|
  {
    hide Place, Taken;
    if steps == [] {
    } else {
      StepKept(c, s, steps[0]);
      StaysLost(c, Apply(c, s, steps[0]), q, steps[1..], t);
    }
  }

  /** All workers below k but one bring their records to the end. */
  lemma {:induction false} FinishOthers<V(!new)>(c: Config<V>, s: Sys<V>, w: nat, k: nat)
      returns (steps: seq<Step>, t: Sys<V>)
    requires Kept(c, s) && k <= |c.records| && w < |c.records|
    ensures Reaches(c, s, steps, t) && Kept(c, t) && Aside(s, t) && t.workers[w] == s.workers[w]
    ensures forall i :: 0 <= i < k && i != w ==> t.workers[i].Idle?
  {
    hide Place, Taken;
    if k == 0 {
      steps, t := [], s;
    } else {
      var s1;
      steps, s1 := FinishOthers(c, s, w, k - 1);
      if k - 1 != w && s1.workers[k - 1].Writing? {
        var last;
        last, t := Finish(c, s1, k - 1);
        ReachesJoin(c, s, steps, s1, last, t);
        steps := steps + last;
      } else {
        t := s1;
      }
    }
  }

  /** However the run goes on, ticket q is not delivered. */
  ghost predicate Never<V(!new)>(c: Config<V>, s: Sys<V>, q: int) {
    forall on, r :: Reaches(c, s, on, r) ==> r.next <= q
  }

  /** The run can go on so that it never will be. */
  ghost predicate MayLose<V(!new)>(c: Config<V>, s: Sys<V>, q: int) {
    exists steps, t :: Reaches(c, s, steps, t) && Never(c, t, q)
  }

  lemma Claimed<V(!new)>(c: Config<V>, s: Sys<V>, w: nat)
    requires Kept(c, s) && Enabled(c, s, TakeTicket(w))
    ensures w < |c.records| && c.cap >= 1
    ensures var s1 := Apply(c, s, TakeTicket(w));
      Kept(c, s1) && s1.workers[w] == Writing(s.head, 0) && s1.head == s.head + 1 && s1.next == s.next
  {
    StepKept(c, s, TakeTicket(w));
  }

  /** After a claim that runs a capacity ahead the ticket a capacity back may be lost. */
  lemma ClaimLoses<V(!new)>(c: Config<V>, s: Sys<V>, w: nat)
    requires Kept(c, s) && Enabled(c, s, TakeTicket(w)) && s.head >= s.next + c.cap
    ensures MayLose(c, Apply(c, s, TakeTicket(w)), s.head - c.cap)
  {
    hide Place, Taken, Enabled, Apply;
    Claimed(c, s, w);
    var q, s1 := s.head - c.cap, Apply(c, s, TakeTicket(w));
    var a, s2 := FinishOthers(c, s1, w, |c.records|);
    var b, t := Finish(c, s2, w);
    ReachesJoin(c, s1, a, s2, b, t);
    SameSlot(q, c.cap);
    forall on, r | Reaches(c, t, on, r) ensures r.next <= q { StaysLost(c, t, q, on, r); }
    assert Never(c, t, q);
  }

  lemma SameSlot(q: nat, cap: nat)
    requires cap >= 1
    ensures Place(q, cap) == Place(q + cap, cap)
  {
    Shift(q, 1, cap);
  }

  /** So the condition on claims is exact: in a state that any run reaches, a claim can cost the ticket
      a capacity back if and only if the consumer is not past that ticket. */
  lemma ClaimExactly<V(!new)>(c: Config<V>, fill: V, run: seq<Step>, s: Sys<V>, w: nat)
    requires Sound(c) && Reaches(c, Start(c, fill), run, s) && Shaped(c, s) && Enabled(c, s, TakeTicket(w))
    ensures MayLose(c, Apply(c, s, TakeTicket(w)), s.head - c.cap) <==> !InTime(c, s, TakeTicket(w))
  {
    StartKept(c, fill);
    RunKept(c, Start(c, fill), run, s);
    var s1 := Apply(c, s, TakeTicket(w));
    StepKept(c, s, TakeTicket(w));
    hide Kept, Enabled, Apply, Shaped, Reaches;
    if !InTime(c, s, TakeTicket(w)) {
      ClaimLoses(c, s, w);
    } else {
      forall steps, t | Reaches(c, s1, steps, t) ensures !Never(c, t, s.head - c.cap) {
        RunKept(c, s1, steps, t);
        ReachesSelf(c, t);
      }
    }
  }

  lemma ReachesSelf<V(!new)>(c: Config<V>, s: Sys<V>)
    ensures Reaches(c, s, [], s)
  {
  }

  // ---- the smallest case, step by step ----

  function Tiny<V>(v: V): Config<V> {
    Config(1, 1, [[[v], [v]]])
  }

  /** The one worker's steps for one record. */
  const ONCE: seq<Step> := [TakeTicket(0), WriteField(0), Publish(0)]

  /** h records published, the consumer where it started. */
  function Pushed<V>(slot: Slot<V>, h: nat, claims: seq<Claim>): Sys<V> {
    Sys([slot], h, [Idle], [h], claims, 0, [], [])
  }

  lemma PushOnce<V(!new)>(v: V, slot: Slot<V>, h: nat, claims: seq<Claim>)
    requires |slot.fields| == 1 && |claims| == h < 2
    ensures Reaches(Tiny(v), Pushed(slot, h, claims), ONCE, Pushed(Slot(h + 1, [v]), h + 1, claims + [Claim(0, h)]))
  {
    hide Place;
    OneSlot(h);
    var c, s0 := Tiny(v), Pushed(slot, h, claims);
    var s1 := Apply(c, s0, TakeTicket(0));
    var s2 := Apply(c, s1, WriteField(0));
    var s3 := Apply(c, s2, Publish(0));
    assert s2.slots[0].fields == [v] && s2.claimed == [h + 1];
    assert s3.slots == [Slot(h + 1, [v])] && s3.workers == [Idle] && s3.claimed == [h + 1];
    assert s3 == Pushed(Slot(h + 1, [v]), h + 1, claims + [Claim(0, h)]);
    assert Reaches(c, s2, ONCE[2..], s3);
    assert Reaches(c, s1, ONCE[1..], s3);
  }

  lemma OneSlot(t: nat)
    ensures Place(t, 1) == 0
  {
  }

  /** A ring of one slot, two records of one field: both are published before the consumer looks, and
      then nobody can move. */
  lemma LateClaimLoses<V(!new)>(fill: V, v: V)
    ensures exists s ::
      Reaches(Tiny(v), Start(Tiny(v), fill), ONCE + ONCE, s) && Stuck(Tiny(v), s) && s.next == 0 && s.head == 2
  {
    var s0, s1 := Start(Tiny(v), fill), Pushed(Slot(1, [v]), 1, [Claim(0, 0)]);
    var s2 := Pushed(Slot(2, [v]), 2, [Claim(0, 0), Claim(0, 1)]);
    assert s0.slots[0].fields == [fill] && s0.slots == [Slot(0, [fill])] && s0.workers == [Idle] && s0.claimed == [0];
    assert s0 == Pushed(Slot(0, [fill]), 0, []);
    PushOnce(v, Slot(0, [fill]), 0, []);
    PushOnce(v, Slot(1, [v]), 1, [Claim(0, 0)]);
    ReachesJoin(Tiny(v), s0, ONCE, s1, ONCE, s2);
    OneSlot(0);
    assert Stuck(Tiny(v), s2);
  }
}
