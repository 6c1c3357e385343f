/** The ring in pinned memory through which any number of shard workers hand records to one
    consumer.  A worker claims a ticket, writes the fields of its record into the ticket's slot
    and publishes the slot's tag; the consumer waits for the tag of its next ticket and reads.
    The code has no test for a full ring: that no claim runs a capacity ahead of the consumer
    is a condition on runs. */
module TicketRing {
  import opened Arith

  datatype Slot<V> = Slot(tag: nat, fields: seq<V>)

  datatype Worker = Idle | Writing(ticket: nat, done: nat)

  /** Who took a ticket, and for which of its records. */
  datatype Claim = Claim(worker: nat, index: nat)

  /** `size` fields to a record, `records[w]` what worker w pushes, in its order. */
  datatype Config<V> = Config(cap: nat, size: nat, records: seq<seq<seq<V>>>)

  /** claims lists the tickets in order and claimed counts them for each worker; no step reads them. */
  datatype Sys<V> = Sys(
    slots: seq<Slot<V>>, head: nat, workers: seq<Worker>, claimed: seq<nat>, claims: seq<Claim>,
    next: nat, reading: seq<V>, delivered: seq<seq<V>>)

  datatype Step =
    | TakeTicket(w: nat)  // fetch_add on ring_head
    | WriteField(w: nat)  // one field of the record
    | Publish(w: nat)     // seq_done = ticket + 1
    | ReadField           // consumer, once the tag of its ticket is there
    | Deliver             // consumer: record complete, on to the next ticket

  predicate Sound<V>(c: Config<V>) {
    c.cap >= 1 && forall w, i :: 0 <= w < |c.records| && 0 <= i < |c.records[w]| ==> |c.records[w][i]| == c.size
  }

  predicate Shaped<V>(c: Config<V>, s: Sys<V>) {
    && Sound(c) && |s.slots| == c.cap && |s.workers| == |s.claimed| == |c.records| && s.head == |s.claims|
    && (forall i :: 0 <= i < c.cap ==> |s.slots[i].fields| == c.size)
    && (forall w :: 0 <= w < |c.records| ==> s.claimed[w] <= |c.records[w]|)
    && (forall w :: 0 <= w < |c.records| && s.workers[w].Writing? ==> s.claimed[w] >= 1)
  }

  /** Slot of a ticket: ticket & mask. */
  function Place(ticket: nat, cap: nat): (r: nat)
    requires cap >= 1
    ensures r < cap
  {
    ticket % cap
  }

  predicate Ready<V>(c: Config<V>, s: Sys<V>)
    requires Shaped(c, s)
  {
    s.slots[Place(s.next, c.cap)].tag == s.next + 1
  }

  predicate Enabled<V>(c: Config<V>, s: Sys<V>, st: Step)
    requires Shaped(c, s)
  {
    match st
    case TakeTicket(w) => w < |c.records| && s.workers[w].Idle? && s.claimed[w] < |c.records[w]|
    case WriteField(w) => w < |c.records| && s.workers[w].Writing? && s.workers[w].done < c.size
    case Publish(w) => w < |c.records| && s.workers[w].Writing? && s.workers[w].done == c.size
    case ReadField => Ready(c, s) && |s.reading| < c.size
    case Deliver => Ready(c, s) && |s.reading| == c.size
  }

  function Apply<V>(c: Config<V>, s: Sys<V>, st: Step): Sys<V>
    requires Shaped(c, s) && Enabled(c, s, st)
  {
    match st
    case TakeTicket(w) =>
      s.(head := s.head + 1, workers := s.workers[w := Writing(s.head, 0)],
         claimed := s.claimed[w := s.claimed[w] + 1], claims := s.claims + [Claim(w, s.claimed[w])])
    case WriteField(w) =>
      var Writing(t, j) := s.workers[w];
      var x := Place(t, c.cap);
      var v := c.records[w][s.claimed[w] - 1][j];
      s.(slots := s.slots[x := s.slots[x].(fields := s.slots[x].fields[j := v])],
         workers := s.workers[w := Writing(t, j + 1)])
    case Publish(w) =>
      var t := s.workers[w].ticket;
      var x := Place(t, c.cap);
      s.(slots := s.slots[x := s.slots[x].(tag := t + 1)], workers := s.workers[w := Idle])
    case ReadField =>
      s.(reading := s.reading + [s.slots[Place(s.next, c.cap)].fields[|s.reading|]])
    case Deliver => s.(next := s.next + 1, reading := [], delivered := s.delivered + [s.reading])
  }

  /** The condition on a claim: its slot is not that of a record the consumer still has to read. */
  predicate InTime<V>(c: Config<V>, s: Sys<V>, st: Step) {
    st.TakeTicket? ==> s.head < s.next + c.cap
  }

  /** The claims of one worker are its records in its own order. */
  predicate ClaimOk<V>(c: Config<V>, claimed: seq<nat>, k: Claim) {
    k.worker < |c.records| && k.worker < |claimed| && k.index < claimed[k.worker] && k.index < |c.records[k.worker]|
  }

  function RecordOf<V>(c: Config<V>, k: Claim): seq<V>
    requires k.worker < |c.records| && k.index < |c.records[k.worker]|
  {
    c.records[k.worker][k.index]
  }

  /** Is ticket t still being written, and how far? */
  predicate WrittenBy<V>(s: Sys<V>, t: nat, w: nat) {
    w < |s.workers| && s.workers[w].Writing? && s.workers[w].ticket == t
  }

  ghost predicate ClaimsOk<V>(c: Config<V>, s: Sys<V>)
    requires Shaped(c, s)
  {
    && (forall t :: 0 <= t < |s.claims| ==> ClaimOk(c, s.claimed, s.claims[t]))
    && (forall t, u :: 0 <= t < u < |s.claims| && s.claims[t].worker == s.claims[u].worker ==>
      s.claims[t].index < s.claims[u].index)
    && (forall w :: 0 <= w < |c.records| && s.workers[w].Writing? ==>
          var t := s.workers[w].ticket;
          s.next <= t < s.head && s.claims[t] == Claim(w, s.claimed[w] - 1) && s.workers[w].done <= c.size)
  }

  /** Between consumer and head each slot holds its ticket's record, as far as it was written, and
      carries the ticket's tag exactly when the record is published. */
  ghost predicate SlotOk<V>(c: Config<V>, s: Sys<V>, t: nat)
    requires Shaped(c, s) && t < |s.claims| && ClaimOk(c, s.claimed, s.claims[t])
  {
    var slot, r := s.slots[Place(t, c.cap)], RecordOf(c, s.claims[t]);
    var w := s.claims[t].worker;
    if WrittenBy(s, t, w) then
      slot.tag <= t && s.workers[w].done <= c.size && forall j :: 0 <= j < s.workers[w].done ==> slot.fields[j] == r[j]
    else slot.tag == t + 1 && slot.fields == r
  }

  ghost predicate Inv<V>(c: Config<V>, s: Sys<V>) {
    && Shaped(c, s)
    && s.next <= s.head <= s.next + c.cap
    && ClaimsOk(c, s)
    && (forall t :: s.next <= t < s.head ==> SlotOk(c, s, t))
    && (forall x :: 0 <= x < c.cap ==> s.slots[x].tag <= s.head)
    && |s.reading| <= c.size && (s.reading != [] ==> s.next < s.head && Ready(c, s))
    && (forall j :: 0 <= j < |s.reading| ==> s.reading[j] == RecordOf(c, s.claims[s.next])[j])
    && |s.delivered| == s.next
    && (forall t :: 0 <= t < s.next ==> s.delivered[t] == RecordOf(c, s.claims[t]))
  }

  lemma OwnSlot(t: nat, u: nat, next: nat, cap: nat)
    requires cap >= 1 && next <= t < next + cap && next <= u < next + cap && t != u
    ensures Place(t, cap) != Place(u, cap)
  {
    if t < u { Apart(t, u, cap); } else { Apart(u, t, cap); }
  }

  lemma StepTake<V>(c: Config<V>, s: Sys<V>, w: nat)
    requires Inv(c, s) && Enabled(c, s, TakeTicket(w)) && InTime(c, s, TakeTicket(w))
    ensures Inv(c, Apply(c, s, TakeTicket(w)))
  {
    hide Place;
    var s' := Apply(c, s, TakeTicket(w));
    forall t | s'.next <= t < s'.head ensures SlotOk(c, s', t) {
      if t < s.head {
        assert SlotOk(c, s, t);
      }
    }
  }

  lemma StepWrite<V>(c: Config<V>, s: Sys<V>, w: nat)
    requires Inv(c, s) && Enabled(c, s, WriteField(w))
    ensures Inv(c, Apply(c, s, WriteField(w)))
  {
    var s', t := Apply(c, s, WriteField(w)), s.workers[w].ticket;
    forall u | s.next <= u < s.head && u != t
      ensures Place(u, c.cap) != Place(t, c.cap)
    {
      OwnSlot(t, u, s.next, c.cap);
    }
    hide Place;
    forall u | s'.next <= u < s'.head ensures SlotOk(c, s', u) { assert SlotOk(c, s, u); }
  }

  lemma StepPublish<V>(c: Config<V>, s: Sys<V>, w: nat)
    requires Inv(c, s) && Enabled(c, s, Publish(w))
    ensures Inv(c, Apply(c, s, Publish(w)))
  {
    var s', t := Apply(c, s, Publish(w)), s.workers[w].ticket;
    forall u | s.next <= u < s.head && u != t
      ensures Place(u, c.cap) != Place(t, c.cap)
    {
      OwnSlot(t, u, s.next, c.cap);
    }
    hide Place;
    forall u | s'.next <= u < s'.head ensures SlotOk(c, s', u) { assert SlotOk(c, s, u); }
  }

  lemma StepConsumer<V>(c: Config<V>, s: Sys<V>, st: Step)
    requires Inv(c, s) && (st.ReadField? || st.Deliver?) && Enabled(c, s, st)
    ensures Inv(c, Apply(c, s, st))
  {
    hide Place;
    assert s.next < s.head;
    assert SlotOk(c, s, s.next);
    var s' := Apply(c, s, st);
    forall t | s'.next <= t < s'.head ensures SlotOk(c, s', t) { assert SlotOk(c, s, t); }
  }

  function Start<V>(c: Config<V>, fill: V): Sys<V>
    requires c.cap >= 1
  {
    Sys(seq(c.cap, _ => Slot(0, seq(c.size, _ => fill))), 0, seq(|c.records|, _ => Idle), seq(|c.records|, _ => 0), [],
      0, [], [])
  }

  /** Runs whose claims are all in time. */
  ghost predicate Leads<V(!new)>(c: Config<V>, s: Sys<V>, steps: seq<Step>, t: Sys<V>)
    decreases |steps|
  {
    if steps == [] then s == t
    else
      && Shaped(c, s) && Enabled(c, s, steps[0]) && InTime(c, s, steps[0])
      && Leads(c, Apply(c, s, steps[0]), steps[1..], t)
  }

  lemma {:induction false} RunInv<V(!new)>(c: Config<V>, s: Sys<V>, steps: seq<Step>, t: Sys<V>)
    requires Inv(c, s) && Leads(c, s, steps, t)
    ensures Inv(c, t)
    decreases |steps|
  {
    hide Inv, Enabled, Apply;
    if steps == [] {
    } else {
      match steps[0] {
        case TakeTicket(w) => StepTake(c, s, w);
        case WriteField(w) => StepWrite(c, s, w);
        case Publish(w) => StepPublish(c, s, w);
        case ReadField => StepConsumer(c, s, steps[0]);
        case Deliver => StepConsumer(c, s, steps[0]);
      }
      RunInv(c, Apply(c, s, steps[0]), steps[1..], t);
    }
  }

  /** What the consumer got is the first `next` tickets' records, each whole and once, in ticket
      order; a worker's records come in its own order; and when no worker is in the middle of a
      record the consumer is never kept waiting for a claimed ticket. */
  lemma RunsDeliver<V(!new)>(c: Config<V>, fill: V, steps: seq<Step>, s: Sys<V>)
    requires Sound(c) && Leads(c, Start(c, fill), steps, s)
    ensures s.next <= |s.claims| && |s.delivered| == s.next
    ensures forall t :: 0 <= t < |s.claims| ==> ClaimOk(c, s.claimed, s.claims[t])
    ensures forall t :: 0 <= t < s.next ==>
      ClaimOk(c, s.claimed, s.claims[t]) && s.delivered[t] == RecordOf(c, s.claims[t])
    ensures forall t, u :: 0 <= t < u < |s.claims| && s.claims[t].worker == s.claims[u].worker ==>
      s.claims[t].index < s.claims[u].index
    ensures Shaped(c, s)
    ensures s.next < s.head && (forall w :: 0 <= w < |s.workers| ==> s.workers[w].Idle?) ==>
      Enabled(c, s, ReadField) || Enabled(c, s, Deliver)
  {
    RunInv(c, Start(c, fill), steps, s);
    if s.next < s.head { assert SlotOk(c, s, s.next); }
  }
}
