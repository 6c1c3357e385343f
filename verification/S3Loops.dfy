/** One pass of the sum thread, as its loops run it: a stretch of steps of the machine, taken
    without ever waiting, after which the thread has nothing left to do until somebody else acts. */
module S3Loops {
  import opened Ownership
  import opened S3Machine
  import opened S3Invariant
  import opened S3Runs
  import opened S3Progress
  import opened ShardedLayer

  lemma SaneStep(c: Config, s: Sys, st: Step)
    requires Sane(c, s) && Enabled(c, s, st)
    ensures Sane(c, Apply(c, s, st))
  {
    hide Shards, Find;
  }

  /** The run so far, with one more step. */
  ghost predicate Running(c: Config, s0: Sys, steps: seq<Step>, s: Sys) {
    Sane(c, s) && Leads(c, s0, steps, s)
  }

  lemma More(c: Config, s0: Sys, steps: seq<Step>, s: Sys, st: Step)
    requires Running(c, s0, steps, s) && Enabled(c, s, st)
    ensures Running(c, s0, steps + [st], Apply(c, s, st))
  {
    SaneStep(c, s, st);
    LeadsAppend(c, s0, steps, s, st);
  }

  /** A pass that takes no step changes nothing. */
  ghost predicate Counted(done: seq<Step>, s1: Sys, steps: seq<Step>, s: Sys) {
    |done| <= |steps| && (|done| == |steps| ==> s == s1)
  }

  /** while (q_meta_l0->try_pop(m0)) */
  method DrainMeta(c: Config, s0: Sys, ghost done: seq<Step>, s1: Sys) returns (s: Sys, ghost steps: seq<Step>)
    requires Running(c, s0, done, s1)
    ensures Counted(done, s1, steps, s)
    ensures Running(c, s0, steps, s) && s.meta.live == []
    ensures |s.pending.zero| == |s1.pending.zero| + |s1.meta.live|
      && s.pending.zero[..|s1.pending.zero|] == s1.pending.zero
  {
    s, steps := s1, done;
    while s.meta.live != []
      invariant Counted(done, s1, steps, s)
      invariant Running(c, s0, steps, s)
      invariant |s.pending.zero| + |s.meta.live| == |s1.pending.zero| + |s1.meta.live|
      invariant |s1.pending.zero| <= |s.pending.zero| && s.pending.zero[..|s1.pending.zero|] == s1.pending.zero
      decreases |s.meta.live|
    {
      More(c, s0, steps, s, S3Machine.DrainMeta);
      s, steps := Apply(c, s, S3Machine.DrainMeta), steps + [S3Machine.DrainMeta];
    }
  }

  /** Every deferred partial is tried once. */
  method RetryDeferred(c: Config, l: nat, s0: Sys, ghost done: seq<Step>, s1: Sys)
      returns (s: Sys, ghost steps: seq<Step>)
    requires Running(c, s0, done, s1) && l <= 1
    ensures Counted(done, s1, steps, s)
    ensures Running(c, s0, steps, s)
    ensures forall part :: part in s.deferred.Get(l) ==> Find(s.pending.Get(l), part.id) == |s.pending.Get(l)|
  {
    s, steps := s1, done;
    var todo := s.deferred.Get(l);
    while todo != {}
      invariant Counted(done, s1, steps, s)
      invariant Running(c, s0, steps, s) && todo <= s.deferred.Get(l)
      invariant forall part :: part in s.deferred.Get(l) && part !in todo ==>
        Find(s.pending.Get(l), part.id) == |s.pending.Get(l)|
      decreases |todo|
    {
      var part :| part in todo;
      todo := todo - {part};
      if Find(s.pending.Get(l), part.id) < |s.pending.Get(l)| {
        More(c, s0, steps, s, Retry(l, part));
        forall id
          ensures Find(s.pending.Get(l), id) == Find(Apply(c, s, Retry(l, part)).pending.Get(l), id)
        {
          FindSame(c, s.pending.Get(l), part, id);
        }
        s, steps := Apply(c, s, Retry(l, part)), steps + [Retry(l, part)];
      }
    }
  }

  /** Adding a partial to an entry does not move entries. */
  lemma FindSame(c: Config, ps: seq<Pending>, part: Partial, id: nat)
    requires Find(ps, part.id) < |ps|
    ensures var t := Find(ps, part.id); Find(ps[t := AddPartial(c.net, ps[t], part)], id) == Find(ps, id)
  {
    var t := Find(ps, part.id);
    var ps' := ps[t := AddPartial(c.net, ps[t], part)];
    FindFirst(ps, id, Find(ps', id));
    FindFirst(ps', id, Find(ps, id));
  }

  /** Find is the first hit, or the length. */
  lemma FindFirst(ps: seq<Pending>, id: nat, t: nat)
    requires t <= |ps| && (t < |ps| ==> ps[t].PendingEvent? && ps[t].id == id)
    ensures Find(ps, id) <= t || t == |ps|
  {
  }

  /** Partials of every shard, layer 0 and then layer 1, until the rings are empty. */
  method DrainPartials(c: Config, s0: Sys, ghost done: seq<Step>, s1: Sys) returns (s: Sys, ghost steps: seq<Step>)
    requires Running(c, s0, done, s1)
    ensures Counted(done, s1, steps, s)
    ensures Running(c, s0, steps, s)
    ensures forall k :: 0 <= k < c.n ==> s.shards[k].output.zero.live == [] && s.shards[k].output.one.live == []
  {
    s, steps := s1, done;
    for k := 0 to c.n
      invariant Counted(done, s1, steps, s)
      invariant Running(c, s0, steps, s)
      invariant forall i :: 0 <= i < k ==> s.shards[i].output.zero.live == [] && s.shards[i].output.one.live == []
    {
      s, steps := DrainRing(c, k, 0, s0, steps, s);
      s, steps := DrainRing(c, k, 1, s0, steps, s);
    }
  }

  method DrainRing(c: Config, k: nat, l: nat, s0: Sys, ghost done: seq<Step>, s1: Sys)
      returns (s: Sys, ghost steps: seq<Step>)
    requires Running(c, s0, done, s1) && k < c.n && l <= 1
    ensures Counted(done, s1, steps, s)
    ensures Running(c, s0, steps, s) && s.shards[k].output.Get(l).live == []
    ensures s.shards[k].output.Get(1 - l) == s1.shards[k].output.Get(1 - l)
    ensures forall i :: 0 <= i < c.n && i != k ==> s.shards[i] == s1.shards[i]
  {
    s, steps := s1, done;
    while s.shards[k].output.Get(l).live != []
      invariant Counted(done, s1, steps, s)
      invariant Running(c, s0, steps, s)
      invariant s.shards[k].output.Get(1 - l) == s1.shards[k].output.Get(1 - l)
      invariant forall i :: 0 <= i < c.n && i != k ==> s.shards[i] == s1.shards[i]
      decreases |s.shards[k].output.Get(l).live|
    {
      More(c, s0, steps, s, DrainPartial(k, l));
      s, steps := Apply(c, s, DrainPartial(k, l)), steps + [DrainPartial(k, l)];
    }
  }

  /** The entry at the front still misses partials. */
  predicate Incomplete(ps: seq<Pending>) {
    ps != [] ==> ps[0].PendingEvent? && ps[0].received < ps[0].expected
  }

  /** Pending entries leave from the front until one is incomplete. */
  method CascadeAll(c: Config, l: nat, s0: Sys, ghost done: seq<Step>, s1: Sys) returns (s: Sys, ghost steps: seq<Step>)
    requires Running(c, s0, done, s1) && l <= 1
    ensures Counted(done, s1, steps, s)
    ensures Running(c, s0, steps, s) && Incomplete(s.pending.Get(l))
    ensures s.shards == s1.shards && s.stages == s1.stages && s.meta == s1.meta && s.deferred == s1.deferred
    ensures l == 1 ==> s.pending.zero == s1.pending.zero && s.dispatch == s1.dispatch
  {
    s, steps := s1, done;
    while s.pending.Get(l) != []
      invariant Counted(done, s1, steps, s)
      invariant Running(c, s0, steps, s)
      invariant s.shards == s1.shards && s.stages == s1.stages && s.meta == s1.meta && s.deferred == s1.deferred
      invariant l == 1 ==> s.pending.zero == s1.pending.zero && s.dispatch == s1.dispatch
      decreases |s.pending.Get(l)|
    {
      var q := s.pending.Get(l)[0];
      if q.PendingEvent? && q.received < q.expected { break; }
      More(c, s0, steps, s, Cascade(l));
      s, steps := Apply(c, s, Cascade(l)), steps + [Cascade(l)];
    }
  }

  /** Layer-1 work goes out to the shards in the order of the events, as far as there is room. */
  method DispatchAll(c: Config, s0: Sys, ghost done: seq<Step>, s1: Sys) returns (s: Sys, ghost steps: seq<Step>)
    requires Running(c, s0, done, s1)
    ensures Counted(done, s1, steps, s)
    ensures Running(c, s0, steps, s)
    ensures s.pending == s1.pending && s.outbox == s1.outbox && s.stages == s1.stages
    ensures s.dispatch != [] ==> Blocked(c, s)
  {
    s, steps := s1, done;
    while s.dispatch != []
      invariant Counted(done, s1, steps, s)
      invariant Running(c, s0, steps, s)
      invariant s.pending == s1.pending && s.outbox == s1.outbox && s.stages == s1.stages
      decreases |s.dispatch|
    {
      var blocked;
      s, blocked, steps := DeliverFront(c, s0, steps, s);
      if blocked { break; }
      More(c, s0, steps, s, Retire);
      s, steps := Apply(c, s, Retire), steps + [Retire];
    }
  }

  /** A shard the oldest dispatch still has to reach has a full ring. */
  ghost predicate Blocked(c: Config, s: Sys)
    requires Sane(c, s) && s.dispatch != []
  {
    exists k :: 0 <= k < c.n && k in Shards(c, s.dispatch[0].at) - s.dispatch[0].delivered
      && |s.shards[k].input.one.live| >= c.cap
  }

  method DeliverFront(c: Config, s0: Sys, ghost done: seq<Step>, s1: Sys)
      returns (s: Sys, blocked: bool, ghost steps: seq<Step>)
    requires Running(c, s0, done, s1) && s1.dispatch != []
    ensures Counted(done, s1, steps, s)
    ensures Running(c, s0, steps, s) && |s.dispatch| == |s1.dispatch|
    ensures s.pending == s1.pending && s.outbox == s1.outbox && s.stages == s1.stages
    ensures if blocked then Blocked(c, s) else Shards(c, s.dispatch[0].at) <= s.dispatch[0].delivered
  {
    hide Shards, PatchMask;
    s, steps, blocked := s1, done, false;
    ShardBound(c, s1.dispatch[0].at);
    for k := 0 to c.n
      invariant Counted(done, s1, steps, s)
      invariant Running(c, s0, steps, s) && |s.dispatch| == |s1.dispatch| && s.dispatch[0].at == s1.dispatch[0].at
      invariant s.pending == s1.pending && s.outbox == s1.outbox && s.stages == s1.stages
      invariant forall i: nat :: i < k && i in Shards(c, s.dispatch[0].at) ==> i in s.dispatch[0].delivered
    {
      if k !in Shards(c, s.dispatch[0].at) { continue; }
      if k in s.dispatch[0].delivered { continue; }
      if |s.shards[k].input.one.live| < c.cap {
        More(c, s0, steps, s, Deliver(k));
        s, steps := Apply(c, s, Deliver(k)), steps + [Deliver(k)];
      } else {
        blocked := true;
        return;
      }
    }
  }

  /** The outbox goes to the stage ring as far as there is room. */
  method ShipAll(c: Config, s0: Sys, ghost done: seq<Step>, s1: Sys) returns (s: Sys, ghost steps: seq<Step>)
    requires Running(c, s0, done, s1)
    ensures Counted(done, s1, steps, s)
    ensures Running(c, s0, steps, s) && (s.outbox == [] || |s.stages.live| >= c.cap)
    ensures s.pending == s1.pending && s.dispatch == s1.dispatch && s.shards == s1.shards
  {
    s, steps := s1, done;
    while s.outbox != []
      invariant Counted(done, s1, steps, s)
      invariant Running(c, s0, steps, s)
      invariant s.pending == s1.pending && s.dispatch == s1.dispatch && s.shards == s1.shards
      decreases |s.outbox|
    {
      if |s.stages.live| >= c.cap { break; }
      More(c, s0, steps, s, Ship);
      s, steps := Apply(c, s, Ship), steps + [Ship];
    }
  }

  /** The sum thread has nothing to do: its rings are empty, no deferred partial has an entry, both
      fronts are incomplete, and what is to be sent has no room. */
  ghost predicate SumIdle(c: Config, s: Sys)
    requires Sane(c, s)
  {
    && s.meta.live == []
    && (forall l: nat, part :: l <= 1 && part in s.deferred.Get(l) ==>
      Find(s.pending.Get(l), part.id) == |s.pending.Get(l)|)
    && (forall k :: 0 <= k < c.n ==> s.shards[k].output.zero.live == [] && s.shards[k].output.one.live == [])
    && Incomplete(s.pending.zero) && Incomplete(s.pending.one)
    && (s.dispatch != [] ==> Blocked(c, s))
    && (s.outbox != [] ==> |s.stages.live| >= c.cap)
  }

  /** The body of the sum thread's loop, from any reachable state: a run of the machine that ends,
      whatever the rings hold; it leaves no complete entry behind, holds dispatches or stage
      messages back only for want of room, and does nothing only when there is nothing to do. */
  method SumPass(c: Config, s0: Sys, ghost done: seq<Step>, s1: Sys) returns (s: Sys, ghost steps: seq<Step>)
    requires Running(c, s0, done, s1)
    ensures Counted(done, s1, steps, s)
    ensures Running(c, s0, steps, s)
    ensures Incomplete(s.pending.zero) && Incomplete(s.pending.one)
    ensures s.dispatch != [] ==> Blocked(c, s)
    ensures s.outbox == [] || |s.stages.live| >= c.cap
    ensures |steps| == |done| ==> SumIdle(c, s1)
  {
    hide Sane, Leads, Find, Shards;
    s, steps := DrainMeta(c, s0, done, s1);
    ghost var drained := s;
    s, steps := RetryDeferred(c, 0, s0, steps, s);
    s, steps := RetryDeferred(c, 1, s0, steps, s);
    s, steps := DrainPartials(c, s0, steps, s);
    s, steps := CascadeAll(c, 0, s0, steps, s);
    s, steps := DispatchAll(c, s0, steps, s);
    ghost var before := s;
    s, steps := CascadeAll(c, 1, s0, steps, s);
    assert s.dispatch != [] ==> Blocked(c, s) by { if before.dispatch != [] { assert Blocked(c, before); } }
    before := s;
    s, steps := ShipAll(c, s0, steps, s);
    assert s.dispatch != [] ==> Blocked(c, s) by { if before.dispatch != [] { assert Blocked(c, before); } }
  }

  /** Steps of the sum thread. */
  predicate SumStep(st: Step) {
    st.DrainMeta? || st.DrainPartial? || st.Retry? || st.Cascade? || st.Deliver? || st.Retire? || st.Ship?
  }

  /** With the partial rings empty a shard that cannot step has nothing in hand and no work. */
  lemma IdleShard(c: Config, s: Sys, k: nat)
    requires Sane(c, s) && c.cap >= 1 && SumIdle(c, s) && k < c.n
    requires s.shards[k].hold.Some? ==> s.shards[k].hold.value.layer <= 1
    requires !Enabled(c, s, Emit(k)) && !Enabled(c, s, Compute(k, 0)) && !Enabled(c, s, Compute(k, 1))
    ensures Quiet(s.shards[k])
  {
    hide Find, Shards, Blocked, Incomplete;
  }

  lemma IdleStep(c: Config, s: Sys, st: Step)
    requires Sane(c, s) && SumIdle(c, s) && SumStep(st) && s.dispatch == [] && s.outbox == []
    ensures !Enabled(c, s, st)
  {
    hide Find, Shards, Blocked;
  }

  /** A full ring is not empty: with all shards quiet nothing is left to dispatch. */
  lemma NothingBlocked(c: Config, s: Sys)
    requires Sane(c, s) && c.cap >= 1 && SumIdle(c, s) && s.stages.live == [] && forall k :: 0 <= k < c.n ==>
      Quiet(s.shards[k])
    ensures s.dispatch == [] && s.outbox == []
  {
    hide Find, Shards;
  }

  /** The loops do not get stuck either, although a pass stops looking at the first shard without
      room: when a pass does nothing and no other thread can take a step, no step at all is left, and
      by RunsFinish the run is over. */
  lemma IdleIsStuck(c: Config, steps: seq<Step>, s: Sys)
    requires Good(c) && Live(c) && Leads(c, Start(c), steps, s) && Sane(c, s) && SumIdle(c, s)
    requires forall st: Step :: !SumStep(st) ==> !Enabled(c, s, st)
    ensures Stuck(c, s)
  {
    hide Leads, SumIdle, Inv, Fit, Numbered, RowOk;
    forall k | 0 <= k < c.n ensures Quiet(s.shards[k]) {
      HoldBound(c, steps, s, k);
      IdleShard(c, s, k);
    }
    assert !Enabled(c, s, Consume);
    NothingBlocked(c, s);
    forall st: Step | SumStep(st) ensures !Enabled(c, s, st) { IdleStep(c, s, st); }
  }

  lemma HoldBound(c: Config, steps: seq<Step>, s: Sys, k: nat)
    requires Good(c) && Leads(c, Start(c), steps, s) && k < c.n
    ensures |s.shards| == c.n && (s.shards[k].hold.Some? ==> s.shards[k].hold.value.layer <= 1)
  {
    var p := PlanOf(c);
    GoodIsReady(c);
    StartInv(c, p);
    RunInv(c, p, Start(c), steps, s);
    hide Leads, PlanOf, LayerOk, PlaneOk, DispatchOk, StageOk, BackOk, ProducerOk, Fit, Numbered, RowOk;
    HoldLayer(p.d, s.shards, Sent0(c.n, s.issued, s.hand), k);
  }

  /** thread_stages: messages of the stage ring, until it is empty. */
  method StagesPass(c: Config, s0: Sys, ghost done: seq<Step>, s1: Sys) returns (s: Sys, ghost steps: seq<Step>)
    requires Running(c, s0, done, s1)
    ensures Counted(done, s1, steps, s)
    ensures Running(c, s0, steps, s) && s.stages.live == []
  {
    s, steps := s1, done;
    while s.stages.live != []
      invariant Counted(done, s1, steps, s)
      invariant Running(c, s0, steps, s)
      decreases |s.stages.live|
    {
      More(c, s0, steps, s, Consume);
      s, steps := Apply(c, s, Consume), steps + [Consume];
    }
  }
}
