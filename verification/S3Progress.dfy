/** The sharded scheme never gets stuck and never runs on for ever. */
module S3Progress {
  import opened Commands
  import opened Sums
  import opened ShardedLayer
  import opened Rings
  import opened S3Machine
  import opened S3Invariant

  /** Every wait comes right behind its marker; any ring capacity will do. */
  predicate Live(c: Config) {
    c.cap >= 1 && WaitsMarked(c.program)
  }

  ghost predicate Stuck(c: Config, s: Sys)
    requires Sane(c, s)
  {
    forall st: Step :: !Enabled(c, s, st)
  }

  ghost predicate Quiet(sh: Shard) {
    && sh.hold.None?
    && sh.input.zero.live == [] && sh.input.one.live == []
    && sh.output.zero.live == [] && sh.output.one.live == []
  }

  /** Nothing is left to do anywhere. */
  ghost predicate Finished(c: Config, s: Sys) {
    && s.pc == |c.program| && s.hand.None? && s.meta.live == []
    && (forall k :: 0 <= k < |s.shards| ==> Quiet(s.shards[k]))
    && s.pending == Two([], []) && s.deferred == Two({}, {})
    && s.dispatch == [] && s.outbox == [] && s.stages.live == []
  }

  /** A stuck system has empty rings: whoever could push or pop would. */
  lemma StuckShard(c: Config, s: Sys, k: nat)
    requires Sane(c, s) && Stuck(c, s) && c.cap >= 1 && k < c.n
    requires s.shards[k].hold.Some? ==> s.shards[k].hold.value.layer <= 1
    ensures Quiet(s.shards[k])
  {
    assert !Enabled(c, s, DrainPartial(k, 0)) && !Enabled(c, s, DrainPartial(k, 1));
    assert !Enabled(c, s, Emit(k));
    assert !Enabled(c, s, Compute(k, 0)) && !Enabled(c, s, Compute(k, 1));
  }

  lemma StuckRings(c: Config, s: Sys)
    requires Sane(c, s) && Stuck(c, s) && c.cap >= 1
    requires forall k :: 0 <= k < c.n ==> Quiet(s.shards[k])
    ensures s.stages.live == [] && s.outbox == [] && s.meta.live == [] && s.hand.None? && s.dispatch == []
  {
    hide Shards;
    assert !Enabled(c, s, Consume) && !Enabled(c, s, Ship) && !Enabled(c, s, DrainMeta) && !Enabled(c, s, PushWork)
      && !Enabled(c, s, Retire);
    if s.dispatch != [] {
      var d := s.dispatch[0];
      var k :| k in Shards(c, d.at) && k !in d.delivered;
      assert !Enabled(c, s, Deliver(k));
      ShardBound(c, d.at);
    }
  }

  /** With every shard quiet, all that was sent has come back. */
  lemma QuietGot(d: Feed, l: nat, shards: seq<Shard>, sent: seq<int>, k: nat)
    requires Fit(d) && l <= 1 && k < d.n && RowOk(d, l, shards, sent) && Quiet(shards[k])
    ensures 0 <= sent[k] <= |d.jobs| && Got(shards, l)[k] == |Route(d, k, sent[k])|
  {
    hide Fit, WorkOf, PartOf, Route;
    assert ShardOk(d, l, k, shards[k], sent[k]);
  }

  /** Then the front of a pending list is complete or has a deferred partial to take ... */
  lemma FrontReady(c: Config, p: Plan, l: nat, base: int, ps: seq<Pending>, deferred: set<Partial>, got: seq<nat>,
      e: nat)
    requires Ready(c, p) && l <= 1 && LayerOk(p, l, base, ps, deferred, got) && ps != []
    requires Events(p.es, base + |ps|) <= e <= |p.d.jobs|
    requires forall k: nat :: k < p.d.n ==> got[k] == |Route(p.d, k, e)|
    requires forall part :: part in deferred ==> Find(ps, part.id) == |ps|
    ensures ps[0].PendingEvent? ==> ps[0].received >= ps[0].expected
  {
    hide Fit, Additive, PlanOf, Piece, Pieces, Feature, DeferredOk, FinalOk, EarlyOk, Pick, Route, Routed;
    var q, x := ps[0], p.es[base];
    assert EntryOk(p.d, l, got, deferred, x, q);
    if q.PendingEvent? {
      assert Find(ps, q.id) == 0;
      EventsMonotone(p.es, base + 1, base + |ps|);
      RoutedBound(p.d, q.id);
      forall k | k in Routed(p.d, q.id) ensures k in q.from {
        RoutePrefix(p.d, k, q.id + 1, e);
        assert |Route(p.d, k,
          q.id)| < got[k] by { assert Route(p.d, k, q.id + 1)
          == Route(p.d, k, q.id) + [q.id] by { RouteOne(p.d, k, q.id); } }
      }
      assert q.from == Routed(p.d, q.id);
    }
  }

  lemma RouteOne(d: Feed, k: nat, e: nat)
    requires Fit(d) && e < |d.jobs| && k in Routed(d, e)
    ensures Route(d, k, e + 1) == Route(d, k, e) + [e]
  {
  }

  /** ... and a deferred partial has an entry to go to. */
  lemma NoneDeferred(p: Plan, l: nat, base: int, deferred: set<Partial>, got: seq<nat>, e: nat)
    requires Fit(p.d) && Numbered(p) && l <= 1 && LayerOk(p, l, base, [], deferred, got)
    requires Events(p.es, base) == e <= |p.d.jobs|
    requires forall k: nat :: k < p.d.n ==> got[k] == |Route(p.d, k, e)|
    ensures deferred == {}
  {
    hide Fit, Piece, Routed, FinalOk, EarlyOk, Route;
    if part :| part in deferred { RoutePrefix(p.d, part.shard, e, part.id); }
  }

  /** No deadlock: a reachable system in which no thread can take a step has finished. */
  lemma StuckIsFinished(c: Config, p: Plan, s: Sys)
    requires Ready(c, p) && Live(c) && Inv(c, p, s) && Stuck(c, s)
    ensures Finished(c, s)
  {
    hide Fit, Additive, Numbered, PlanOf, ShardOk, LayerOk, PlaneOk, StageOk, BackOk, ProducerOk;
    forall k | 0 <= k < c.n ensures Quiet(s.shards[k]) {
      HoldLayer(p.d, s.shards, Sent0(c.n, s.issued, s.hand), k);
      StuckShard(c, s, k);
    }
    StuckRings(c, s);
    StuckSum(c, p, s);
    StuckProducer(c, p, s);
  }

  lemma HoldLayer(d: Feed, shards: seq<Shard>, sent: seq<int>, k: nat)
    requires Fit(d) && RowOk(d, 0, shards, sent) && k < d.n
    ensures shards[k].hold.Some? ==> shards[k].hold.value.layer <= 1
  {
    assert ShardOk(d, 0, k, shards[k], sent[k]);
  }

  /** Events planned and retired when nothing is in flight. */
  lemma QuietCounts(c: Config, p: Plan, s: Sys)
    requires Ready(c, p) && Inv(c, p, s) && s.meta.live == [] && s.hand.None? && s.dispatch == []
    requires forall k :: 0 <= k < c.n ==> Quiet(s.shards[k])
    ensures Sane(c, s) && |Got(s.shards, 0)| == |Got(s.shards, 1)| == p.d.n == c.n && s.issued <= |p.d.jobs|
    ensures LayerOk(p, 0, Base(s, 0), s.pending.zero, s.deferred.zero, Got(s.shards, 0))
    ensures LayerOk(p, 1, Base(s, 1), s.pending.one, s.deferred.one, Got(s.shards, 1))
    ensures 0 <= Base(s, 0) && Base(s, 0) + |s.pending.zero| == s.meta.popped <= |p.es|
      && Events(p.es, s.meta.popped) == s.issued
    ensures 0 <= Base(s, 1) && Base(s, 1) + |s.pending.one| == Base(s, 0)
    ensures forall k: nat :: k < c.n ==> Got(s.shards, 0)[k] == |Route(p.d, k, s.issued)|
    ensures Events(p.es, Base(s, 0)) <= |p.d.jobs|
    ensures forall k: nat :: k < c.n ==> Got(s.shards, 1)[k] == |Route(p.d, k, Events(p.es, Base(s, 0)))|
  {
    hide Fit, Additive, Numbered, PlaneOk, StageOk, BackOk, RowOk, FinalOk, EarlyOk, DeferredOk, EntryOk, Quiet, Route;
    PlanPrefix(c, s.pc, |c.program|);
    PlanNumbered(c, s.pc);
    EventsOfPrefix(Entries(c, s.pc), p.es, |Entries(c, s.pc)|);
    forall k: nat | k < c.n
      ensures Got(s.shards, 0)[k] == |Route(p.d, k, s.issued)|
      ensures Got(s.shards, 1)[k] == |Route(p.d, k, Events(p.es, Base(s, 0)))|
    {
      QuietGot(p.d, 0, s.shards, Sent0(c.n, s.issued, s.hand), k);
      QuietGot(p.d, 1, s.shards, Sent1(c.n, Released(p.es, Base(s, 0), s.dispatch), s.dispatch), k);
    }
  }

  lemma StuckLists(c: Config, s: Sys, l: nat, ps: seq<Pending>, deferred: set<Partial>)
    requires Sane(c, s) && Stuck(c, s) && l <= 1 && ps == s.pending.Get(l) && deferred == s.deferred.Get(l)
    ensures forall part :: part in deferred ==> Find(ps, part.id) == |ps|
    ensures ps != [] ==> ps[0].PendingEvent? && ps[0].received < ps[0].expected
  {
    forall part | part in deferred ensures Find(ps, part.id) == |ps| { assert !Enabled(c, s, Retry(l, part)); }
    assert !Enabled(c, s, Cascade(l));
  }

  /** With nothing in flight and no step to take, a layer has no pending entry and no deferred partial. */
  lemma StuckLayer(c: Config, p: Plan, l: nat, base: int, ps: seq<Pending>, deferred: set<Partial>, got: seq<nat>,
      e: nat)
    requires Ready(c, p) && l <= 1 && LayerOk(p, l, base, ps, deferred, got)
      && Events(p.es, base + |ps|) == e <= |p.d.jobs|
    requires forall k: nat :: k < p.d.n ==> got[k] == |Route(p.d, k, e)|
    requires forall part :: part in deferred ==> Find(ps, part.id) == |ps|
    requires ps != [] ==> ps[0].PendingEvent? && ps[0].received < ps[0].expected
    ensures ps == [] && deferred == {}
  {
    hide Fit, Additive, Numbered, PlanOf, LayerOk, Route, Events, Find;
    if ps != [] { FrontReady(c, p, l, base, ps, deferred, got, e); }
    NoneDeferred(p, l, base, deferred, got, e);
  }

  lemma StuckSum(c: Config, p: Plan, s: Sys)
    requires Ready(c, p) && Inv(c, p, s) && Stuck(c, s)
    requires forall k :: 0 <= k < c.n ==> Quiet(s.shards[k])
    requires s.meta.live == [] && s.hand.None? && s.dispatch == []
    ensures s.pending == Two([], []) && s.deferred == Two({}, {})
  {
    hide *;
    QuietCounts(c, p, s);
    SumLists(c, s);
    StuckLayer(c, p, 0, Base(s, 0), s.pending.zero, s.deferred.zero, Got(s.shards, 0), s.issued);
    StuckLayer(c, p, 1, Base(s, 1), s.pending.one, s.deferred.one, Got(s.shards, 1), Events(p.es, Base(s, 0)));
  }

  lemma SumLists(c: Config, s: Sys)
    requires Sane(c, s) && Stuck(c, s)
    ensures forall part :: part in s.deferred.zero ==> Find(s.pending.zero, part.id) == |s.pending.zero|
    ensures s.pending.zero != [] ==>
      s.pending.zero[0].PendingEvent? && s.pending.zero[0].received < s.pending.zero[0].expected
    ensures forall part :: part in s.deferred.one ==> Find(s.pending.one, part.id) == |s.pending.one|
    ensures s.pending.one != [] ==>
      s.pending.one[0].PendingEvent? && s.pending.one[0].received < s.pending.one[0].expected
  {
    hide Stuck, Find;
    StuckLists(c, s, 0, s.pending.zero, s.deferred.zero);
    StuckLists(c, s, 1, s.pending.one, s.deferred.one);
  }

  /** A wait right behind its marker passes once the stage thread has taken everything. */
  lemma StuckProducer(c: Config, p: Plan, s: Sys)
    requires Ready(c, p) && Live(c) && Inv(c, p, s) && Stuck(c, s)
    requires s.meta.live == [] && s.hand.None? && s.outbox == [] && s.stages.live == [] && s.pending == Two([], [])
    ensures s.pc == |c.program|
  {
    hide Fit, Additive, Numbered, PlaneOk, LayerOk, RowOk, DispatchOk;
    if s.pc < |c.program| {
      assert !Enabled(c, s, SkipEvent) && !Enabled(c, s, PushEvent) && !Enabled(c, s, PushMarker)
        && !Enabled(c, s, PassWait);
      assert c.program[s.pc].Wait? && c.program[s.pc - 1].Mark?;
      PlanPrefix(c, s.pc, |c.program|);
    }
  }
}
