/** Each step of the sum thread keeps the invariant. */
module S3SumSteps {
  import opened Ownership
  import opened ShardedLayer
  import opened Rings
  import opened S3Machine
  import opened S3Invariant
  import opened S3Layers
  import opened S3Steps

  lemma StepDrainMeta(c: Config, p: Plan, s: Sys)
    requires Ready(c, p) && Inv(c, p, s) && Enabled(c, s, DrainMeta)
    ensures Inv(c, p, Apply(c, s, DrainMeta))
  {
    hide Fit, Additive, LayerOk, PlaneOk, DispatchOk, StageOk, BackOk, RowOk, Affected, Feature;
    var e, q := s.meta.live[0], Apply(c, s, DrainMeta).pending.zero[|s.pending.zero|];
    assert e == p.es[s.meta.popped + 0];
    MetaFresh(c, p, s.meta.popped, q);
    LayerAppend(p, 0, Base(s, 0), s.pending.zero, s.deferred.zero, Got(s.shards, 0), q);
  }

  lemma MetaFresh(c: Config, p: Plan, t: nat, q: Pending)
    requires Ready(c, p) && t < |p.es|
    requires match p.es[t]
      case MarkerEntry(m) => q == PendingMarker(m)
      case EventEntry(id, job) =>
        q == PendingEvent(id, job.at, |Affected(job.at.x, c.net.grid.w, c.n)|, 0, job.feat, c.net.zero, {})
    ensures Fresh(p.d, 0, p.es[t], q)
  {
    hide Additive, Affected;
  }

  /** The partial at the head of an output ring is due. */
  lemma NextPartial(d: Feed, l: nat, k: nat, shards: seq<Shard>, sent: seq<int>)
    requires Fit(d) && l <= 1 && k < d.n && RowOk(d, l, shards, sent) && shards[k].output.Get(l).live != []
    ensures shards[k].output.Get(l).live[0].shard == k && Due(d, l, Got(shards, l), shards[k].output.Get(l).live[0])
  {
    hide Fit, Piece, InputOk, Routed;
    var r := shards[k].output.Get(l);
    assert ShardOk(d, l, k, shards[k], sent[k]);
    assert r.live[0] == PartOf(d, l, k, r.popped + 0);
    RouteMember(d, k, |d.jobs|, r.popped);
  }

  lemma DrainRow(d: Feed, m: nat, l: nat, k: nat, shards: seq<Shard>, sent: seq<int>)
    requires Fit(d) && l <= 1 && m <= 1 && k < d.n && RowOk(d, m, shards, sent) && shards[k].output.Get(l).live != []
    ensures RowOk(d, m, shards[k := shards[k].(output := shards[k].output.Set(l, shards[k].output.Get(l).Pop()))], sent)
  {
    hide Fit, Route, PartOf, WorkOf, InputOk;
    assert ShardOk(d, m, k, shards[k], sent[k]);
  }

  /** Pending lists and deferred sets after a partial was popped. */
  lemma Drained(p: Plan, l: nat, base: int, ps: seq<Pending>, deferred: set<Partial>, got: seq<nat>, part: Partial)
    requires Fit(p.d) && Additive(p.d) && Numbered(p) && l <= 1 && LayerOk(p, l, base, ps, deferred, got)
      && Due(p.d, l, got, part)
    ensures Find(ps, part.id) == |ps| ==>
      LayerOk(p, l, base, ps, deferred + {part}, got[part.shard := got[part.shard] + 1])
    ensures var t := Find(ps, part.id);
      t < |ps| ==> LayerOk(p, l, base, ps[t := AddPartial(p.d.net, ps[t], part)], deferred,
        got[part.shard := got[part.shard] + 1])
  {
    hide Fit, LayerOk, Additive, Numbered, Routed, Route, Piece;
    if Find(ps, part.id) == |ps| {
      LayerDefer(p, l, base, ps, deferred, got, part);
    } else {
      LayerMatch(p, l, base, ps, deferred, got, part);
    }
  }

  lemma StepDrainPartial(c: Config, p: Plan, s: Sys, k: nat, l: nat)
    requires Ready(c, p) && Inv(c, p, s) && Enabled(c, s, DrainPartial(k, l))
    ensures Inv(c, p, Apply(c, s, DrainPartial(k, l)))
  {
    hide Fit, Numbered, Additive, LayerOk, PlaneOk, DispatchOk, StageOk, BackOk, ProducerOk, RowOk, Due, Events;
    var sent0, sent1 := Sent0(c.n, s.issued, s.hand), Sent1(c.n, Released(p.es, Base(s, 0), s.dispatch), s.dispatch);
    hide Released, Sent0, Sent1;
    var sh, part := s.shards[k], s.shards[k].output.Get(l).live[0];
    NextPartial(p.d, l, k, s.shards, if l == 0 then sent0 else sent1);
    DrainRow(p.d, 0, l, k, s.shards, sent0);
    DrainRow(p.d, 1, l, k, s.shards, sent1);
    Drained(p, l, Base(s, l), s.pending.Get(l), s.deferred.Get(l), Got(s.shards, l), part);
    var sh' := sh.(output := sh.output.Set(l, sh.output.Get(l).Pop()));
    Recount(s.shards, k, sh', 0);
    Recount(s.shards, k, sh', 1);
    hide Done, Got;
  }

  lemma StepRetry(c: Config, p: Plan, s: Sys, l: nat, part: Partial)
    requires Ready(c, p) && Inv(c, p, s) && Enabled(c, s, Retry(l, part))
    ensures Inv(c, p, Apply(c, s, Retry(l, part)))
  {
    hide Fit, Numbered, Additive, LayerOk, PlaneOk, DispatchOk, StageOk, BackOk, ProducerOk, RowOk, Events;
    LayerRetry(p, l, Base(s, l), s.pending.Get(l), s.deferred.Get(l), Got(s.shards, l), part);
  }

  /** The front of pending list l is this entry of the plan, complete and with the right sum. */
  ghost predicate Complete(p: Plan, l: nat, base: int, q: Pending)
    requires Fit(p.d) && Numbered(p) && l <= 1
  {
    && 0 <= base < |p.es|
    && (p.es[base].EventEntry? ==>
          && q.PendingEvent? && p.es[base].id == q.id == Events(p.es, base) < |p.d.jobs| && q.at == p.d.jobs[q.id].at
          && p.d.net.layers(l).finish(q.residual, q.sum) == Output(p.d, l, q.id))
    && (p.es[base].MarkerEntry? ==> q == PendingMarker(p.es[base].seqNo))
  }

  /** The entry that layer 0 hands to layer 1 ... */
  lemma OnwardIsFresh(c: Config, p: Plan, base: int, q: Pending)
    requires Ready(c, p) && Complete(p, 0, base, q)
    ensures Fresh(p.d, 1, p.es[base], Onward(c, q))
  {
    hide Additive, Affected, Output, Numbered;
  }

  /** ... and the dispatch that goes with it. */
  lemma Dispatched(c: Config, p: Plan, base: int, q: Pending, ds: seq<Dispatch>)
    requires Ready(c, p) && Complete(p, 0, base, q) && DispatchOk(p.d, Released(p.es, base, ds), ds)
    ensures var ds' := ds + Dispatches(c, q);
      && Released(p.es, base + 1, ds') == Released(p.es, base, ds)
      && DispatchOk(p.d, Released(p.es, base, ds), ds')
      && Sent1(c.n, Released(p.es, base, ds), ds') == Sent1(c.n, Released(p.es, base, ds), ds)
  {
    hide Fit, Additive, Numbered, Output, Routed;
    assert Events(p.es, base + 1) == Events(p.es, base) + if p.es[base].EventEntry? then 1 else 0;
  }

  /** The front of a pending list is complete when the sum thread lets it go. */
  lemma FrontComplete(c: Config, p: Plan, s: Sys, l: nat)
    requires Ready(c, p) && Inv(c, p, s) && Enabled(c, s, Cascade(l))
    ensures l <= 1 && s.pending.Get(l) != [] && 0 <= Base(s, l) && Base(s, l) + |s.pending.Get(l)| <= |p.es|
    ensures LayerOk(p, l, Base(s, l) + 1, s.pending.Get(l)[1..], s.deferred.Get(l), Got(s.shards, l))
    ensures Complete(p, l, Base(s, l), s.pending.Get(l)[0])
    ensures Apply(c, s, Cascade(l)) == DoCascade(c, s, l)
  {
    hide Fit, Numbered, Additive, PlanOf, PlaneOk, DispatchOk, StageOk, BackOk, RowOk, ProducerOk, EntryOk, DoCascade,
      Output;
    LayerPop(p, l, Base(s, l), s.pending.Get(l), s.deferred.Get(l), Got(s.shards, l));
  }

  /** What a cascade leaves alone, and how far each list has come after it. */
  lemma CascadeFrame(c: Config, s: Sys, l: nat)
    requires Sane(c, s) && l <= 1 && s.pending.Get(l) != []
    ensures var s' := DoCascade(c, s, l);
      && Sane(c, s') && Base(s', 0) == Base(s, 0) + (if l == 0 then 1 else 0) && Base(s', 1) == Base(s, 1) + l
      && s' == s.(pending := s'.pending, dispatch := s'.dispatch, outbox := s'.outbox)
      && (l == 0 ==> s'.pending == Two(s.pending.zero[1..], s.pending.one + [Onward(c, s.pending.zero[0])])
                     && s'.dispatch == s.dispatch + Dispatches(c, s.pending.zero[0]) && s'.outbox == s.outbox)
      && (l == 1 ==> s'.pending == Two(s.pending.zero, s.pending.one[1..])
                     && s'.dispatch == s.dispatch && s'.outbox == s.outbox + [Outgoing(c, s.pending.one[0])])
  {
  }

  lemma StepCascade0(c: Config, p: Plan, s: Sys)
    requires Ready(c, p) && Inv(c, p, s) && Enabled(c, s, Cascade(0))
    ensures Inv(c, p, Apply(c, s, Cascade(0)))
  {
    hide Fit, Additive, LayerOk, PlaneOk, DispatchOk, StageOk, BackOk, RowOk, ProducerOk, Affected, Fresh, Output,
      Numbered;
    hide Onward, Dispatches, Events, Released, Got, Done, Sent0, Sent1, Apply, Enabled, Complete, PlanOf, DoCascade;
    FrontComplete(c, p, s, 0);
    CascadeFrame(c, s, 0);
    hide Base, Ready, Sane;
    var base, q := Base(s, 0), s.pending.zero[0];
    OnwardIsFresh(c, p, base, q);
    LayerAppend(p, 1, Base(s, 1), s.pending.one, s.deferred.one, Got(s.shards, 1), Onward(c, q));
    Dispatched(c, p, base, q, s.dispatch);
  }

  lemma OutboxAppend(c: Config, p: Plan, base: int, r: Ring<StageMsg>, outbox: seq<StageMsg>, q: Pending)
    requires Ready(c, p) && StageOk(p, base, r, outbox) && Complete(p, 1, base, q)
    ensures StageOk(p, base + 1, r, outbox + [Outgoing(c, q)])
  {
    hide Fit, Output, Additive;
  }

  lemma StepCascade1(c: Config, p: Plan, s: Sys)
    requires Ready(c, p) && Inv(c, p, s) && Enabled(c, s, Cascade(1))
    ensures Inv(c, p, Apply(c, s, Cascade(1)))
  {
    hide Fit, Additive, LayerOk, PlaneOk, DispatchOk, StageOk, BackOk, RowOk, ProducerOk, Affected, Output, Numbered;
    hide Outgoing, Events, Released, Got, Done, Sent0, Sent1, Apply, Enabled, Complete, PlanOf, DoCascade;
    FrontComplete(c, p, s, 1);
    CascadeFrame(c, s, 1);
    hide Base, Ready, Sane;
    OutboxAppend(c, p, Base(s, 1), s.stages, s.outbox, s.pending.one[0]);
  }

  lemma StepDeliver(c: Config, p: Plan, s: Sys, k: nat)
    requires Ready(c, p) && Inv(c, p, s) && Enabled(c, s, Deliver(k))
    ensures Inv(c, p, Apply(c, s, Deliver(k)))
  {
    hide Fit, Numbered, Additive, LayerOk, PlaneOk, StageOk, BackOk, RowOk, ProducerOk, Affected, Output, Events;
    var released := Released(p.es, Base(s, 0), s.dispatch);
    var sent0, sent1, s' := Sent0(c.n, s.issued, s.hand), Sent1(c.n, released, s.dispatch), Apply(c, s, Deliver(k));
    assert s.dispatch[0].id == released + 0;
    SendTo(p.d, 1, k, s.shards, sent1, sent0, released);
    assert Released(p.es, Base(s', 0), s'.dispatch) == released;
    assert Sent1(c.n, released, s'.dispatch) == sent1[k := released + 1];
  }

  /** A job that does not concern a shard needs no work. */
  lemma RetireRow(d: Feed, l: nat, shards: seq<Shard>, sent: seq<int>, sent': seq<int>, e: nat)
    requires Fit(d) && l <= 1 && e < |d.jobs| && RowOk(d, l, shards, sent) && |sent'| == |sent|
    requires forall k :: 0 <= k < |sent| ==>
      sent'[k] == sent[k] || (sent[k] == e && k !in Routed(d, e) && sent'[k] == e + 1)
    ensures RowOk(d, l, shards, sent')
  {
    hide Fit, InputOk, OutputOk, Routed;
    forall k | 0 <= k < d.n ensures ShardOk(d, l, k, shards[k], sent'[k]) {
      assert ShardOk(d, l, k, shards[k], sent[k]);
      if sent'[k] != sent[k] { SendOne(d, l, k, shards[k].input.Get(l), e); }
    }
  }

  lemma StepRetire(c: Config, p: Plan, s: Sys)
    requires Ready(c, p) && Inv(c, p, s) && Enabled(c, s, Retire)
    ensures Inv(c, p, Apply(c, s, Retire))
  {
    hide Fit, Numbered, Additive, LayerOk, PlaneOk, StageOk, BackOk, RowOk, ProducerOk, Affected, Output, Events;
    var released, s' := Released(p.es, Base(s, 0), s.dispatch), Apply(c, s, Retire);
    assert Released(p.es, Base(s', 0), s'.dispatch) == released + 1;
    var sent, sent' := Sent1(c.n, released, s.dispatch), Sent1(c.n, released + 1, s'.dispatch);
    forall k | 0 <= k < c.n
      ensures sent'[k] == sent[k] || (sent[k] == released && k !in Routed(p.d, released) && sent'[k] == released + 1)
    {}
    RetireRow(p.d, 1, s.shards, sent, sent', released);
  }
}
