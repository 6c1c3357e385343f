/** Each step of each thread keeps the invariant.  Every lemma about a part of it names only
    the fields that part is about; the lemma of a step then puts the parts together. */
module S3Steps {
  import opened Geometry
  import opened Network
  import opened Sequential
  import opened Commands
  import opened Ownership
  import opened ShardedLayer
  import opened Rings
  import opened S3Machine
  import opened S3Invariant

  // ---- producer ----

  lemma ProducerIdle(c: Config, p: Plan, s: Sys)
    requires ProducerOk(c, p, s.pc, s.issued, s.lastT, s.hand, s.meta) && Next(c, s)
    requires c.program[s.pc].Wait? || (c.program[s.pc].Push? && !InSensor(c, c.program[s.pc].e))
    ensures ProducerOk(c, p, s.pc + 1, s.issued, s.lastT, s.hand, s.meta)
  {
  }

  lemma ProducerMarks(c: Config, p: Plan, s: Sys)
    requires Ready(c, p) && Next(c, s) && ProducerOk(c, p, s.pc, s.issued, s.lastT, s.hand, s.meta)
    requires c.program[s.pc].Mark?
    ensures ProducerOk(c, p, s.pc + 1, s.issued, s.lastT, None, s.meta.Push(MarkerEntry(SeqNo(c.program, s.pc))))
  {
    hide Fit, Numbered, Additive;
    PlanPrefix(c, s.pc + 1, |c.program|);
  }

  lemma ProducerSends(c: Config, p: Plan, s: Sys)
    requires Ready(c, p) && Next(c, s) && ProducerOk(c, p, s.pc, s.issued, s.lastT, s.hand, s.meta)
    requires c.program[s.pc].Push? && InSensor(c, c.program[s.pc].e)
    ensures var e := c.program[s.pc].e;
      var job := Job(At(e), InputFeat(c.net, s.lastT, e));
      ProducerOk(c, p, s.pc + 1, s.issued + 1, Stamp(s.lastT, e), Some(Hand(s.issued, job, 0)),
        s.meta.Push(EventEntry(s.issued, job)))
  {
    hide Fit, Numbered, Additive, InputFeat, InSensor, Jobs, Entries, LastTAt, Stamp;
    PlanPrefix(c, s.pc + 1, |c.program|);
    var e := c.program[s.pc].e;
    var job := Job(At(e), InputFeat(c.net, s.lastT, e));
    PlanPush(c, s.pc, e);
    assert p.es[|Entries(c, s.pc)|] == EventEntry(s.issued, job);
  }

  /** What one pushed event adds to the plan. */
  lemma PlanPush(c: Config, i: nat, e: Event)
    requires i < |c.program| && c.program[i] == Push(e) && InSensor(c, e)
    ensures var job := Job(At(e), InputFeat(c.net, LastTAt(c, i), e));
      && Jobs(c, i + 1) == Jobs(c, i) + [job]
      && Entries(c, i + 1) == Entries(c, i) + [EventEntry(|Jobs(c, i)|, job)]
      && LastTAt(c, i + 1) == Stamp(LastTAt(c, i), e)
  {
    hide InputFeat, InSensor, Stamp;
  }

  lemma StepSkip(c: Config, p: Plan, s: Sys)
    requires Ready(c, p) && Inv(c, p, s) && Enabled(c, s, SkipEvent)
    ensures Inv(c, p, Apply(c, s, SkipEvent))
  {
    hide Fit, Numbered, Additive, PlanOf, ProducerOk, LayerOk, PlaneOk, RowOk, DispatchOk, StageOk, BackOk;
    ProducerIdle(c, p, s);
  }

  lemma StepWait(c: Config, p: Plan, s: Sys)
    requires Ready(c, p) && Inv(c, p, s) && Enabled(c, s, PassWait)
    ensures Inv(c, p, Apply(c, s, PassWait))
  {
    hide Fit, Numbered, Additive, PlanOf, ProducerOk, LayerOk, PlaneOk, RowOk, DispatchOk, StageOk, BackOk;
    ProducerIdle(c, p, s);
  }

  lemma StepPushMarker(c: Config, p: Plan, s: Sys)
    requires Ready(c, p) && Inv(c, p, s) && Enabled(c, s, PushMarker)
    ensures Inv(c, p, Apply(c, s, PushMarker))
  {
    hide Fit, Numbered, Additive, PlanOf, ProducerOk, LayerOk, PlaneOk, RowOk, DispatchOk, StageOk, BackOk;
    ProducerMarks(c, p, s);
  }

  lemma StepPushEvent(c: Config, p: Plan, s: Sys)
    requires Ready(c, p) && Inv(c, p, s) && Enabled(c, s, PushEvent)
    ensures Inv(c, p, Apply(c, s, PushEvent))
  {
    hide Fit, Numbered, Additive, PlanOf, ProducerOk, LayerOk, PlaneOk, RowOk, DispatchOk, StageOk, BackOk;
    ProducerSends(c, p, s);
    var s' := Apply(c, s, PushEvent);
    assert Sent0(c.n, s'.issued, s'.hand) == Sent0(c.n, s.issued, s.hand);
  }

  /** One more job sent: the ring gains its work exactly if the shard is concerned. */
  lemma SendOne(d: Feed, l: nat, k: nat, r: Ring<Work>, e: nat)
    requires Fit(d) && l <= 1 && e < |d.jobs| && InputOk(d, l, k, r, e)
    ensures k !in Routed(d, e) ==> InputOk(d, l, k, r, e + 1)
    ensures k in Routed(d, e) ==>
      InputOk(d, l, k, r.Push(Work(e, d.jobs[e].at, Feature(d, l, e), Own(d, k, e))), e + 1)
  {
    hide Fit, Feature, Own, Routed;
    RoutePrefix(d, k, e + 1, |d.jobs|);
    if k in Routed(d, e) { RouteRank(d, k, e); }
  }

  /** The same inside the array of shards; nobody else's account changes. */
  lemma SendTo(d: Feed, l: nat, k: nat, shards: seq<Shard>, sent: seq<int>, other: seq<int>, e: nat)
    requires Fit(d) && l <= 1 && k < d.n && e < |d.jobs|
    requires RowOk(d, l, shards, sent) && RowOk(d, 1 - l, shards, other) && sent[k] == e
    ensures k !in Routed(d, e) ==> RowOk(d, l, shards, sent[k := e + 1])
    ensures k in Routed(d, e) ==>
      var r := shards[k].input.Get(l).Push(Work(e, d.jobs[e].at, Feature(d, l, e), Own(d, k, e)));
      var shards' := shards[k := shards[k].(input := shards[k].input.Set(l, r))];
      && RowOk(d, l, shards', sent[k := e + 1]) && RowOk(d, 1 - l, shards', other)
      && Done(shards', 0) == Done(shards, 0) && Done(shards', 1) == Done(shards, 1)
      && Got(shards', 0) == Got(shards, 0) && Got(shards', 1) == Got(shards, 1)
  {
    hide InputOk, OutputOk, Fit;
    assert ShardOk(d, l, k, shards[k], sent[k]) && ShardOk(d, 1 - l, k, shards[k], other[k]);
    SendOne(d, l, k, shards[k].input.Get(l), e);
  }

  lemma HandMoves(c: Config, p: Plan, s: Sys, h: Hand)
    requires ProducerOk(c, p, s.pc, s.issued, s.lastT, Some(h), s.meta)
    ensures 0 < s.issued <= |p.d.jobs| && h.id == s.issued - 1 && h.job == p.d.jobs[h.id]
    ensures ProducerOk(c, p, s.pc, s.issued, s.lastT, None, s.meta)
    ensures ProducerOk(c, p, s.pc, s.issued, s.lastT, Some(Hand(h.id, h.job, h.next + 1)), s.meta)
  {
  }

  lemma StepPushWork(c: Config, p: Plan, s: Sys)
    requires Ready(c, p) && Inv(c, p, s) && Enabled(c, s, PushWork)
    ensures Inv(c, p, Apply(c, s, PushWork))
  {
    hide Fit, Numbered, Additive, LayerOk, PlaneOk, RowOk, DispatchOk, StageOk, BackOk, ProducerOk;
    var s', h := Apply(c, s, PushWork), s.hand.value;
    HandMoves(c, p, s, h);
    SendTo(p.d, 0, h.next, s.shards, Sent0(c.n, s.issued, s.hand),
      Sent1(c.n, Released(p.es, Base(s, 0), s.dispatch), s.dispatch), h.id);
    assert Sent0(c.n, s'.issued, s'.hand) == Sent0(c.n, s.issued, s.hand)[h.next := h.id + 1];
  }

  // ---- shards ----

  /** Taking the next piece of work keeps a hidden cell on plan... */
  lemma CellStep(d: Feed, l: nat, k: nat, h: Plane, done: seq<nat>, e: nat, cell: Cell)
    requires Fit(d) && l <= 1 && k < |done| && CellOk(d, l, h, done, cell)
    requires e < |d.jobs| && k in Routed(d, e) && done[k] == |Route(d, k, e)|
    ensures CellOk(d, l, ShardRefresh(d.net.layers(l), d.net.grid, Own(d, k, e), d.jobs[e].at, Feature(d, l, e), h),
                   done[k := done[k] + 1], cell)
  {
    hide Fit, Own, Feature, NextHid, Touches, PositionOf, Writer;
    RouteRank(d, k, e);
    var ly, g, own, ev, f := d.net.layers(l), d.net.grid, Own(d, k, e), d.jobs[e].at, Feature(d, l, e);
    var h' := ShardRefresh(ly, g, own, ev, f, h);
    assert h'(cell) == ShardHid(ly, g, own, ev, f, h, cell);
    if Writer(d, l, cell) == k {
      assert ShardPlane(d, l, k, done[k] + 1)(cell) == ShardHid(ly, g, own, ev, f, ShardPlane(d, l, k, done[k]), cell);
    } else if Touches(ly, g, ev, cell) && PositionOf(ly, ev, cell) in own {
      PositionIsSpot(ly, g, ev, cell);
      OwnedIsWritten(d, l, e, k, PositionOf(ly, ev, cell));
    }
  }

  /** ... all of them ... */
  lemma ComputePlane(d: Feed, l: nat, k: nat, h: Plane, done: seq<nat>, e: nat)
    requires Fit(d) && l <= 1 && k < |done| && PlaneOk(d, l, h, done)
    requires e < |d.jobs| && k in Routed(d, e) && done[k] == |Route(d, k, e)|
    ensures PlaneOk(d, l, ShardRefresh(d.net.layers(l), d.net.grid, Own(d, k, e), d.jobs[e].at, Feature(d, l, e), h),
      done[k := done[k] + 1])
  {
    hide Fit, Own, Feature, CellOk, ShardHid;
    var h' := ShardRefresh(d.net.layers(l), d.net.grid, Own(d, k, e), d.jobs[e].at, Feature(d, l, e), h);
    var done' := done[k := done[k] + 1];
    forall cell: Cell ensures CellOk(d, l, h', done', cell) {
      CellStep(d, l, k, h, done, e, cell);
    }
  }

  /** ... and makes the planned partial. */
  lemma ComputePart(d: Feed, l: nat, k: nat, h: Plane, done: seq<nat>, e: nat)
    requires Fit(d) && l <= 1 && k < |done| && PlaneOk(d, l, h, done)
    requires e < |d.jobs| && k in Routed(d, e) && done[k] == |Route(d, k, e)|
    ensures ShardGather(d.net, d.net.layers(l), d.net.grid, Own(d, k, e), d.jobs[e].at, Feature(d, l, e), h,
      Positions(d.net.layers(l)))
         == Piece(d, l, e, k)
  {
    hide Fit, Own, Feature, Piece, ShardPlane;
    RouteRank(d, k, e);
    var ly, own, ev := d.net.layers(l), Own(d, k, e), d.jobs[e].at;
    var mine := ShardPlane(d, l, k, done[k]);
    forall q: nat | q < Positions(ly) && q in own && InGrid(d.net.grid, Spot(ly, ev, q))
      ensures h(Spot(ly, ev, q)) == mine(Spot(ly, ev, q))
    {
      OwnedIsWritten(d, l, e, k, q);
      assert CellOk(d, l, h, done, Spot(ly, ev, q));
    }
    ShardGatherLocal(d.net, ly, d.net.grid, own, ev, Feature(d, l, e), h, mine, Positions(ly));
    PartialIsPiece(d, l, k, e);
  }

  /** The shard's own rings across the pop... */
  lemma TakeOk(d: Feed, m: nat, k: nat, l: nat, shards: seq<Shard>, sent: seq<int>, part: Partial)
    requires Fit(d) && l <= 1 && m <= 1 && k < d.n && RowOk(d, m, shards, sent)
    requires shards[k].hold.None? && shards[k].input.Get(l).live != []
    requires m == l ==>
      shards[k].input.Get(l).popped < |Route(d, k, |d.jobs|)| && part == PartOf(d, l, k, shards[k].input.Get(l).popped)
    ensures var sh := shards[k];
      var sh' := Shard(sh.input.Set(l, sh.input.Get(l).Pop()), sh.output, Some(Held(l, part)));
      RowOk(d, m, shards[k := sh'], sent)
  {
    hide Fit, WorkOf, PartOf, Route;
    assert ShardOk(d, m, k, shards[k], sent[k]);
  }

  lemma StepCompute(c: Config, p: Plan, s: Sys, k: nat, l: nat)
    requires Ready(c, p) && Inv(c, p, s) && Enabled(c, s, Compute(k, l))
    ensures Inv(c, p, Apply(c, s, Compute(k, l)))
  {
    hide Fit, Numbered, Additive, LayerOk, PlaneOk, DispatchOk, StageOk, BackOk, ProducerOk, RowOk;
    hide Route, Feature, Own, Piece, PartOf, ShardRefresh, ShardGather, Released, Sent0, Sent1, Events;
    var s' := Apply(c, s, Compute(k, l));
    Computed(p.d, c, s, k, l, Sent0(c.n, s.issued, s.hand),
      Sent1(c.n, Released(p.es, Base(s, 0), s.dispatch), s.dispatch));
  }

  /** Counters after one shard changed. */
  lemma Recount(shards: seq<Shard>, k: nat, sh: Shard, l: nat)
    requires k < |shards|
    ensures Done(shards[k := sh], l) == Done(shards, l)[k := sh.input.Get(l).popped]
    ensures Got(shards[k := sh], l) == Got(shards, l)[k := sh.output.Get(l).popped]
    ensures sh.input.Get(l).popped == shards[k].input.Get(l).popped ==> Done(shards[k := sh], l) == Done(shards, l)
    ensures sh.output.Get(l).popped == shards[k].output.Get(l).popped ==> Got(shards[k := sh], l) == Got(shards, l)
  {
  }

  lemma Computed(d: Feed, c: Config, s: Sys, k: nat, l: nat, sent0: seq<int>, sent1: seq<int>)
    requires Fit(d) && Sane(c, s) && Enabled(c, s, Compute(k, l)) && c.net == d.net && c.n == d.n
    requires RowOk(d, 0, s.shards, sent0) && RowOk(d, 1, s.shards, sent1)
    requires PlaneOk(d, 0, s.planes.zero, Done(s.shards, 0)) && PlaneOk(d, 1, s.planes.one, Done(s.shards, 1))
    ensures var s' := DoCompute(c, s, k, l);
      && RowOk(d, 0, s'.shards, sent0) && RowOk(d, 1, s'.shards, sent1)
      && PlaneOk(d, 0, s'.planes.zero, Done(s'.shards, 0)) && PlaneOk(d, 1, s'.planes.one, Done(s'.shards, 1))
      && Got(s'.shards, 0) == Got(s.shards, 0) && Got(s'.shards, 1) == Got(s.shards, 1)
  {
    hide Fit, PlaneOk, RowOk, Route, Feature, Own, Piece, PartOf, ShardRefresh, ShardGather, Affected;
    var sent, sh, done := if l == 0 then sent0 else sent1, s.shards[k], Done(s.shards, l);
    NextWork(d, l, k, s.shards, sent);
    var e := Route(d, k, |d.jobs|)[sh.input.Get(l).popped];
    ComputePlane(d, l, k, s.planes.Get(l), done, e);
    ComputePart(d, l, k, s.planes.Get(l), done, e);
    var h', part := ShardRefresh(d.net.layers(l), d.net.grid, Own(d, k, e), d.jobs[e].at, Feature(d, l, e),
      s.planes.Get(l)),
                    Partial(k, e, Piece(d, l, e, k));
    var sh' := Shard(sh.input.Set(l, sh.input.Get(l).Pop()), sh.output, Some(Held(l, part)));
    assert DoCompute(c, s, k, l) == s.(planes := s.planes.Set(l, h'), shards := s.shards[k := sh']);
    hide DoCompute, Enabled;
    TakeOk(d, 0, k, l, s.shards, sent0, part);
    TakeOk(d, 1, k, l, s.shards, sent1, part);
    Recount(s.shards, k, sh', 0);
    Recount(s.shards, k, sh', 1);
    hide Done, Got;
  }

  /** The message at the head of an input ring is the next one on the shard's route. */
  lemma NextWork(d: Feed, l: nat, k: nat, shards: seq<Shard>, sent: seq<int>)
    requires Fit(d) && l <= 1 && k < d.n && RowOk(d, l, shards, sent) && shards[k].input.Get(l).live != []
    ensures shards[k].input.Get(l).popped < |Route(d, k, |d.jobs|)|
    ensures var e := Route(d, k, |d.jobs|)[shards[k].input.Get(l).popped];
      && e < |d.jobs| && k in Routed(d, e) && |Route(d, k, e)| == shards[k].input.Get(l).popped
      && shards[k].input.Get(l).live[0] == Work(e, d.jobs[e].at, Feature(d, l, e), Own(d, k, e))
      && PartOf(d, l, k, shards[k].input.Get(l).popped) == Partial(k, e, Piece(d, l, e, k))
  {
    hide Fit, Feature, Own, Piece, OutputOk;
    var r := shards[k].input.Get(l);
    assert ShardOk(d, l, k, shards[k], sent[k]);
    assert r.live[0] == WorkOf(d, l, k, r.popped + 0);
    RouteMember(d, k, |d.jobs|, r.popped);
  }

  /** ... and across the push. */
  lemma GiveOk(d: Feed, m: nat, k: nat, shards: seq<Shard>, sent: seq<int>)
    requires Fit(d) && m <= 1 && k < d.n && RowOk(d, m, shards, sent) && shards[k].hold.Some?
    ensures var sh, h := shards[k], shards[k].hold.value;
      var sh' := sh.(output := sh.output.Set(h.layer, sh.output.Get(h.layer).Push(h.part)), hold := None);
      RowOk(d, m, shards[k := sh'], sent)
  {
    hide Fit, WorkOf, PartOf, Route, InputOk;
    assert ShardOk(d, m, k, shards[k], sent[k]);
  }

  lemma StepEmit(c: Config, p: Plan, s: Sys, k: nat)
    requires Ready(c, p) && Inv(c, p, s) && Enabled(c, s, Emit(k))
    ensures Inv(c, p, Apply(c, s, Emit(k)))
  {
    hide Fit, Numbered, Additive, LayerOk, PlaneOk, DispatchOk, StageOk, BackOk, ProducerOk, RowOk;
    var s' := Apply(c, s, Emit(k));
    GiveOk(p.d, 0, k, s.shards, Sent0(c.n, s.issued, s.hand));
    GiveOk(p.d, 1, k, s.shards, Sent1(c.n, Released(p.es, Base(s, 0), s.dispatch), s.dispatch));
    assert Done(s'.shards, 0) == Done(s.shards, 0) && Done(s'.shards, 1) == Done(s.shards, 1);
    assert Got(s'.shards, 0) == Got(s.shards, 0) && Got(s'.shards, 1) == Got(s.shards, 1);
  }

  // ---- stage thread ----

  lemma ShipOk(p: Plan, base: int, r: Ring<StageMsg>, outbox: seq<StageMsg>)
    requires Fit(p.d) && Numbered(p) && StageOk(p, base, r, outbox) && outbox != []
    ensures StageOk(p, base, r.Push(outbox[0]), outbox[1..])
  {
    hide Fit, Numbered, StageOf;
    assert outbox[0] == StageOf(p, r.Pushed() + 0);
  }

  lemma StepShip(c: Config, p: Plan, s: Sys)
    requires Ready(c, p) && Inv(c, p, s) && Enabled(c, s, Ship)
    ensures Inv(c, p, Apply(c, s, Ship))
  {
    hide Fit, Numbered, Additive, LayerOk, PlaneOk, DispatchOk, StageOk, BackOk, ProducerOk, RowOk;
    ShipOk(p, Base(s, 1), s.stages, s.outbox);
  }

  lemma ConsumeOk(c: Config, p: Plan, base: int, r: Ring<StageMsg>, outbox: seq<StageMsg>, back: State, markerDone: nat)
    requires Fit(p.d) && Numbered(p) && p.d.net == c.net && StageOk(p, base, r, outbox) && r.live != []
    requires BackOk(c, p, r.popped, back, markerDone)
    ensures StageOk(p, base, r.Pop(), outbox)
    ensures r.live[0].StageMarker? ==> BackOk(c, p, r.popped + 1, back, r.live[0].seqNo)
    ensures r.live[0].StageEvent? ==>
      BackOk(c, p, r.popped + 1, Leave(c.net, 0, back, r.live[0].at, r.live[0].feat), markerDone)
  {
    hide Fit, Numbered, Leave, Output;
    assert r.live[0] == StageOf(p, r.popped + 0);
  }

  lemma StepConsume(c: Config, p: Plan, s: Sys)
    requires Ready(c, p) && Inv(c, p, s) && Enabled(c, s, Consume)
    ensures Inv(c, p, Apply(c, s, Consume))
  {
    hide Fit, Numbered, Additive, LayerOk, PlaneOk, DispatchOk, StageOk, BackOk, ProducerOk, RowOk, Leave;
    ConsumeOk(c, p, Base(s, 1), s.stages, s.outbox, s.back, s.markerDone);
  }
}
