/** The threads of the sharded scheme as a state machine: a producer, n shards, the sum thread
    and the stage thread, over bounded rings.  Every interleaving is a sequence of steps; a
    thread that spins on a full or empty ring simply has no step to take. */
module S3Machine {
  import opened Geometry
  import opened Network
  import opened Sequential
  import opened Commands
  import opened Ownership
  import opened ShardedLayer
  import opened Rings

  datatype Config = Config(net: Net, n: nat, cap: nat, program: seq<Cmd>, init: State)

  /** Meta queue entry: an event with its input feature, or a marker.  Events are numbered in
      the order in which they are pushed. */
  datatype Entry = EventEntry(id: nat, job: Job) | MarkerEntry(seqNo: nat)

  datatype Work = Work(id: nat, at: Cell, feat: Feat, own: set<nat>)

  /** Partial sum of one shard.  `shard` records the shard it came from; no step reads it. */
  datatype Partial = Partial(shard: nat, id: nat, value: Feat)

  datatype Held = Held(layer: nat, part: Partial)

  /** A shard's four rings and the partial it is about to push. */
  datatype Shard = Shard(input: Two<Ring<Work>>, output: Two<Ring<Partial>>, hold: Option<Held>)

  /** Entry of pending_l0 or pending_l1.  `from` records whose partials are in; no step reads it. */
  datatype Pending =
    | PendingMarker(seqNo: nat)
    | PendingEvent(id: nat, at: Cell, expected: nat, received: nat, residual: Feat, sum: Feat, from: set<nat>)

  datatype Dispatch = Dispatch(id: nat, at: Cell, feat: Feat, delivered: set<nat>)

  datatype StageMsg = StageEvent(at: Cell, feat: Feat) | StageMarker(seqNo: nat)

  /** The producer inside push_one: the event it hands out and the next shard to look at. */
  datatype Hand = Hand(id: nat, job: Job, next: nat)

  /** planes are the two shared hidden arrays of stage 0; `back` is the stage thread's part of
      the pipeline, whose stage-0 planes are never used. */
  datatype Sys = Sys(
    pc: nat, issued: nat, lastT: Cell -> real, hand: Option<Hand>,
    meta: Ring<Entry>,
    shards: seq<Shard>,
    planes: Two<Plane>,
    pending: Two<seq<Pending>>,
    deferred: Two<set<Partial>>,
    dispatch: seq<Dispatch>,
    outbox: seq<StageMsg>,
    stages: Ring<StageMsg>,
    back: State,
    markerDone: nat)

  datatype Step =
    | SkipEvent                        // producer: event outside the sensor
    | PushEvent                        // producer: preprocess, then the event's meta
    | PushMarker                       // producer: marker meta
    | PushWork                         // producer: next shard of the current event
    | PassWait                         // producer: wait_marker returns
    | Compute(k: nat, layer: nat)      // shard: pop work, update hidden cells
    | Emit(k: nat)                     // shard: push the partial
    | DrainMeta                        // sum: meta to pending_l0
    | DrainPartial(k: nat, layer: nat) // sum: pop a partial, add or defer it
    | Retry(layer: nat, part: Partial) // sum: a deferred partial now matches
    | Cascade(layer: nat)              // sum: the front of a pending list is complete
    | Deliver(k: nat)                  // sum: layer-1 work of the oldest dispatch, to shard k
    | Retire                           // sum: the oldest dispatch is fully delivered
    | Ship                          // sum: outbox to the stage ring
    | Consume                          // stage thread: one message

  /** Position of an event in a pending list, or the list's length. */
  function Find(ps: seq<Pending>, id: nat): (t: nat)
    ensures t <= |ps|
    ensures t < |ps| ==> ps[t].PendingEvent? && ps[t].id == id
    ensures forall u :: 0 <= u < t ==> !(ps[u].PendingEvent? && ps[u].id == id)
  {
    if ps == [] || (ps[0].PendingEvent? && ps[0].id == id) then 0 else 1 + Find(ps[1..], id)
  }

  function AddPartial(n: Net, p: Pending, part: Partial): Pending
    requires p.PendingEvent?
  {
    p.(received := p.received + 1, sum := n.add(p.sum, part.value), from := p.from + {part.shard})
  }

  predicate InSensor(c: Config, e: Event) {
    InGrid(c.net.grid, At(e))
  }

  function Shards(c: Config, at: Cell): set<nat>
    requires c.n >= 1 && c.net.grid.w >= 1
  {
    Affected(at.x, c.net.grid.w, c.n)
  }

  /** Work only ever goes to shards that exist. */
  lemma ShardBound(c: Config, at: Cell)
    requires c.n >= 1 && c.net.grid.w >= 1
    ensures forall k :: k in Shards(c, at) ==> k < c.n
  {
    ShardMonotone(at.x - 1, at.x, c.net.grid.w, c.n);
    ShardMonotone(at.x, at.x + 1, c.net.grid.w, c.n);
  }

  predicate Sane(c: Config, s: Sys) {
    1 <= c.n && 1 <= c.net.grid.w && |s.shards| == c.n && (s.hand.Some? ==> s.hand.value.next < c.n)
  }

  /** The producer's next command, when it is not inside the shard loop. */
  predicate Next(c: Config, s: Sys) {
    s.hand.None? && s.pc < |c.program|
  }

  predicate Enabled(c: Config, s: Sys, st: Step)
    requires Sane(c, s)
  {
    match st
    case SkipEvent => Next(c, s) && c.program[s.pc].Push? && !InSensor(c, c.program[s.pc].e)
    case PushEvent => Next(c, s) && c.program[s.pc].Push? && InSensor(c, c.program[s.pc].e) && |s.meta.live| < c.cap
    case PushMarker => Next(c, s) && c.program[s.pc].Mark? && |s.meta.live| < c.cap
    case PushWork => s.hand.Some? &&
                     (s.hand.value.next in Shards(c, s.hand.value.job.at) ==>
                       |s.shards[s.hand.value.next].input.zero.live| < c.cap)
    case PassWait => Next(c, s) && c.program[s.pc].Wait? && s.markerDone >= SeqNo(c.program, s.pc)
    case Compute(k, l) => k < c.n && l <= 1 && s.shards[k].hold.None? && s.shards[k].input.Get(l).live != []
    case Emit(k) => k < c.n && s.shards[k].hold.Some?
      && |s.shards[k].output.Get(s.shards[k].hold.value.layer).live| < c.cap
    case DrainMeta => s.meta.live != []
    case DrainPartial(k, l) => k < c.n && l <= 1 && s.shards[k].output.Get(l).live != []
    case Retry(l, part) => l <= 1 && part in s.deferred.Get(l) && Find(s.pending.Get(l), part.id) < |s.pending.Get(l)|
    case Cascade(l) => l <= 1 && s.pending.Get(l) != [] &&
                       (s.pending.Get(l)[0].PendingEvent? ==>
                         s.pending.Get(l)[0].received >= s.pending.Get(l)[0].expected)
    case Deliver(k) => k < c.n && s.dispatch != [] && k in Shards(c, s.dispatch[0].at) - s.dispatch[0].delivered &&
                       |s.shards[k].input.one.live| < c.cap
    case Retire => s.dispatch != [] && Shards(c, s.dispatch[0].at) <= s.dispatch[0].delivered
    case Ship => s.outbox != [] && |s.stages.live| < c.cap
    case Consume => s.stages.live != []
  }

  function PushTo(s: Sys, k: nat, l: nat, w: Work): Sys
    requires k < |s.shards|
  {
    s.(shards := s.shards[k := s.shards[k].(input := s.shards[k].input.Set(l, s.shards[k].input.Get(l).Push(w)))])
  }

  function DoPushWork(c: Config, s: Sys): Sys
    requires Sane(c, s) && s.hand.Some?
  {
    var Hand(id, job, k) := s.hand.value;
    var s' := s.(hand := if k + 1 < c.n then Some(Hand(id, job, k + 1)) else None);
    if k in Shards(c, job.at)
    then PushTo(s', k, 0, Work(id, job.at, job.feat, PatchMask(k, job.at.x, c.net.grid.w, c.n)))
    else s'
  }

  function DoCompute(c: Config, s: Sys, k: nat, l: nat): Sys
    requires Sane(c, s) && k < c.n && s.shards[k].input.Get(l).live != []
  {
    var sh := s.shards[k];
    var w, ly, g := sh.input.Get(l).live[0], c.net.layers(l), c.net.grid;
    var part := Partial(k, w.id, ShardGather(c.net, ly, g, w.own, w.at, w.feat, s.planes.Get(l), Positions(ly)));
    s.(planes := s.planes.Set(l, ShardRefresh(ly, g, w.own, w.at, w.feat, s.planes.Get(l))),
       shards := s.shards[k := Shard(sh.input.Set(l, sh.input.Get(l).Pop()), sh.output, Some(Held(l, part)))])
  }

  function DoEmit(s: Sys, k: nat): Sys
    requires k < |s.shards| && s.shards[k].hold.Some?
  {
    var sh, h := s.shards[k], s.shards[k].hold.value;
    var sh' := sh.(output := sh.output.Set(h.layer, sh.output.Get(h.layer).Push(h.part)), hold := None);
    s.(shards := s.shards[k := sh'])
  }

  function DoDrainMeta(c: Config, s: Sys): Sys
    requires Sane(c, s) && s.meta.live != []
  {
    var p := match s.meta.live[0]
      case MarkerEntry(q) => PendingMarker(q)
      case EventEntry(id, job) => PendingEvent(id, job.at, |Shards(c, job.at)|, 0, job.feat, c.net.zero, {});
    s.(meta := s.meta.Pop(), pending := s.pending.Set(0, s.pending.zero + [p]))
  }

  /** try_match_partial. */
  function DoMatch(c: Config, s: Sys, l: nat, part: Partial): Sys
    requires Find(s.pending.Get(l), part.id) < |s.pending.Get(l)|
  {
    var ps := s.pending.Get(l);
    var t := Find(ps, part.id);
    s.(pending := s.pending.Set(l, ps[t := AddPartial(c.net, ps[t], part)]))
  }

  function DoDrainPartial(c: Config, s: Sys, k: nat, l: nat): Sys
    requires Sane(c, s) && k < c.n && s.shards[k].output.Get(l).live != []
  {
    var sh := s.shards[k];
    var part := sh.output.Get(l).live[0];
    var s' := s.(shards := s.shards[k := sh.(output := sh.output.Set(l, sh.output.Get(l).Pop()))]);
    if Find(s.pending.Get(l), part.id) < |s.pending.Get(l)|
    then DoMatch(c, s', l, part)
    else s'.(deferred := s.deferred.Set(l, s.deferred.Get(l) + {part}))
  }

  function DoRetry(c: Config, s: Sys, l: nat, part: Partial): Sys
    requires Find(s.pending.Get(l), part.id) < |s.pending.Get(l)|
  {
    DoMatch(c, s.(deferred := s.deferred.Set(l, s.deferred.Get(l) - {part})), l, part)
  }

  /** layer_finalize on the sum of a pending event. */
  function Finalised(c: Config, l: nat, q: Pending): Feat
    requires q.PendingEvent?
  {
    c.net.layers(l).finish(q.residual, q.sum)
  }

  /** What a layer-0 entry becomes in pending_l1, and in the dispatch list. */
  function Onward(c: Config, q: Pending): Pending
    requires c.n >= 1 && c.net.grid.w >= 1
  {
    if q.PendingMarker? then q
    else PendingEvent(q.id, q.at, |Shards(c, q.at)|, 0, Finalised(c, 0, q), c.net.zero, {})
  }

  function Dispatches(c: Config, q: Pending): seq<Dispatch> {
    if q.PendingMarker? then [] else [Dispatch(q.id, q.at, Finalised(c, 0, q), {})]
  }

  /** What a layer-1 entry becomes in the outbox. */
  function Outgoing(c: Config, q: Pending): StageMsg {
    if q.PendingMarker? then StageMarker(q.seqNo) else StageEvent(q.at, Finalised(c, 1, q))
  }

  /** The front of pending_l0 is finalised into pending_l1 and the dispatch list, the front of
      pending_l1 into the outbox; markers travel along. */
  function DoCascade(c: Config, s: Sys, l: nat): Sys
    requires Sane(c, s) && s.pending.Get(l) != []
  {
    var ps := s.pending;
    if l == 0 then
      s.(pending := Two(ps.zero[1..], ps.one + [Onward(c, ps.zero[0])]),
         dispatch := s.dispatch + Dispatches(c, ps.zero[0]))
    else
      s.(pending := Two(ps.zero, ps.one[1..]), outbox := s.outbox + [Outgoing(c, ps.one[0])])
  }

  function DoDeliver(c: Config, s: Sys, k: nat): Sys
    requires Sane(c, s) && k < c.n && s.dispatch != []
  {
    var d := s.dispatch[0];
    PushTo(s.(dispatch := [d.(delivered := d.delivered + {k})] + s.dispatch[1..]), k, 1,
           Work(d.id, d.at, d.feat, PatchMask(k, d.at.x, c.net.grid.w, c.n)))
  }

  function DoConsume(c: Config, s: Sys): Sys
    requires s.stages.live != []
  {
    match s.stages.live[0]
    case StageMarker(q) => s.(stages := s.stages.Pop(), markerDone := q)
    case StageEvent(at, f) => s.(stages := s.stages.Pop(), back := Leave(c.net, 0, s.back, at, f))
  }

  function Apply(c: Config, s: Sys, st: Step): Sys
    requires Sane(c, s) && Enabled(c, s, st)
  {
    match st
    case SkipEvent => s.(pc := s.pc + 1)
    case PushEvent =>
      var e := c.program[s.pc].e;
      var job := Job(At(e), InputFeat(c.net, s.lastT, e));
      s.(pc := s.pc + 1, issued := s.issued + 1, lastT := Stamp(s.lastT, e),
         meta := s.meta.Push(EventEntry(s.issued, job)), hand := Some(Hand(s.issued, job, 0)))
    case PushMarker => s.(pc := s.pc + 1, meta := s.meta.Push(MarkerEntry(SeqNo(c.program, s.pc))))
    case PushWork => DoPushWork(c, s)
    case PassWait => s.(pc := s.pc + 1)
    case Compute(k, l) => DoCompute(c, s, k, l)
    case Emit(k) => DoEmit(s, k)
    case DrainMeta => DoDrainMeta(c, s)
    case DrainPartial(k, l) => DoDrainPartial(c, s, k, l)
    case Retry(l, part) => DoRetry(c, s, l, part)
    case Cascade(l) => DoCascade(c, s, l)
    case Deliver(k) => DoDeliver(c, s, k)
    case Retire => s.(dispatch := s.dispatch[1..])
    case Ship => s.(outbox := s.outbox[1..], stages := s.stages.Push(s.outbox[0]))
    case Consume => DoConsume(c, s)
  }

  function EmptyShard(): Shard {
    Shard(Two(Ring(0, []), Ring(0, [])), Two(Ring(0, []), Ring(0, [])), None)
  }

  function Start(c: Config): Sys {
    Sys(0, 0, c.init.lastT, None, Ring(0, []), seq(c.n, _ => EmptyShard()), Two(c.init.m0.a, c.init.m0.b),
        Two([], []), Two({}, {}), [], [], Ring(0, []), c.init, 0)
  }
}
