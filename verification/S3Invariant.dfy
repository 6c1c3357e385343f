/** What every run of the sharded scheme keeps: each ring, list and hidden cell is a known
    slice of what the sequential run computes, cut off at the owning thread's progress. */
module S3Invariant {
  import opened Geometry
  import opened Network
  import opened Sequential
  import opened Commands
  import opened Sums
  import opened ShardedLayer
  import opened Rings
  import opened S3Machine

  // ---- the plan: what the producer will have sent after i commands ----

  function LastTAt(c: Config, i: nat): Cell -> real
    requires i <= |c.program|
  {
    if i == 0 then c.init.lastT
    else if c.program[i - 1].Push? && InSensor(c, c.program[i - 1].e) then Stamp(LastTAt(c, i - 1), c.program[i - 1].e)
    else LastTAt(c, i - 1)
  }

  function Jobs(c: Config, i: nat): seq<Job>
    requires i <= |c.program|
  {
    if i == 0 then []
    else if c.program[i - 1].Push? && InSensor(c, c.program[i - 1].e) then
      Jobs(c, i - 1) + [Job(At(c.program[i - 1].e), InputFeat(c.net, LastTAt(c, i - 1), c.program[i - 1].e))]
    else Jobs(c, i - 1)
  }

  function Entries(c: Config, i: nat): seq<Entry>
    requires i <= |c.program|
  {
    if i == 0 then []
    else if c.program[i - 1].Mark? then Entries(c, i - 1) + [MarkerEntry(SeqNo(c.program, i - 1))]
    else if c.program[i - 1].Push? && InSensor(c, c.program[i - 1].e) then
      Entries(c, i - 1) + [EventEntry(|Jobs(c, i - 1)|, Jobs(c, i)[|Jobs(c, i - 1)|])]
    else Entries(c, i - 1)
  }

  datatype Plan = Plan(d: Feed, es: seq<Entry>)

  function PlanOf(c: Config): Plan {
    Plan(Feed(c.net, c.n, Jobs(c, |c.program|), Two(c.init.m0.a, c.init.m0.b)),
         Entries(c, |c.program|))
  }

  /** Number of events among the first i entries. */
  function Events(es: seq<Entry>, i: nat): nat
    requires i <= |es|
  {
    if i == 0 then 0 else Events(es, i - 1) + if es[i - 1].EventEntry? then 1 else 0
  }

  lemma {:induction false} EventsMonotone(es: seq<Entry>, i: nat, j: nat)
    requires i <= j <= |es|
    ensures Events(es, i) <= Events(es, j) <= Events(es, i) + (j - i)
  {
    if i < j { EventsMonotone(es, i, j - 1); }
  }

  lemma {:induction false} PlanPrefix(c: Config, i: nat, j: nat)
    requires i <= j <= |c.program|
    ensures Jobs(c, i) <= Jobs(c, j) && Entries(c, i) <= Entries(c, j)
  {
    if i < j { PlanPrefix(c, i, j - 1); }
  }

  /** Every event entry carries its own rank and the job of that rank. */
  ghost predicate Numbered(p: Plan) {
    && (forall t :: 0 <= t < |p.es| && p.es[t].EventEntry? ==>
          p.es[t].id == Events(p.es, t) < |p.d.jobs| && p.es[t].job == p.d.jobs[p.es[t].id])
    && Events(p.es, |p.es|) == |p.d.jobs|
  }

  lemma {:induction false} EventsOfPrefix(a: seq<Entry>, b: seq<Entry>, i: nat)
    requires a <= b && i <= |a|
    ensures Events(a, i) == Events(b, i)
  {
    if i == 0 {
    } else {
      EventsOfPrefix(a, b, i - 1);
    }
  }

  lemma {:induction false} PlanNumbered(c: Config, i: nat)
    requires i <= |c.program|
    ensures Events(Entries(c, i), |Entries(c, i)|) == |Jobs(c, i)|
    ensures forall t :: 0 <= t < |Entries(c, i)| && Entries(c, i)[t].EventEntry? ==>
              && Entries(c, i)[t].id == Events(Entries(c, i), t) < |Jobs(c, i)|
              && Entries(c, i)[t].job == Jobs(c, i)[Entries(c, i)[t].id]
  {
    if i == 0 {
    } else {
      PlanNumbered(c, i - 1);
      var a, b := Entries(c, i - 1), Entries(c, i);
      forall t | 0 <= t <= |a| ensures Events(a, t) == Events(b, t) { EventsOfPrefix(a, b, t); }
    }
  }

  // ---- slices of the plan ----

  function WorkOf(d: Feed, l: nat, k: nat, j: nat): Work
    requires Fit(d) && l <= 1 && j < |Route(d, k, |d.jobs|)|
  {
    RouteMember(d, k, |d.jobs|, j);
    var e := Route(d, k, |d.jobs|)[j];
    Work(e, d.jobs[e].at, Feature(d, l, e), Own(d, k, e))
  }

  function PartOf(d: Feed, l: nat, k: nat, j: nat): Partial
    requires Fit(d) && l <= 1 && j < |Route(d, k, |d.jobs|)|
  {
    RouteMember(d, k, |d.jobs|, j);
    var e := Route(d, k, |d.jobs|)[j];
    Partial(k, e, Piece(d, l, e, k))
  }

  function StageOf(p: Plan, t: nat): StageMsg
    requires Fit(p.d) && Numbered(p) && t < |p.es|
  {
    match p.es[t]
    case MarkerEntry(q) => StageMarker(q)
    case EventEntry(id, job) => StageEvent(job.at, Output(p.d, 1, id))
  }

  /** The stage thread's state after t messages, and the marker it last reported. */
  function BackAt(p: Plan, init: State, t: nat): State
    requires Fit(p.d) && Numbered(p) && t <= |p.es|
  {
    if t == 0 then init
    else match StageOf(p, t - 1)
      case StageMarker(_) => BackAt(p, init, t - 1)
      case StageEvent(at, f) => Leave(p.d.net, 0, BackAt(p, init, t - 1), at, f)
  }

  function MarkAt(p: Plan, t: nat): nat
    requires t <= |p.es|
  {
    if t == 0 then 0 else if p.es[t - 1].MarkerEntry? then p.es[t - 1].seqNo else MarkAt(p, t - 1)
  }

  // ---- progress of each thread ----

  /** First entry still in pending list l: those before it were finalised. */
  function Base(s: Sys, l: nat): int {
    if l == 0 then s.meta.popped - |s.pending.zero| else s.meta.popped - |s.pending.zero| - |s.pending.one|
  }

  /** Dispatches retired so far. */
  function Released(es: seq<Entry>, base: int, ds: seq<Dispatch>): int
    requires 0 <= base <= |es|
  {
    Events(es, base) - |ds|
  }

  /** Events whose layer-l work each shard has been sent, as far as they concern it. */
  function Sent0(n: nat, issued: nat, hand: Option<Hand>): seq<int> {
    seq(n, k => if hand.Some? && hand.value.next <= k then issued - 1 else issued)
  }

  function Sent1(n: nat, released: int, ds: seq<Dispatch>): seq<int> {
    seq(n, k => if ds != [] && k in ds[0].delivered then released + 1 else released)
  }

  /** Pieces of layer-l work each shard has taken, and partials of each shard the sum thread has popped. */
  function Done(shards: seq<Shard>, l: nat): seq<nat> {
    seq(|shards|, k requires 0 <= k < |shards| => shards[k].input.Get(l).popped)
  }

  function Got(shards: seq<Shard>, l: nat): seq<nat> {
    seq(|shards|, k requires 0 <= k < |shards| => shards[k].output.Get(l).popped)
  }

  // ---- the invariant, part by part ----

  ghost predicate ProducerOk(c: Config, p: Plan, pc: nat, issued: nat, lastT: Cell -> real, hand: Option<Hand>,
      meta: Ring<Entry>) {
    && pc <= |c.program|
    && meta.Pushed() == |Entries(c, pc)| <= |p.es|
    && issued == |Jobs(c, pc)| <= |p.d.jobs|
    && lastT == LastTAt(c, pc)
    && (hand.Some? ==> issued > 0 && hand.value.id == issued - 1 && hand.value.job == p.d.jobs[issued - 1])
    && (forall t :: 0 <= t < |meta.live| ==> meta.live[t] == p.es[meta.popped + t])
  }

  ghost predicate InputOk(d: Feed, l: nat, k: nat, r: Ring<Work>, sent: int)
    requires Fit(d) && l <= 1
  {
    && 0 <= sent <= |d.jobs|
    && r.Pushed() == |Route(d, k, sent)| <= |Route(d, k, |d.jobs|)|
    && (forall t :: 0 <= t < |r.live| ==> r.live[t] == WorkOf(d, l, k, r.popped + t))
  }

  ghost predicate OutputOk(d: Feed, l: nat, k: nat, taken: nat, r: Ring<Partial>, hold: Option<Held>)
    requires Fit(d) && l <= 1
  {
    && taken <= |Route(d, k, |d.jobs|)|
    && r.Pushed() == taken - (if hold.Some? && hold.value.layer == l then 1 else 0)
    && (forall t :: 0 <= t < |r.live| ==> r.live[t] == PartOf(d, l, k, r.popped + t))
    && (hold.Some? && hold.value.layer == l ==> hold.value.part == PartOf(d, l, k, taken - 1))
    && (hold.Some? ==> hold.value.layer <= 1)
  }

  ghost predicate ShardOk(d: Feed, l: nat, k: nat, sh: Shard, sent: int)
    requires Fit(d) && l <= 1
  {
    && InputOk(d, l, k, sh.input.Get(l), sent)
    && OutputOk(d, l, k, sh.input.Get(l).popped, sh.output.Get(l), sh.hold)
  }

  ghost predicate RowOk(d: Feed, l: nat, shards: seq<Shard>, sent: seq<int>)
    requires Fit(d) && l <= 1
  {
    && |shards| == |sent| == d.n
    && (forall k :: 0 <= k < d.n ==> ShardOk(d, l, k, shards[k], sent[k]))
  }

  ghost predicate PlaneOk(d: Feed, l: nat, h: Plane, done: seq<nat>)
    requires Fit(d) && l <= 1
  {
    forall cell: Cell :: CellOk(d, l, h, done, cell)
  }

  ghost predicate CellOk(d: Feed, l: nat, h: Plane, done: seq<nat>, cell: Cell)
    requires Fit(d) && l <= 1
  {
    var k := Writer(d, l, cell);
    && k < |done|
    && done[k] <= |Route(d, k, |d.jobs|)|
    && h(cell) == ShardPlane(d, l, k, done[k])(cell)
  }

  /** Shard k's partial for event id has been popped and is not waiting in the deferred set. */
  ghost predicate Counted(d: Feed, got: seq<nat>, deferred: set<Partial>, k: nat, id: nat)
    requires Fit(d) && id < |d.jobs| && k < |got|
  {
    |Route(d, k, id)| < got[k] && !Waits(deferred, k, id)
  }

  ghost predicate Waits(deferred: set<Partial>, k: nat, id: nat) {
    exists part :: part in deferred && part.shard == k && part.id == id
  }

  ghost predicate EntryOk(d: Feed, l: nat, got: seq<nat>, deferred: set<Partial>, e: Entry, q: Pending)
    requires Fit(d) && l <= 1 && |got| == d.n
  {
    match e
    case MarkerEntry(m) => q == PendingMarker(m)
    case EventEntry(id, _) =>
      && id < |d.jobs|
      && q.PendingEvent? && q.id == id && q.at == d.jobs[id].at
      && q.expected == |Routed(d, id)| && q.received == |q.from|
      && q.residual == Feature(d, l, id)
      && q.from <= Routed(d, id)
      && q.sum == Pick(d.net, q.from, Pieces(d, l, id), d.n)
      && forall k: nat :: k < d.n && k in Routed(d, id) ==> (k in q.from <==> Counted(d, got, deferred, k, id))
  }

  ghost predicate PendingOk(p: Plan, l: nat, base: int, ps: seq<Pending>, got: seq<nat>, deferred: set<Partial>)
    requires Fit(p.d) && l <= 1 && |got| == p.d.n
  {
    && 0 <= base && base + |ps| <= |p.es|
    && (forall t :: 0 <= t < |ps| ==> EntryOk(p.d, l, got, deferred, p.es[base + t], ps[t]))
  }

  /** All partials of a finalised event were popped. */
  ghost predicate FinalOk(d: Feed, finals: int, got: seq<nat>)
    requires Fit(d) && |got| == d.n
  {
    forall id: nat, k: nat :: id < finals && id < |d.jobs| && k < d.n && k in Routed(d, id) ==>
      |Route(d, k, id)| < got[k]
  }

  ghost predicate DeferredOk(d: Feed, l: nat, finals: int, deferred: set<Partial>, got: seq<nat>)
    requires Fit(d) && l <= 1 && |got| == d.n
  {
    forall part :: part in deferred ==>
      && part.shard < d.n && finals <= part.id < |d.jobs| && part.shard in Routed(d, part.id)
      && part.value == Piece(d, l, part.id, part.shard)
      && |Route(d, part.shard, part.id)| < got[part.shard]
  }

  /** A partial popped ahead of its pending entry waits in the deferred set. */
  ghost predicate EarlyOk(d: Feed, known: int, deferred: set<Partial>, got: seq<nat>)
    requires Fit(d) && |got| == d.n
  {
    forall id: nat, k: nat :: known <= id < |d.jobs| && k < d.n && k in Routed(d, id) ==>
      !Counted(d, got, deferred, k, id)
  }

  ghost predicate LayerOk(p: Plan, l: nat, base: int, ps: seq<Pending>, deferred: set<Partial>, got: seq<nat>)
    requires Fit(p.d) && l <= 1
  {
    && |got| == p.d.n
    && PendingOk(p, l, base, ps, got, deferred)
    && FinalOk(p.d, Events(p.es, base), got)
    && DeferredOk(p.d, l, Events(p.es, base), deferred, got)
    && EarlyOk(p.d, Events(p.es, base + |ps|), deferred, got)
  }

  ghost predicate DispatchOk(d: Feed, released: int, ds: seq<Dispatch>)
    requires Fit(d)
  {
    && 0 <= released && released + |ds| <= |d.jobs|
    && (forall t :: 0 <= t < |ds| ==>
          && ds[t].id == released + t
          && ds[t].at == d.jobs[released + t].at
          && ds[t].feat == Output(d, 0, released + t)
          && ds[t].delivered <= Routed(d, released + t)
          && (t > 0 ==> ds[t].delivered == {}))
  }

  ghost predicate StageOk(p: Plan, base: int, r: Ring<StageMsg>, outbox: seq<StageMsg>)
    requires Fit(p.d) && Numbered(p)
  {
    && r.Pushed() + |outbox| == base <= |p.es|
    && (forall t :: 0 <= t < |r.live| ==> r.live[t] == StageOf(p, r.popped + t))
    && (forall t :: 0 <= t < |outbox| ==> outbox[t] == StageOf(p, r.Pushed() + t))
  }

  ghost predicate BackOk(c: Config, p: Plan, popped: nat, back: State, markerDone: nat)
    requires Fit(p.d) && Numbered(p)
  {
    popped <= |p.es| && back == BackAt(p, c.init, popped) && markerDone == MarkAt(p, popped)
  }

  ghost predicate Inv(c: Config, p: Plan, s: Sys)
    requires Fit(p.d) && Numbered(p)
  {
    && Sane(c, s)
    && s.meta.popped <= |p.es| && 0 <= Base(s, 1)
    && ProducerOk(c, p, s.pc, s.issued, s.lastT, s.hand, s.meta)
    && LayerOk(p, 0, Base(s, 0), s.pending.zero, s.deferred.zero, Got(s.shards, 0))
    && LayerOk(p, 1, Base(s, 1), s.pending.one, s.deferred.one, Got(s.shards, 1))
    && PlaneOk(p.d, 0, s.planes.zero, Done(s.shards, 0))
    && PlaneOk(p.d, 1, s.planes.one, Done(s.shards, 1))
    && RowOk(p.d, 0, s.shards, Sent0(c.n, s.issued, s.hand))
    && RowOk(p.d, 1, s.shards, Sent1(c.n, Released(p.es, Base(s, 0), s.dispatch), s.dispatch))
    && DispatchOk(p.d, Released(p.es, Base(s, 0), s.dispatch), s.dispatch)
    && StageOk(p, Base(s, 1), s.stages, s.outbox)
    && BackOk(c, p, s.stages.popped, s.back, s.markerDone)
  }

  /** A configuration, in exact arithmetic. */
  ghost predicate Good(c: Config) {
    1 <= c.n && c.net.grid.w >= 1 && Exact(c.net)
  }

  /** What the proofs about single steps use of it. */
  ghost predicate Ready(c: Config, p: Plan) {
    p == PlanOf(c) && Fit(p.d) && Numbered(p) && Additive(p.d)
  }

  lemma {:induction false} JobsFit(c: Config, i: nat)
    requires Good(c) && i <= |c.program|
    ensures forall e :: 0 <= e < |Jobs(c, i)| ==> InGrid(c.net.grid, Jobs(c, i)[e].at)
  {
    if i == 0 {
    } else {
      JobsFit(c, i - 1);
    }
  }

  lemma GoodIsReady(c: Config)
    requires Good(c)
    ensures Ready(c, PlanOf(c))
  {
    JobsFit(c, |c.program|);
    PlanNumbered(c, |c.program|);
    ExactIsAdditive(PlanOf(c).d);
  }
}
