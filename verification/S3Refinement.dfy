/** The sharded scheme refines the sequential loop at markers. */
module S3Refinement {
  import opened Geometry
  import opened Network
  import opened Sequential
  import opened Commands
  import opened Ownership
  import opened ShardedLayer
  import opened Rings
  import opened S3Machine
  import opened S3Invariant
  import opened S3Runs

  /** The memory of the machine, put together from its threads, is a sequential state. */
  ghost predicate Matches(s: Sys, st: State) {
    && s.lastT == st.lastT
    && SamePlane(s.planes.zero, st.m0.a) && SamePlane(s.planes.one, st.m0.b)
    && Agree(s.back, st)
  }

  /** Equal behind stage 0: its tdrop bytes, stages 1 to 3 and the predictions. */
  ghost predicate Agree(a: State, b: State) {
    a.m0.drop == b.m0.drop && a.m1 == b.m1 && a.m2 == b.m2 && a.m3 == b.m3 && a.pred == b.pred
  }

  /** What follows stage 0 neither reads nor writes its planes or the time stamps. */
  lemma {:induction false} LeaveFrame(n: Net, s: nat, a: State, b: State, ev: Cell, f: Feat)
    requires s <= 3 && Agree(a, b)
    ensures Agree(Leave(n, s, a, ev, f), Leave(n, s, b, ev, f))
    ensures var r := Leave(n, s, a, ev, f); r.lastT == a.lastT && r.m0.a == a.m0.a && r.m0.b == a.m0.b
    decreases 3 - s
  {
    if s < 3 {
      var m := a.Mem(s);
      assert b.Mem(s).drop == m.drop;
      var a' := a.With(s, m.(drop := Bump(m.drop, Pool(ev))));
      var b' := b.With(s, b.Mem(s).(drop := Bump(m.drop, Pool(ev))));
      var t, at := s + 1, Pool(ev);
      if Passes(n.window, m.drop(at)) {
        LeaveFrame(n, t, a'.With(t, StageHid(n, t, a'.Mem(t), at, f)), b'.With(t, StageHid(n, t, b'.Mem(t), at, f)), at,
                   StageFeat(n, t, a'.Mem(t), at, f));
      }
    }
  }

  // ---- the reference of the scheme ----

  /** Stage 0 run by one shard that owns all the positions which the shards together run. */
  function SharedStage(n: Net, shards: nat, m: StageMem, ev: Cell, f: Feat): (StageMem, Feat) {
    var g, own, la, lb := n.grid, Served(ev.x, n.grid.w, shards), n.layers(0), n.layers(1);
    var out0 := la.finish(f, ShardGather(n, la, g, own, ev, f, m.a, Positions(la)));
    var out1 := lb.finish(out0, ShardGather(n, lb, g, own, ev, out0, m.b, Positions(lb)));
    (m.(a := ShardRefresh(la, g, own, ev, f, m.a), b := ShardRefresh(lb, g, own, ev, out0, m.b)), out1)
  }

  /** One event: preprocess, that stage 0, and the rest as in the sequential loop. */
  function SharedOne(n: Net, shards: nat, st: State, e: Event): State {
    if !InGrid(n.grid, At(e)) then st
    else
      var (m, out) := SharedStage(n, shards, st.m0, At(e), InputFeat(n, st.lastT, e));
      Leave(n, 0, st.(lastT := Stamp(st.lastT, e), m0 := m), At(e), out)
  }

  function SharedLoop(n: Net, shards: nat, st: State, es: seq<Event>): State {
    if es == [] then st else SharedOne(n, shards, SharedLoop(n, shards, st, es[..|es| - 1]), es[|es| - 1])
  }

  /** State r is what the plan says after i commands. */
  ghost predicate Follows(c: Config, p: Plan, i: nat, r: State)
    requires p == PlanOf(c) && Fit(p.d) && Numbered(p) && i <= |c.program|
  {
    && |Jobs(c, i)| <= |p.d.jobs| && |Entries(c, i)| <= |p.es|
    && r.lastT == LastTAt(c, i)
    && r.m0.a == PlaneAt(p.d, 0, |Jobs(c, i)|) && r.m0.b == PlaneAt(p.d, 1, |Jobs(c, i)|)
    && Agree(BackAt(p, c.init, |Entries(c, i)|), r)
  }

  /** Stage 0 of that loop, on the planes of the plan. */
  lemma StageIsPlan(d: Feed, id: nat, m: StageMem)
    requires id < |d.jobs| && m.a == PlaneAt(d, 0, id) && m.b == PlaneAt(d, 1, id)
    ensures SharedStage(d.net, d.n, m, d.jobs[id].at, d.jobs[id].feat)
         == (m.(a := PlaneAt(d, 0, id + 1), b := PlaneAt(d, 1, id + 1)), Output(d, 1, id))
  {
    hide ShardGather, ShardRefresh, Served;
    assert Feature(d, 0, id) == d.jobs[id].feat && Feature(d, 1, id) == Output(d, 0, id);
  }

  /** Event i - 1 enters the pipeline as job `id` and entry `t`. */
  lemma PlanEntry(c: Config, p: Plan, i: nat, lastT: Cell -> real, e: Event)
    requires p == PlanOf(c) && 0 < i <= |c.program| && c.program[i - 1] == Push(e) && InSensor(c, e)
      && lastT == LastTAt(c, i - 1)
    ensures var id, t, job := |Jobs(c, i - 1)|, |Entries(c, i - 1)|, Job(At(e), InputFeat(c.net, lastT, e));
      && |Jobs(c, i)| == id + 1 <= |p.d.jobs| && |Entries(c, i)| == t + 1 <= |p.es|
      && p.d.jobs[id] == job && p.es[t] == EventEntry(id, job) && p.d.net == c.net && p.d.n == c.n
      && LastTAt(c, i) == Stamp(lastT, e)
  {
    hide PlanOf, InputFeat, InSensor;
    PlanPrefix(c, i, |c.program|);
    PlanLengths(c);
  }

  lemma PlanStep(c: Config, p: Plan, i: nat, r: State, e: Event)
    requires p == PlanOf(c) && Fit(p.d) && Numbered(p) && 0 < i <= |c.program|
    requires c.program[i - 1] == Push(e) && InSensor(c, e) && Follows(c, p, i - 1, r)
    ensures Follows(c, p, i, SharedOne(c.net, c.n, r, e))
  {
    hide Fit, Numbered, InputFeat, Output, PlaneAt, SharedStage, Jobs, Entries, LastTAt, PlanOf, Leave, Agree, Stamp;
    PlanEntry(c, p, i, r.lastT, e);
    var id, t := |Jobs(c, i - 1)|, |Entries(c, i - 1)|;
    StageIsPlan(p.d, id, r.m0);
    var r2 := r.(lastT := Stamp(r.lastT, e), m0 := r.m0.(a := PlaneAt(p.d, 0, id + 1), b := PlaneAt(p.d, 1, id + 1)));
    assert SharedOne(c.net, c.n, r, e) == Leave(c.net, 0, r2, At(e), Output(p.d, 1, id));
    assert BackAt(p, c.init, t + 1) == Leave(c.net, 0, BackAt(p, c.init, t), At(e), Output(p.d, 1, id));
    hide SharedOne, BackAt;
    AgreeSwap(BackAt(p, c.init, t), r, r2);
    LeaveFrame(c.net, 0, r2, BackAt(p, c.init, t), At(e), Output(p.d, 1, id));
    LeaveFrame(c.net, 0, BackAt(p, c.init, t), r2, At(e), Output(p.d, 1, id));
  }

  lemma AgreeSwap(a: State, r: State, r2: State)
    requires Agree(a, r) && r2 == r.(lastT := r2.lastT, m0 := r.m0.(a := r2.m0.a, b := r2.m0.b))
    ensures Agree(r2, a) && Agree(a, r2)
  {
  }

  /** The plan followed to command i is that loop over what was pushed. */
  lemma {:induction false} PlanIsRun(c: Config, p: Plan, i: nat)
    requires p == PlanOf(c) && Fit(p.d) && Numbered(p) && i <= |c.program|
    ensures Follows(c, p, i, SharedLoop(c.net, c.n, c.init, Pushed(c.program, i)))
  {
    hide *;
    if i == 0 {
      FollowsStart(c, p);
    } else {
      var r := SharedLoop(c.net, c.n, c.init, Pushed(c.program, i - 1));
      PlanIsRun(c, p, i - 1);
      RunPushed(c, i);
      if c.program[i - 1].Push? && InSensor(c, c.program[i - 1].e) {
        PlanStep(c, p, i, r, c.program[i - 1].e);
      } else {
        PlanKeeps(c, p, i, r);
      }
    }
  }

  lemma FollowsStart(c: Config, p: Plan)
    requires p == PlanOf(c) && Fit(p.d) && Numbered(p)
    ensures Follows(c, p, 0, SharedLoop(c.net, c.n, c.init, Pushed(c.program, 0)))
  {
    hide Fit, Numbered, PlanOf;
    assert p.d.start == Two(c.init.m0.a, c.init.m0.b) by { PlanStarts(c); }
  }

  lemma PlanStarts(c: Config)
    ensures PlanOf(c).d.start == Two(c.init.m0.a, c.init.m0.b)
  {
    hide Jobs, Entries;
  }

  lemma RunPushed(c: Config, i: nat)
    requires 0 < i <= |c.program|
    ensures var r := SharedLoop(c.net, c.n, c.init, Pushed(c.program, i - 1));
      SharedLoop(c.net, c.n, c.init, Pushed(c.program, i)) == if c.program[i - 1].Push?
        then SharedOne(c.net, c.n, r, c.program[i - 1].e) else r
    ensures c.program[i - 1].Push? && !InSensor(c, c.program[i - 1].e) ==>
      SharedOne(c.net, c.n, SharedLoop(c.net, c.n, c.init, Pushed(c.program, i - 1)), c.program[i - 1].e)
        == SharedLoop(c.net, c.n, c.init, Pushed(c.program, i - 1))
  {
    hide SharedStage, InputFeat, Leave;
    if c.program[i - 1].Push? {
      var es := Pushed(c.program, i - 1);
      assert Pushed(c.program, i) == es + [c.program[i - 1].e] && (es + [c.program[i - 1].e])[..|es|] == es;
    }
  }

  /** Commands that push nothing into the pipeline: waits, markers and events outside the sensor. */
  lemma PlanKeeps(c: Config, p: Plan, i: nat, r: State)
    requires p == PlanOf(c) && Fit(p.d) && Numbered(p) && 0 < i <= |c.program| && Follows(c, p, i - 1, r)
    requires !(c.program[i - 1].Push? && InSensor(c, c.program[i - 1].e))
    ensures Follows(c, p, i, r)
  {
    hide Fit, Numbered, PlanOf, PlaneAt, InputFeat, Events, SeqNo, InSensor;
    PlanPrefix(c, i, |c.program|);
    PlanLengths(c);
    if c.program[i - 1].Mark? {
      var t := |Entries(c, i - 1)|;
      assert p.es[t] == Entries(c, i)[t] && p.es[t].MarkerEntry?;
    }
  }

  lemma PlanLengths(c: Config)
    ensures PlanOf(c).d.jobs == Jobs(c, |c.program|) && PlanOf(c).es == Entries(c, |c.program|)
      && PlanOf(c).d.net == c.net && PlanOf(c).d.n == c.n
  {
    hide Jobs, Entries;
  }

  /** Between two entries with no event in between the stage thread's state stands still. */
  lemma {:induction false} OnlyMarkers(p: Plan, init: State, a: nat, b: nat)
    requires Fit(p.d) && Numbered(p) && a <= b <= |p.es| && Events(p.es, a) == Events(p.es, b)
    ensures BackAt(p, init, a) == BackAt(p, init, b)
  {
    hide Fit, Numbered;
    if a < b {
      EventsMonotone(p.es, a, b - 1);
      OnlyMarkers(p, init, a, b - 1);
    }
  }

  lemma {:induction false} MarkPrefix(p: Plan, q: Plan, t: nat)
    requires t <= |p.es| && p.es <= q.es
    ensures MarkAt(p, t) == MarkAt(q, t)
  {
    if t == 0 {
    } else {
      MarkPrefix(p, q, t - 1);
    }
  }

  /** A reported marker as late as the commands issued leaves no event behind it. */
  lemma {:induction false} MarkCovers(c: Config, p: Plan, i: nat, t: nat)
    requires i <= |c.program| && p.es == Entries(c, i) && t <= |p.es|
    ensures MarkAt(p, t) <= SeqNo(c.program, i)
    ensures MarkAt(p, t) >= SeqNo(c.program, i) ==> Events(p.es, t) == |Jobs(c, i)|
    decreases i
  {
    hide LastTAt, InSensor, InputFeat;
    PlanNumbered(c, i);
    if i == 0 {
    } else {
      var q := Plan(p.d, Entries(c, i - 1));
      var u := if t <= |q.es| then t else |q.es|;
      MarkPrefix(q, p, u);
      MarkCovers(c, q, i - 1, u);
      EventsOfPrefix(q.es, p.es, u);
    }
  }

  /** A shard whose partials for the first e jobs are all in, and which was sent no more, has done
      exactly its share of those jobs. */
  lemma CaughtUp(d: Feed, l: nat, k: nat, shards: seq<Shard>, sent: seq<int>, e: nat)
    requires Fit(d) && l <= 1 && k < d.n && e <= |d.jobs| && RowOk(d, l, shards, sent) && sent[k] <= e
    requires FinalOk(d, e, Got(shards, l))
    ensures shards[k].input.Get(l).popped == |Route(d, k, e)|
    ensures shards[k].output.Get(l).popped == |Route(d, k, e)|
    ensures shards[k].input.Get(l).live == [] && shards[k].output.Get(l).live == []
  {
    hide Fit, WorkOf, PartOf, Routed;
    assert ShardOk(d, l, k, shards[k], sent[k]);
    RoutePrefix(d, k, sent[k], e);
    var last := |Route(d, k, e)| - 1;
    if last >= 0 {
      RouteMember(d, k, e, last);
      assert |Route(d, k, Route(d, k, e)[last])| < Got(shards, l)[k];
    }
  }

  lemma PlaneMatches(d: Feed, l: nat, h: Plane, shards: seq<Shard>, sent: seq<int>, e: nat)
    requires Fit(d) && l <= 1 && e <= |d.jobs| && RowOk(d, l, shards, sent) && FinalOk(d, e, Got(shards, l))
    requires PlaneOk(d, l, h, Done(shards, l)) && forall k :: 0 <= k < d.n ==> sent[k] <= e
    ensures SamePlane(h, PlaneAt(d, l, e))
  {
    hide Fit, FinalOk, ShardOk, ShardPlane, PlaneAt;
    forall cell: Cell ensures h(cell) == PlaneAt(d, l, e)(cell) {
      assert CellOk(d, l, h, Done(shards, l), cell);
      var k := Writer(d, l, cell);
      CaughtUp(d, l, k, shards, sent, e);
      ShardPlaneAgrees(d, l, k, e, cell);
    }
  }

  /** Once the stage thread has taken every issued event, the machine holds that state. */
  lemma SettledMatches(c: Config, p: Plan, s: Sys)
    requires Ready(c, p) && Inv(c, p, s) && s.stages.popped <= |p.es| && Events(p.es, s.stages.popped) == s.issued
    ensures s.pc <= |c.program| && Matches(s, SharedLoop(c.net, c.n, c.init, Pushed(c.program, s.pc)))
  {
    hide *;
    Settled(c, p, s);
    var e, released := s.issued, Released(p.es, Base(s, 0), s.dispatch);
    PlaneMatches(p.d, 0, s.planes.zero, s.shards, Sent0(c.n, e, s.hand), e);
    SentBound(p.d, released, s.dispatch, e);
    PlaneMatches(p.d, 1, s.planes.one, s.shards, Sent1(c.n, released, s.dispatch), e);
    OnlyMarkers(p, c.init, s.stages.popped, |Entries(c, s.pc)|);
    PlanIsRun(c, p, s.pc);
    FollowsMeans(c, p, s.pc, SharedLoop(c.net, c.n, c.init, Pushed(c.program, s.pc)));
    Together(c, s, SharedLoop(c.net, c.n, c.init, Pushed(c.program, s.pc)), BackAt(p, c.init, s.stages.popped));
  }

  /** Every count has reached the events issued. */
  lemma Settled(c: Config, p: Plan, s: Sys)
    requires Ready(c, p) && Inv(c, p, s) && s.stages.popped <= |p.es| && Events(p.es, s.stages.popped) == s.issued
    ensures s.pc <= |c.program| && 0 <= Base(s, 0) <= |p.es| && 1 <= c.n == p.d.n && |Entries(c, s.pc)| <= |p.es|
    ensures p == PlanOf(c) && Fit(p.d) && Numbered(p) && s.issued == |Jobs(c, s.pc)| <= |p.d.jobs|
    ensures Events(p.es, Base(s, 0)) == s.issued && s.stages.popped <= |Entries(c, s.pc)|
      && Events(p.es, |Entries(c, s.pc)|) == s.issued
    ensures var released := Released(p.es, Base(s, 0), s.dispatch);
      && PlaneOk(p.d, 0, s.planes.zero, Done(s.shards, 0)) && PlaneOk(p.d, 1, s.planes.one, Done(s.shards, 1))
      && RowOk(p.d, 0, s.shards, Sent0(c.n, s.issued, s.hand))
        && RowOk(p.d, 1, s.shards, Sent1(c.n, released, s.dispatch))
      && DispatchOk(p.d, released, s.dispatch) && released + |s.dispatch| == s.issued
    ensures |Got(s.shards, 0)| == |Got(s.shards, 1)| == p.d.n && FinalOk(p.d, s.issued, Got(s.shards, 0))
      && FinalOk(p.d, s.issued, Got(s.shards, 1))
    ensures |Sent0(c.n, s.issued, s.hand)| == c.n && forall k :: 0 <= k < c.n ==>
      Sent0(c.n, s.issued, s.hand)[k] <= s.issued
    ensures s.lastT == LastTAt(c, s.pc) && s.back == BackAt(p, c.init, s.stages.popped)
  {
    hide Fit, Numbered, Additive, PlaneOk, RowOk, DispatchOk, EntryOk, DeferredOk, EarlyOk, FinalOk, Got, Done, Sent1,
      Jobs, Entries, LastTAt, BackAt, MarkAt;
    var m := |Entries(c, s.pc)|;
    PlanPrefix(c, s.pc, |c.program|);
    PlanNumbered(c, s.pc);
    EventsOfPrefix(Entries(c, s.pc), p.es, m);
    EventsMonotone(p.es, s.stages.popped, Base(s, 1));
    EventsMonotone(p.es, Base(s, 1), Base(s, 0));
    EventsMonotone(p.es, Base(s, 0), m);
  }

  lemma FollowsMeans(c: Config, p: Plan, i: nat, r: State)
    requires p == PlanOf(c) && Fit(p.d) && Numbered(p) && i <= |c.program| && Follows(c, p, i, r)
    ensures |Jobs(c, i)| <= |p.d.jobs| && |Entries(c, i)| <= |p.es|
    ensures r.lastT == LastTAt(c, i) && r.m0.a == PlaneAt(p.d, 0, |Jobs(c, i)|)
      && r.m0.b == PlaneAt(p.d, 1, |Jobs(c, i)|)
    ensures Agree(BackAt(p, c.init, |Entries(c, i)|), r)
  {
  }

  lemma Together(c: Config, s: Sys, r: State, back: State)
    requires s.lastT == r.lastT && SamePlane(s.planes.zero, r.m0.a) && SamePlane(s.planes.one, r.m0.b)
      && s.back == back && Agree(back, r)
    ensures Matches(s, r)
  {
    hide SamePlane;
  }

  lemma SentBound(d: Feed, released: int, ds: seq<Dispatch>, e: nat)
    requires Fit(d) && DispatchOk(d, released, ds) && released + |ds| <= e
    ensures forall k :: 0 <= k < d.n ==> Sent1(d.n, released, ds)[k] <= e
  {
  }

  /** Refinement at markers.  In every run, whatever the interleaving: when the last marker the
      stage thread reported is not older than the events pushed so far, then the time stamps,
      the hidden planes, the tdrop bytes and the predictions are those of the loop over exactly
      these events with the stage 0 that the shards run; and if every position of these events is
      run, then they are those of the sequential loop. */
  lemma RefinesAtMarkers(c: Config, steps: seq<Step>, s: Sys)
    requires Good(c) && Leads(c, Start(c), steps, s)
    requires s.pc <= |c.program| && s.markerDone >= SeqNo(c.program, s.pc)
    ensures Matches(s, SharedLoop(c.net, c.n, c.init, Pushed(c.program, s.pc)))
    ensures AllWhole(c.net, c.n, Pushed(c.program, s.pc)) ==> Matches(s, Run(c.net, c.init, Pushed(c.program, s.pc)))
  {
    var p, es := PlanOf(c), Pushed(c.program, s.pc);
    GoodIsReady(c);
    hide Fit, Numbered, Additive, LayerOk, PlaneOk, RowOk, DispatchOk, Leads, Run, SharedLoop, AllWhole, Matches,
      SameState;
    StartInv(c, p);
    RunInv(c, p, Start(c), steps, s);
    var m := Plan(p.d, Entries(c, s.pc));
    PlanPrefix(c, s.pc, |c.program|);
    MarkPrefix(m, p, s.stages.popped);
    MarkCovers(c, m, s.pc, s.stages.popped);
    EventsOfPrefix(m.es, p.es, s.stages.popped);
    SettledMatches(c, p, s);
    if AllWhole(c.net, c.n, es) { MatchesRun(c, s, es); }
  }

  // ---- against the sequential loop ----

  /** The shards run every position of the event in both layers of stage 0. */
  ghost predicate Whole(n: Net, shards: nat, e: Event) {
    InGrid(n.grid, At(e)) ==>
      AllServed(n.layers(0), n.grid, shards, At(e)) && AllServed(n.layers(1), n.grid, shards, At(e))
  }

  ghost predicate AllWhole(n: Net, shards: nat, es: seq<Event>) {
    forall i :: 0 <= i < |es| ==> Whole(n, shards, es[i])
  }

  /** Something a caller can tell: up to sixteen shards, an event is whole unless it lies in the last
      column and one of the two layers has one position. */
  lemma WholeUpToSixteen(n: Net, shards: nat, e: Event)
    requires 1 <= shards <= MASK_BITS && InGrid(n.grid, At(e))
    ensures Whole(n, shards, e) <==> (n.layers(0).wide && n.layers(1).wide) || e.x + 1 < n.grid.w
  {
    ServedUpToSixteen(n.layers(0), n.grid, shards, At(e));
    ServedUpToSixteen(n.layers(1), n.grid, shards, At(e));
    hide AllServed;
  }

  /** Equal, plane by plane. */
  ghost predicate SameState(a: State, b: State) {
    a.lastT == b.lastT && SamePlane(a.m0.a, b.m0.a) && SamePlane(a.m0.b, b.m0.b) && Agree(a, b)
  }

  /** A layer of a whole event, on planes that are equal cell by cell. */
  lemma LayerSame(n: Net, l: Layer, shards: nat, ev: Cell, f: Feat, h: Plane, k: Plane)
    requires Exact(n) && shards >= 1 && InGrid(n.grid, ev) && AllServed(l, n.grid, shards, ev) && SamePlane(h, k)
    ensures l.finish(f, ShardGather(n, l, n.grid, Served(ev.x, n.grid.w, shards), ev, f, h, Positions(l)))
      == Forward(n, l, n.grid, ev, f, k)
    ensures SamePlane(ShardRefresh(l, n.grid, Served(ev.x, n.grid.w, shards), ev, f, h), Refresh(l, n.grid, ev, f, k))
  {
    WholeLayer(n, l, n.grid, shards, ev, f, h);
    GatherLocal(n, l, n.grid, ev, f, h, k, 0);
    hide AllServed, Served, ShardGather, ShardRefresh, Exact;
  }

  lemma StepSame(n: Net, shards: nat, a: State, b: State, e: Event)
    requires Exact(n) && shards >= 1 && Whole(n, shards, e) && SameState(a, b)
    ensures SameState(SharedOne(n, shards, a, e), ProcessOne(n, b, e))
  {
    hide Exact, AllServed, Served, ShardGather, ShardRefresh, Refresh, Forward, InputFeat, Stamp;
    if InGrid(n.grid, At(e)) {
      var at, f := At(e), InputFeat(n, a.lastT, e);
      assert StageGrid(n.grid, 0) == n.grid;
      LayerSame(n, n.layers(0), shards, at, f, a.m0.a, b.m0.a);
      var out0 := Forward(n, n.layers(0), n.grid, at, f, b.m0.a);
      LayerSame(n, n.layers(1), shards, at, out0, a.m0.b, b.m0.b);
      var out1 := Forward(n, n.layers(1), n.grid, at, out0, b.m0.b);
      var a1 := a.(lastT := Stamp(a.lastT, e), m0 := SharedStage(n, shards, a.m0, at, f).0);
      var b1 := b.(lastT := Stamp(b.lastT, e), m0 := StageHid(n, 0, b.m0, at, f));
      assert SharedOne(n, shards, a, e) == Leave(n, 0, a1, at, out1)
        && ProcessOne(n, b, e) == Leave(n, 0, b1, at, out1);
      hide Leave, SharedOne, ProcessOne;
      LeaveFrame(n, 0, a1, b1, at, out1);
      LeaveFrame(n, 0, b1, a1, at, out1);
    }
  }

  /** A stream of whole events: the scheme's loop is the sequential loop. */
  lemma {:induction false} SharedIsRun(n: Net, shards: nat, st: State, es: seq<Event>)
    requires Exact(n) && shards >= 1 && AllWhole(n, shards, es)
    ensures SameState(SharedLoop(n, shards, st, es), Run(n, st, es))
  {
    hide Exact, Whole, SharedOne, ProcessOne;
    if es == [] {
    } else {
      SharedIsRun(n, shards, st, es[..|es| - 1]);
      hide SameState;
      StepSame(n, shards, SharedLoop(n, shards, st, es[..|es| - 1]), Run(n, st, es[..|es| - 1]), es[|es| - 1]);
    }
  }

  lemma MatchesRun(c: Config, s: Sys, es: seq<Event>)
    requires Good(c) && AllWhole(c.net, c.n, es) && Matches(s, SharedLoop(c.net, c.n, c.init, es))
    ensures Matches(s, Run(c.net, c.init, es))
  {
    SharedIsRun(c.net, c.n, c.init, es);
    hide SharedLoop, Run, AllWhole, Exact;
  }

  /** And only so far: after one event the first plane is that of the sequential loop if and only if
      every position that no shard runs would have left its cell as it is. */
  lemma LossExactly(n: Net, shards: nat, st: State, e: Event)
    requires shards >= 1 && InGrid(n.grid, At(e))
    ensures SamePlane(SharedOne(n, shards, st, e).m0.a, ProcessOne(n, st, e).m0.a) <==>
      var l, f := n.layers(0), InputFeat(n, st.lastT, e);
      forall p: nat :: p < Positions(l) && InGrid(n.grid, Spot(l, At(e), p)) && p !in Served(e.x, n.grid.w, shards) ==>
        l.lru(p, f, st.m0.a(Spot(l, At(e), p))) == st.m0.a(Spot(l, At(e), p))
  {
    var at, f := At(e), InputFeat(n, st.lastT, e);
    PlaneExactly(n.layers(0), n.grid, shards, at, f, st.m0.a);
    assert StageGrid(n.grid, 0) == n.grid;
    var (m, out) := SharedStage(n, shards, st.m0, at, f);
    var a1 := st.(lastT := Stamp(st.lastT, e), m0 := m);
    LeaveFrame(n, 0, a1, a1, at, out);
    var b1 := st.(lastT := Stamp(st.lastT, e), m0 := StageHid(n, 0, st.m0, at, f));
    LeaveFrame(n, 0, b1, b1, at, StageFeat(n, 0, st.m0, at, f));
    assert ProcessOne(n, st, e) == Leave(n, 0, b1, at, StageFeat(n, 0, st.m0, at, f));
    hide Leave, Served, ShardGather, ShardRefresh, Refresh, Forward, InputFeat, Stamp;
  }
}
