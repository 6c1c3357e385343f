/** With one shard the lock-based scheme is the sequential loop: the machine of single loads and stores
    leaves the planes, bytes and predictions of `Run`. */
module S6Serial {
  import opened Geometry
  import opened Network
  import opened Sequential
  import opened Rings
  import Kernels
  import opened S6Machine
  import opened S6Invariant
  import opened S6Steps
  import opened S6Features
  import opened S6Results

  // ---- the sequential stages, layer by layer ----

  function PlaneOf(st: State, l: nat): Plane {
    if l % 2 == 0 then st.Mem(l / 2).a else st.Mem(l / 2).b
  }

  function PutPlane(st: State, l: nat, h: Plane): State {
    st.With(l / 2, if l % 2 == 0 then st.Mem(l / 2).(a := h) else st.Mem(l / 2).(b := h))
  }

  /** An event enters layer l with feature f: that layer and all that follows. */
  function Rest(n: Net, l: nat, st: State, at: Cell, f: Feat): State
    requires l <= 7
    decreases 8 - l
  {
    var ly, g, h := n.layers(l), StageGrid(n.grid, l / 2), PlaneOf(st, l);
    var st', out := PutPlane(st, l, Refresh(ly, g, at, f, h)), Forward(n, ly, g, at, f, h);
    if l % 2 == 0 then Rest(n, l + 1, st', at, out) else Leave(n, l / 2, st', at, out)
  }

  lemma RestIsEnter(n: Net, s: nat, st: State, at: Cell, f: Feat)
    requires s <= 3
    ensures Rest(n, 2 * s, st, at, f) == Enter(n, s, st, at, f)
  {
    hide Leave, Refresh, Forward;
    var l := 2 * s;
    assert l % 2 == 0 && l / 2 == s && (l + 1) % 2 == 1 && (l + 1) / 2 == s;
  }

  /** The first k jobs, one after the other. */
  function Serial(c: Config, k: nat): State
    requires k <= |c.jobs|
  {
    if k == 0 then c.init else Enter(c.net, 0, Serial(c, k - 1), c.jobs[k - 1].at, c.jobs[k - 1].feat)
  }

  // ---- the invariant ----

  ghost predicate BytesShown(s: Sys, st: State) {
    (forall b: nat, d: Cell :: b <= 2 ==> s.drop(Site(b, d)) == st.Mem(b).drop(d)) && s.pred == st.pred
  }

  /** Shared memory holds a sequential state. */
  ghost predicate Shown(s: Sys, st: State) {
    (forall x: Site :: x.layer <= 7 ==> s.hidden(x) == PlaneOf(st, x.layer)(x.cell)) && BytesShown(s, st)
  }

  /** The plane of the layer in hand, as far as it has been worked on. */
  function Partly(c: Config, t: Task, st: State): Plane {
    Kernels.DownTo(LayerOf(c, t.layer), Grid(c, t.layer), t.at, t.feat, PlaneOf(st, t.layer), Done(t))
  }

  /** Shared memory in the middle of a layer that was entered in state st. */
  ghost predicate Midway(c: Config, s: Sys, t: Task, st: State)
    requires TaskSane(c, t)
  {
    && (forall x: Site :: x.layer <= 7 ==>
          s.hidden(x) == if x.layer == t.layer then Partly(c, t, st)(x.cell) else PlaneOf(st, x.layer)(x.cell))
    && BytesShown(s, st)
    && t.acc == Gather(c.net, LayerOf(c, t.layer), Grid(c, t.layer), t.at, t.feat, PlaneOf(st, t.layer), Done(t))
  }

  /** What is done, and what is still to come of the job in hand, is the serial run. */
  ghost predicate Follows(c: Config, s: Sys, st: State) {
    && Sane(c, s) && c.n == 1 && s.shards[0].taken <= |c.jobs|
    && match s.shards[0].task
       case None => st == Serial(c, s.shards[0].taken) && Shown(s, st)
       case Some(t) => Midway(c, s, t, st) && Rest(c.net, t.layer, st, t.at, t.feat) == Serial(c, s.shards[0].taken)
  }

  // ---- steps ----

  lemma {:induction false} OneQueue(c: Config, i: nat)
    requires Sound(c) && c.n == 1 && i <= |c.jobs|
    ensures |Queue(c, 0, i)| == i && forall t :: 0 <= t < i ==> Queue(c, 0, i)[t] == t
  {
    if i == 0 {
    } else {
      OneQueue(c, i - 1);
      OwnerBound(c, i - 1);
    }
  }

  /** A new layer has nothing done and nothing summed. */
  lemma FreshMidway(c: Config, s: Sys, j: nat, l: nat, at: Cell, f: Feat, st: State)
    requires j < |c.jobs| && l <= 7 && Shown(s, st)
    ensures TaskSane(c, Fresh(c, j, l, at, f)) && Midway(c, s, Fresh(c, j, l, at, f), st)
  {
    Kernels.DownToEnds(c.net, LayerOf(c, l), Grid(c, l), at, f, PlaneOf(st, l));
    hide Kernels.DownTo, Gather, PlaneOf, Refresh;
  }

  lemma StartsLayer(c: Config, s: Sys, j: nat, l: nat, at: Cell, f: Feat, st: State)
    requires Sane(c, s) && c.n == 1 && s.shards[0].taken <= |c.jobs| && j < |c.jobs| && l <= 7 && Shown(s, st)
    requires s.shards[0].task == Some(Fresh(c, j, l, at, f))
    requires Rest(c.net, l, st, at, f) == Serial(c, s.shards[0].taken)
    ensures Follows(c, s, st)
  {
    hide Rest, Midway, Shown, Serial;
    FreshMidway(c, s, j, l, at, f, st);
  }

  lemma BeginFollows(c: Config, s: Sys, st: State)
    requires Inv(c, s) && Follows(c, s, st) && Enabled(c, s, Begin(0))
    ensures Follows(c, Apply(c, s, Begin(0)), st)
  {
    hide Inv, Enter, Rest;
    OneQueue(c, s.issued);
    var j, s' := s.shards[0].taken, Apply(c, s, Begin(0));
    assert Shown(s', st);
    RestIsEnter(c.net, 0, st, c.jobs[j].at, c.jobs[j].feat);
    hide Shown;
    StartsLayer(c, s', j, 0, c.jobs[j].at, c.jobs[j].feat, st);
  }

  /** What a task has come to, once its layer is done. */
  lemma LayerDone(c: Config, s: Sys, t: Task, st: State)
    requires TaskSane(c, t) && Midway(c, s, t, st) && t.left == 0
    ensures var ly, g, h := LayerOf(c, t.layer), Grid(c, t.layer), PlaneOf(st, t.layer);
      && Result(c, t) == Forward(c.net, ly, g, t.at, t.feat, h)
      && Shown(s, PutPlane(st, t.layer, Refresh(ly, g, t.at, t.feat, h)))
  {
    var ly, g, h := LayerOf(c, t.layer), Grid(c, t.layer), PlaneOf(st, t.layer);
    Kernels.DownToEnds(c.net, ly, g, t.at, t.feat, h);
    hide Kernels.DownTo, Gather, Refresh;
    var st' := PutPlane(st, t.layer, Refresh(ly, g, t.at, t.feat, h));
    forall x: Site | x.layer <= 7 ensures s.hidden(x) == PlaneOf(st', x.layer)(x.cell) {
      OtherPlane(st, t.layer, Refresh(ly, g, t.at, t.feat, h), x.layer);
    }
  }

  lemma OtherPlane(st: State, l: nat, h: Plane, m: nat)
    requires l <= 7 && m <= 7
    ensures PlaneOf(PutPlane(st, l, h), m) == if m == l then h else PlaneOf(st, m)
    ensures PutPlane(st, l, h).pred == st.pred
    ensures forall b: nat :: b <= 2 ==> PutPlane(st, l, h).Mem(b).drop == st.Mem(b).drop
  {
    if m != l { assert m / 2 != l / 2 || m % 2 != l % 2; }
  }

  lemma NextFollows(c: Config, s: Sys, st: State) returns (st': State)
    requires Follows(c, s, st) && Enabled(c, s, Act(0, NextLayer))
    ensures Follows(c, Apply(c, s, Act(0, NextLayer)), st')
  {
    hide Rest, PutPlane, Result, PlaneOf, Midway, Serial, Refresh;
    var t := s.shards[0].task.value;
    LayerDone(c, s, t, st);
    RestStep(c.net, t.layer, st, t.at, t.feat);
    st' := PutPlane(st, t.layer, Refresh(LayerOf(c, t.layer), Grid(c, t.layer), t.at, t.feat, PlaneOf(st, t.layer)));
    var s' := Apply(c, s, Act(0, NextLayer));
    assert Shown(s', st');
    hide Shown;
    StartsLayer(c, s', t.job, t.layer + 1, t.at, Result(c, t), st');
  }

  lemma RestStep(n: Net, l: nat, st: State, at: Cell, f: Feat)
    requires l <= 7
    ensures var ly, g, h := n.layers(l), StageGrid(n.grid, l / 2), PlaneOf(st, l);
      var st', out := PutPlane(st, l, Refresh(ly, g, at, f, h)), Forward(n, ly, g, at, f, h);
      Rest(n, l, st, at, f) == if l % 2 == 0 then Rest(n, l + 1, st', at, out) else Leave(n, l / 2, st', at, out)
  {
    hide PutPlane, PlaneOf, Refresh, Forward, Leave;
  }

  /** The sequential boundary, when the layer before it is done. */
  lemma LeaveStep(n: Net, s: nat, st: State, at: Cell, f: Feat)
    requires s <= 2
    ensures var st' := Checked(s, st, Pool(at));
      Leave(n, s, st, at, f) == if Passes(n.window, st.Mem(s).drop(Pool(at))) then Enter(n, s + 1, st', Pool(at), f)
        else st'
  {
    hide Enter, Passes, Bump;
  }

  lemma CheckedBytes(s: Sys, st: State, b: nat, d: Cell, s': Sys)
    requires b <= 2 && Shown(s, st) && s'.hidden == s.hidden && s'.pred == s.pred
    requires s'.drop == Put<Site, nat>(s.drop, Site(b, d), (s.drop(Site(b, d)) + 1) % 256)
    ensures Shown(s', Checked(b, st, d))
  {
    var st' := Checked(b, st, d);
    forall x: Site | x.layer <= 7 ensures s'.hidden(x) == PlaneOf(st', x.layer)(x.cell) {}
    forall a: nat, e: Cell | a <= 2 ensures s'.drop(Site(a, e)) == st'.Mem(a).drop(e) {}
  }

  lemma BoundaryFollows(c: Config, s: Sys, st: State) returns (st': State)
    requires Follows(c, s, st) && Enabled(c, s, Act(0, Boundary))
    ensures Follows(c, Apply(c, s, Act(0, Boundary)), st')
  {
    hide Rest, PutPlane, Result, PlaneOf, Midway, Serial, Refresh, Leave, Checked, Passes;
    var t := s.shards[0].task.value;
    LayerDone(c, s, t, st);
    RestStep(c.net, t.layer, st, t.at, t.feat);
    var b := t.layer / 2;
    var ly, g, h := LayerOf(c, t.layer), Grid(c, t.layer), PlaneOf(st, t.layer);
    var st1 := PutPlane(st, t.layer, Refresh(ly, g, t.at, t.feat, h));
    var s' := Apply(c, s, Act(0, Boundary));
    assert s.drop(Byte(t)) == st1.Mem(b).drop(Pool(t.at));
    LeaveStep(c.net, b, st1, t.at, Result(c, t));
    st' := Checked(b, st1, Pool(t.at));
    CheckedBytes(s, st1, b, Pool(t.at), s');
    hide Shown;
    if Passes(c.net.window, s.drop(Byte(t))) {
      assert t.layer + 1 == 2 * (b + 1);
      RestIsEnter(c.net, b + 1, st', Pool(t.at), Result(c, t));
      StartsLayer(c, s', t.job, t.layer + 1, Pool(t.at), Result(c, t), st');
    }
  }

  lemma HeadFollows(c: Config, s: Sys, st: State) returns (st': State)
    requires Follows(c, s, st) && Enabled(c, s, Act(0, Head))
    ensures Follows(c, Apply(c, s, Act(0, Head)), st')
  {
    var t := s.shards[0].task.value;
    LayerDone(c, s, t, st);
    var ly, g, h := LayerOf(c, 7), Grid(c, 7), PlaneOf(st, 7);
    var st1 := PutPlane(st, 7, Refresh(ly, g, t.at, t.feat, h));
    var s' := Apply(c, s, Act(0, Head));
    st' := st1.(pred := Decode(c.net, st1.pred, t.at, Result(c, t)));
    assert Rest(c.net, 7, st, t.at, t.feat) == Leave(c.net, 3, st1, t.at, Result(c, t)) == st';
    hide Rest, PutPlane, Result, Leave, Decode;
    forall x: Site | x.layer <= 7 ensures s'.hidden(x) == PlaneOf(st', x.layer)(x.cell) {
      assert s.hidden(x) == PlaneOf(st1, x.layer)(x.cell);
    }
  }

  /** Actions within a position. */
  lemma WithinFollows(c: Config, s: Sys, st: State, a: Action)
    requires Follows(c, s, st) && Enabled(c, s, Act(0, a)) && a in {Lock, Load, Unlock}
    ensures Follows(c, Apply(c, s, Act(0, a)), st)
  {
    hide Rest, Kernels.DownTo, Gather, PlaneOf;
  }

  lemma SkipFollows(c: Config, s: Sys, st: State)
    requires Follows(c, s, st) && Enabled(c, s, Act(0, Skip))
    ensures Follows(c, Apply(c, s, Act(0, Skip)), st)
  {
    hide Rest, Kernels.DownTo, Gather, PlaneOf;
    var t := s.shards[0].task.value;
    Kernels.SkipPatch(c.net, LayerOf(c, t.layer), Grid(c, t.layer), t.at, t.feat, PlaneOf(st, t.layer), t.left - 1);
  }

  lemma StoreFollows(c: Config, s: Sys, st: State)
    requires Inv(c, s) && Follows(c, s, st) && Enabled(c, s, Act(0, Store))
    ensures Follows(c, Apply(c, s, Act(0, Store)), st)
  {
    hide Rest, Kernels.DownTo, PlaneOf;
    var t, s' := s.shards[0].task.value, Apply(c, s, Act(0, Store));
    var ly, g, h, p := LayerOf(c, t.layer), Grid(c, t.layer), PlaneOf(st, t.layer), t.left - 1;
    TaskFacts(c, s, 0);
    assert ReadOk(c, t, s.hidden);
    hide Inv;
    Kernels.DownToNext(ly, g, t.at, t.feat, h, p, Spot(ly, t.at, p));
    forall x: Site | x.layer <= 7
      ensures s'.hidden(x) == if x.layer == t.layer then Kernels.DownTo(ly, g, t.at, t.feat, h, p)(x.cell)
        else PlaneOf(st, x.layer)(x.cell)
    {
      Kernels.DownToNext(ly, g, t.at, t.feat, h, p, x.cell);
    }
  }

  lemma IssueFollows(c: Config, s: Sys, st: State)
    requires Follows(c, s, st) && Enabled(c, s, Issue)
    ensures Follows(c, Apply(c, s, Issue), st)
  {
    hide Rest, Kernels.DownTo, Gather, PlaneOf, Serial;
  }

  lemma StepFollows(c: Config, s: Sys, st: State, step: Step) returns (st': State)
    requires Inv(c, s) && Follows(c, s, st) && Enabled(c, s, step)
    ensures Follows(c, Apply(c, s, step), st')
  {
    st' := st;
    hide Inv, Midway, Shown, Rest;
    match step
    case Issue => IssueFollows(c, s, st);
    case Begin(k) => BeginFollows(c, s, st);
    case Act(k, a) =>
      match a
      case Skip => SkipFollows(c, s, st);
      case Lock => WithinFollows(c, s, st, a);
      case Load => WithinFollows(c, s, st, a);
      case Store => StoreFollows(c, s, st);
      case Unlock => WithinFollows(c, s, st, a);
      case NextLayer => st' := NextFollows(c, s, st);
      case Boundary => st' := BoundaryFollows(c, s, st);
      case Head => st' := HeadFollows(c, s, st);
  }

  lemma {:induction false} RunFollows(c: Config, s: Sys, st: State, steps: seq<Step>, t: Sys) returns (st': State)
    requires Inv(c, s) && Follows(c, s, st) && Leads(c, s, steps, t)
    ensures Follows(c, t, st')
    decreases |steps|
  {
    hide Inv, Enabled, Apply, Follows;
    if steps == [] {
      st' := st;
    } else {
      StepInv(c, s, steps[0]);
      var mid := StepFollows(c, s, st, steps[0]);
      st' := RunFollows(c, Apply(c, s, steps[0]), mid, steps[1..], t);
    }
  }

  lemma OneShard(c: Config, steps: seq<Step>, s: Sys)
    requires Good(c) && c.n == 1 && Leads(c, Start(c), steps, s) && Quiet(c, s)
    ensures Shown(s, Serial(c, |c.jobs|))
  {
    StartInv(c);
    assert Follows(c, Start(c), c.init);
    var st := RunFollows(c, Start(c), c.init, steps, s);
    OneQueue(c, |c.jobs|);
    hide Shown, Serial;
  }

  // ---- with the producer's features ----

  /** The jobs a producer makes of a stream: events on the sensor, stamped one after the other. */
  function Prepared(n: Net, st: State, es: seq<Event>): seq<Job> {
    if es == [] then []
    else
      var rest, e := es[..|es| - 1], es[|es| - 1];
      Prepared(n, st, rest)
      + if InGrid(n.grid, At(e)) then [Job(At(e), InputFeat(n, Run(n, st, rest).lastT, e))] else []
  }

  /** One shard leaves in every plane, byte and row what the sequential loop leaves. */
  lemma OneShardIsRun(c: Config, es: seq<Event>, steps: seq<Step>, s: Sys)
    requires Good(c) && c.n == 1 && Leads(c, Start(c), steps, s) && Quiet(c, s)
    requires c.jobs == Prepared(c.net, c.init, es)
    ensures Shown(s, Run(c.net, c.init, es))
  {
    hide Serial, Run, Prepared, Shown, Good, Quiet, Leads;
    OneShard(c, steps, s);
    assert c.jobs[..|c.jobs|] == c.jobs;
    SerialIsRun(c, es);
    AlikeShown(s, Serial(c, |c.jobs|), Run(c.net, c.init, es));
  }

  lemma AlikeShown(s: Sys, a: State, b: State)
    requires Shown(s, a) && Alike(a, b)
    ensures Shown(s, b)
  {
  }

  /** Equal but for the stamps. */
  ghost predicate Alike(a: State, b: State) {
    a.m0 == b.m0 && a.m1 == b.m1 && a.m2 == b.m2 && a.m3 == b.m3 && a.pred == b.pred
  }

  lemma {:induction false} SerialIsRun(c: Config, es: seq<Event>)
    requires |Prepared(c.net, c.init, es)| <= |c.jobs|
      && c.jobs[..|Prepared(c.net, c.init, es)|] == Prepared(c.net, c.init, es)
    ensures Alike(Serial(c, |Prepared(c.net, c.init, es)|), Run(c.net, c.init, es))
  {
    hide Enter, InputFeat, Stamp;
    if es == [] {
    } else {
      var rest, e := es[..|es| - 1], es[|es| - 1];
      var done, all := Prepared(c.net, c.init, rest), Prepared(c.net, c.init, es);
      assert c.jobs[..|done|] == all[..|done|] == done;
      SerialIsRun(c, rest);
      if InGrid(c.net.grid, At(e)) {
        var r := Run(c.net, c.init, rest);
        assert c.jobs[|done|] == all[|done|] == Job(At(e), InputFeat(c.net, r.lastT, e));
        EnterAlike(c.net, 0, Serial(c, |done|), r.(lastT := Stamp(r.lastT, e)), At(e), InputFeat(c.net, r.lastT, e));
      }
    }
  }

  lemma {:induction false} EnterAlike(n: Net, s: nat, a: State, b: State, at: Cell, f: Feat)
    requires s <= 3 && Alike(a, b)
    ensures Alike(Enter(n, s, a, at, f), Enter(n, s, b, at, f))
    decreases 3 - s
  {
    hide StageFeat, StageHid, Decode, Bump, Passes;
    if s == 3 {
    } else {
      var m, out := StageHid(n, s, a.Mem(s), at, f), StageFeat(n, s, a.Mem(s), at, f);
      var m' := m.(drop := Bump(m.drop, Pool(at)));
      EnterAlike(n, s + 1, a.With(s, m'), b.With(s, m'), Pool(at), out);
    }
  }
}
