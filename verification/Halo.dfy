/** Stage 0 on private replicas: every shard sees its strip of columns and a halo on each side. */
module Halo {
  import opened Geometry
  import opened Network
  import opened Sequential
  import opened Ownership
  import opened Arith
  import opened Rings
  import opened Chain

  /** A routed event and whether the receiving shard owns it. */
  datatype Msg = Msg(e: Event, owner: bool)

  datatype Setup = Setup(net: Net, n: nat, halo: nat)
  {
    function Strip(): int
      requires n >= 1
    {
      StripWidth(net.grid.w, n)
    }
  }

  predicate Sound(u: Setup) {
    u.n >= 1 && u.net.grid.w >= 1
  }

  function Owner(u: Setup, x: int): int
    requires Sound(u) && 0 <= x < u.net.grid.w
  {
    StripPositive(u.net.grid.w, u.n);
    var s := x / u.Strip();
    if s < u.n - 1 then s else u.n - 1
  }

  /** Column x lies in the strip of shard k or in its halo. */
  predicate Covers(u: Setup, k: int, x: int)
    requires Sound(u)
  {
    0 <= k < u.n && k * u.Strip() - u.halo <= x < (k + 1) * u.Strip() + u.halo
  }

  /** The routing loop only looks at the strip of x and its two neighbours. */
  predicate Delivered(u: Setup, k: int, x: int)
    requires Sound(u) && 0 <= x < u.net.grid.w
  {
    StripPositive(u.net.grid.w, u.n);
    -1 <= k - x / u.Strip() <= 1 && Covers(u, k, x)
  }

  /** The owner is one of the shards the event is delivered to. */
  lemma OwnerDelivered(u: Setup, x: int)
    requires Sound(u) && 0 <= x < u.net.grid.w
    ensures Delivered(u, Owner(u, x), x) && u.Strip() >= 1 && Owner(u, x) == x / u.Strip()
    ensures Owner(u, x) * u.Strip() <= x < (Owner(u, x) + 1) * u.Strip()
  {
    StripPositive(u.net.grid.w, u.n);
    var s := u.Strip();
    hide StripWidth;
    Split(x, s);
    TimesLess(s, x / s, u.n);
  }

  lemma CoverNear(k: int, x: int, s: int, halo: int)
    requires s >= 1 && 0 <= halo <= s && x >= 0 && k * s - halo <= x < (k + 1) * s + halo
    ensures -1 <= k - x / s <= 1
  {
    Split(x, s);
    assert (k + 2) * s == (k + 1) * s + s && (k - 1) * s == k * s - s;
    TimesLess(s, x / s, k + 2);
    TimesLess(s, k - 1, x / s + 1);
  }

  /** Every covering shard is found, for every column, exactly when the halo fits into a strip
      (or there are at most two shards). */
  lemma RoutingComplete(u: Setup)
    requires Sound(u)
    ensures (forall k, x :: 0 <= x < u.net.grid.w && Covers(u, k, x) ==> Delivered(u, k, x)) <==>
      u.n <= 2 || u.halo <= u.Strip()
  {
    hide StripWidth;
    StripPositive(u.net.grid.w, u.n);
    StripAtMost(u.net.grid.w, u.n);
    var s, w := u.Strip(), u.net.grid.w;
    if u.n <= 2 || u.halo <= s {
      forall k, x | 0 <= x < w && Covers(u, k, x) ensures Delivered(u, k, x) {
        if u.n > 2 { CoverNear(k, x, s, u.halo); } else { OwnerDelivered(u, x); }
      }
    } else {
      Unique(s - 1, 0, s - 1, s);
      assert Covers(u, 2, s - 1) && !Delivered(u, 2, s - 1);
    }
  }

  lemma StripAtMost(w: int, n: nat)
    requires w >= 1 && n >= 1
    ensures StripWidth(w, n) <= w
  {
    var q := StripWidth(w, n);
    assert w + n - 1 == n * q + (w + n - 1) % n;
    if q > w {
      TimesMonotone(n, w + 1, q);
      assert n * (w + 1) == n * w + n;
      TimesMonotone(w, 1, n);
    }
  }

  // ---- the replicas ----

  /** What a shard does with a message: preprocess and stage 0, and the tdrop check if it owns the event. */
  function ShardStep(n: Net, st: State, m: Msg): State {
    if !InGrid(n.grid, At(m.e)) then st
    else
      var f := InputFeat(n, st.lastT, m.e);
      var st1 := st.(lastT := Stamp(st.lastT, m.e), m0 := StageHid(n, 0, st.m0, At(m.e), f));
      if m.owner then st1.(m0 := st1.m0.(drop := Bump(st1.m0.drop, Pool(At(m.e))))) else st1
  }

  function ShardRun(n: Net, st: State, ms: seq<Msg>): State {
    if ms == [] then st else ShardStep(n, ShardRun(n, st, ms[..|ms| - 1]), ms[|ms| - 1])
  }

  /** The output of stage 0 for an event, and the decision behind it. */
  function Out(n: Net, st: State, e: Event): Feat {
    StageFeat(n, 0, st.m0, At(e), InputFeat(n, st.lastT, e))
  }

  predicate Passed(n: Net, st: State, e: Event) {
    Passes(n.window, st.m0.drop(Pool(At(e))))
  }

  /** What shard k finds in its queue after the stream es was submitted. */
  function Messages(u: Setup, k: int, es: seq<Event>): seq<Msg>
    requires Sound(u)
  {
    if es == [] then []
    else
      var e := es[|es| - 1];
      var ms := Messages(u, k, es[..|es| - 1]);
      if InGrid(u.net.grid, At(e)) && Delivered(u, k, e.x) then ms + [Msg(e, k == Owner(u, e.x))] else ms
  }

  /** The unsharded run: one shard that is sent, and owns, everything. */
  function Whole(n: Net, st: State, es: seq<Event>): State {
    if es == [] then st else ShardStep(n, Whole(n, st, es[..|es| - 1]), Msg(es[|es| - 1], true))
  }

  /** It is stage 0 of the sequential loop. */
  lemma {:induction false} WholeIsSequential(n: Net, st: State, es: seq<Event>)
    ensures Whole(n, st, es).lastT == Run(n, st, es).lastT && Whole(n, st, es).m0 == Run(n, st, es).m0
  {
    if es == [] {
    } else {
      var rest, e := es[..|es| - 1], es[|es| - 1];
      WholeIsSequential(n, st, rest);
      if InGrid(n.grid, At(e)) {
        var r := Run(n, st, rest);
        var f := InputFeat(n, r.lastT, e);
        var r1 := r.(lastT := Stamp(r.lastT, e), m0 := StageHid(n, 0, r.m0, At(e), f));
        LeaveStage0(n, r1, At(e), StageFeat(n, 0, r.m0, At(e), f));
      }
    }
  }

  lemma LeaveStage0(n: Net, st: State, ev: Cell, f: Feat)
    ensures Leave(n, 0, st, ev, f).lastT == st.lastT
    ensures Leave(n, 0, st, ev, f).m0 == st.m0.(drop := Bump(st.m0.drop, Pool(ev)))
  {
    LaterStages(n, 1, st.(m0 := st.m0.(drop := Bump(st.m0.drop, Pool(ev)))), Pool(ev), f);
  }

  lemma {:induction false} LaterStages(n: Net, s: nat, st: State, ev: Cell, f: Feat)
    requires 1 <= s <= 3
    ensures Enter(n, s, st, ev, f).lastT == st.lastT && Enter(n, s, st, ev, f).m0 == st.m0
    decreases 3 - s
  {
    if s < 3 {
      var st1 := st.With(s, StageHid(n, s, st.Mem(s), ev, f));
      var m := st1.Mem(s);
      LaterStages(n, s + 1, st1.With(s, m.(drop := Bump(m.drop, Pool(ev)))), Pool(ev),
        StageFeat(n, s, st.Mem(s), ev, f));
    }
  }

  /** Column x is at most r columns off the strip of shard k. */
  predicate Within(u: Setup, k: int, x: int, r: nat)
    requires Sound(u)
  {
    k * u.Strip() - r <= x < (k + 1) * u.Strip() + r
  }

  /** The dependency cone of stage 0 is two columns wide, and this is when it is delivered. */
  predicate Enough(u: Setup)
    requires Sound(u)
  {
    u.halo >= 2 && (u.n <= 2 || u.Strip() >= 2)
  }

  lemma EnoughDelivers(u: Setup, k: nat, x: int)
    requires Sound(u) && Enough(u) && k < u.n && 0 <= x < u.net.grid.w && Within(u, k, x, 2)
    ensures Delivered(u, k, x)
  {
    StripPositive(u.net.grid.w, u.n);
    var s := u.Strip();
    hide StripWidth;
    if u.n > 2 { CoverNear(k, x, s, 2); } else { OwnerDelivered(u, x); }
  }

  /** Whatever an owned event can depend on reaches its owner, if and only if the halo and the
      strips are at least two wide (on a grid of more than one strip and a column). */
  lemma ConeDelivered(u: Setup)
    requires Sound(u) && u.net.grid.w >= u.Strip() + 2
    ensures (forall x, y :: 0 <= x < u.net.grid.w && 0 <= y < u.net.grid.w && -2 <= x - y <= 2 ==>
      Delivered(u, Owner(u, x), y))
            <==> u.halo >= 2 && u.Strip() >= 2
  {
    hide StripWidth, Delivered, Owner;
    var s, w := u.Strip(), u.net.grid.w;
    if u.halo >= 2 && s >= 2 {
      forall x, y | 0 <= x < w && 0 <= y < w && -2 <= x - y <= 2 ensures Delivered(u, Owner(u, x), y) {
        NearDelivered(u, x, y);
      }
    } else {
      StripPositive(w, u.n);
      ConeMissed(u);
    }
  }

  lemma NearDelivered(u: Setup, x: int, y: int)
    requires Sound(u) && u.halo >= 2 && u.Strip() >= 2
    requires 0 <= x < u.net.grid.w && 0 <= y < u.net.grid.w && -2 <= x - y <= 2
    ensures Delivered(u, Owner(u, x), y)
  {
    hide StripWidth;
    OwnerDelivered(u, x);
    EnoughDelivers(u, Owner(u, x), y);
  }

  lemma ConeMissed(u: Setup)
    requires Sound(u) && u.net.grid.w >= u.Strip() + 2 && !(u.halo >= 2 && u.Strip() >= 2)
    ensures u.Strip() >= 1 && !Delivered(u, Owner(u, u.Strip() - 1), u.Strip() + 1)
  {
    StripPositive(u.net.grid.w, u.n);
    hide StripWidth;
    var s := u.Strip();
    Unique(s - 1, 0, s - 1, s);
    if s == 1 { Unique(2, 2, 0, 1); } else if s >= 3 { Unique(s + 1, 1, 1, s); } else { Unique(3, 1, 1, 2); }
  }

  /** Stage 0 of SSLA-S: a one-cell layer under a 3x3 layer. */
  predicate Cone(n: Net) {
    !n.layers(0).wide && n.layers(1).wide
  }

  /** Replica and whole agree on time stamps and layer 0 two columns, and on layer 1 one column,
      beyond the strip. */
  ghost predicate Tracks(u: Setup, k: int, a: State, b: State)
    requires Sound(u)
  {
    && (forall c: Cell :: Within(u, k, c.x, 2) ==> a.lastT(c) == b.lastT(c) && a.m0.a(c) == b.m0.a(c))
    && (forall c: Cell :: Within(u, k, c.x, 1) ==> a.m0.b(c) == b.m0.b(c))
  }

  /** Layer 0 gives the same output wherever the event's own cell agrees. */
  lemma FirstOutput(n: Net, a: State, b: State, e: Event)
    requires Cone(n) && InGrid(n.grid, At(e)) && a.m0.a(At(e)) == b.m0.a(At(e))
    ensures forall f ::
      Forward(n, n.layers(0), n.grid, At(e), f, a.m0.a) == Forward(n, n.layers(0), n.grid, At(e), f, b.m0.a)
  {
    forall f
      ensures Forward(n, n.layers(0), n.grid, At(e), f, a.m0.a) == Forward(n, n.layers(0), n.grid, At(e), f, b.m0.a)
    {
      GatherLocal(n, n.layers(0), n.grid, At(e), f, a.m0.a, b.m0.a, 0);
    }
  }

  /** An event within the cone is processed alike. */
  lemma TrackNear(u: Setup, k: int, a: State, b: State, e: Event, own: bool)
    requires Sound(u) && Cone(u.net) && Tracks(u, k, a, b) && InGrid(u.net.grid, At(e)) && Within(u, k, e.x, 2)
    ensures Tracks(u, k, ShardStep(u.net, a, Msg(e, own)), ShardStep(u.net, b, Msg(e, true)))
  {
    hide StripWidth, Forward, Within;
    assert StageGrid(u.net.grid, 0) == u.net.grid;
    FirstOutput(u.net, a, b, e);
  }

  /** An event outside the cone, processed or not, touches nothing that is tracked. */
  lemma TrackFar(u: Setup, k: int, a: State, b: State, e: Event, own: bool)
    requires Sound(u) && Cone(u.net) && Tracks(u, k, a, b) && InGrid(u.net.grid, At(e)) && !Within(u, k, e.x, 2)
    ensures Tracks(u, k, ShardStep(u.net, a, Msg(e, own)), b)
  {
    hide StripWidth, Forward;
    assert StageGrid(u.net.grid, 0) == u.net.grid;
    var a' := ShardStep(u.net, a, Msg(e, own));
    forall c: Cell | Within(u, k, c.x, 1) ensures a'.m0.b(c) == a.m0.b(c) {
      assert !Near(At(e), c);
    }
  }

  lemma TracksSwap(u: Setup, k: int, a: State, b: State)
    requires Sound(u) && Tracks(u, k, a, b)
    ensures Tracks(u, k, b, a)
  {
  }

  lemma {:induction false} ReplicaTracks(u: Setup, k: nat, st: State, es: seq<Event>)
    requires Sound(u) && Cone(u.net) && Enough(u) && k < u.n
    ensures Tracks(u, k, ShardRun(u.net, st, Messages(u, k, es)), Whole(u.net, st, es))
  {
    if es == [] {
      assert Messages(u, k, es) == [] && ShardRun(u.net, st, []) == st == Whole(u.net, st, es);
    } else {
      var rest, e := es[..|es| - 1], es[|es| - 1];
      ReplicaTracks(u, k, st, rest);
      hide Tracks, StripWidth, ShardStep, Delivered, Owner, Within, Enough;
      var ms, m := Messages(u, k, rest), Msg(e, InGrid(u.net.grid, At(e)) && k == Owner(u, e.x));
      assert (ms + [m])[..|ms + [m]| - 1] == ms;
      if !InGrid(u.net.grid, At(e)) {
        OutsideNothing(u.net, Whole(u.net, st, rest), e);
      } else {
        TrackStep(u, k, ShardRun(u.net, st, ms), Whole(u.net, st, rest), e, m.owner);
      }
    }
  }

  lemma TrackStep(u: Setup, k: nat, a: State, b: State, e: Event, own: bool)
    requires Sound(u) && Cone(u.net) && Enough(u) && k < u.n && Tracks(u, k, a, b) && InGrid(u.net.grid, At(e))
    ensures Tracks(u, k, if Delivered(u, k, e.x) then ShardStep(u.net, a, Msg(e, own))
      else a, ShardStep(u.net, b, Msg(e, true)))
  {
    hide Tracks, StripWidth, ShardStep, Delivered, Within, Enough;
    if Within(u, k, e.x, 2) {
      EnoughDelivers(u, k, e.x);
      TrackNear(u, k, a, b, e, own);
    } else {
      TracksSwap(u, k, a, b);
      TrackFar(u, k, b, a, e, true);
      TracksSwap(u, k, ShardStep(u.net, b, Msg(e, true)), a);
      if Delivered(u, k, e.x) { TrackFar(u, k, a, ShardStep(u.net, b, Msg(e, true)), e, own); }
    }
  }

  lemma OutsideNothing(n: Net, st: State, e: Event)
    requires !InGrid(n.grid, At(e))
    ensures ShardStep(n, st, Msg(e, true)) == st
  {
  }

  /** Stage 0 is exact across shards: for every stream and every event in the sensor, the owner's
      output is the output of the unsharded run, bit for bit. */
  lemma OwnerIsExact(u: Setup, st: State, es: seq<Event>, e: Event)
    requires Sound(u) && Cone(u.net) && Enough(u) && InGrid(u.net.grid, At(e))
    ensures Out(u.net, ShardRun(u.net, st, Messages(u, Owner(u, e.x), es)), e) == Out(u.net, Whole(u.net, st, es), e)
  {
    var k := Owner(u, e.x);
    OwnerDelivered(u, e.x);
    ReplicaTracks(u, k, st, es);
    var a, b := ShardRun(u.net, st, Messages(u, k, es)), Whole(u.net, st, es);
    hide ShardRun, Whole, Messages, StripWidth, Owner, Delivered;
    assert StageGrid(u.net.grid, 0) == u.net.grid;
    FirstOutput(u.net, a, b, e);
    var f := InputFeat(u.net, a.lastT, e);
    var g := Forward(u.net, u.net.layers(0), u.net.grid, At(e), f, a.m0.a);
    forall c | Touches(u.net.layers(1), u.net.grid, At(e), c) ensures a.m0.b(c) == b.m0.b(c) {
      assert Within(u, k, c.x, 1);
    }
    GatherLocal(u.net, u.net.layers(1), u.net.grid, At(e), g, a.m0.b, b.m0.b, 0);
  }

  // ---- temporal dropout across shards ----

  /** No pooled cell straddles two strips. */
  predicate Aligned(u: Setup)
    requires Sound(u)
  {
    u.Strip() % 2 == 0 || u.net.grid.w <= u.Strip()
  }

  lemma PoolOwner(u: Setup, x: int, y: int)
    requires Sound(u) && Aligned(u) && 0 <= x < u.net.grid.w && 0 <= y < u.net.grid.w && x / 2 == y / 2
    ensures Owner(u, x) == Owner(u, y)
  {
    OwnerDelivered(u, x);
    OwnerDelivered(u, y);
    var s, a, b := u.Strip(), Owner(u, x), Owner(u, y);
    hide StripWidth, Owner, Delivered;
    if s % 2 == 0 {
      HalfStrip(a, b, s, x, y);
      HalfStrip(b, a, s, y, x);
    } else {
      TimesLess(s, a, 1);
      TimesLess(s, b, 1);
      TimesLess(s, -1, a);
      TimesLess(s, -1, b);
    }
  }

  lemma HalfStrip(a: int, b: int, s: int, x: int, y: int)
    requires s >= 2 && s % 2 == 0 && a * s <= x < (a + 1) * s && b * s <= y < (b + 1) * s && x / 2 == y / 2
    ensures a <= b
  {
    var h := s / 2;
    assert a * s == 2 * (a * h) && (b + 1) * s == 2 * ((b + 1) * h);
    TimesLess(h, a, b + 1);
  }

  /** The byte of a pooled cell counts the owned events on it, modulo 256. */
  lemma StepByte(n: Net, st: State, m: Msg, c: Cell)
    ensures ShardStep(n, st, m).m0.drop(c)
         == if InGrid(n.grid, At(m.e)) && m.owner && Pool(At(m.e)) == c then (st.m0.drop(c) + 1) % 256
           else st.m0.drop(c)
  {
    hide Refresh, InputFeat;
  }

  /** One more event in the queue of shard k. */
  lemma MessagesStep(u: Setup, k: int, es: seq<Event>)
    requires Sound(u) && es != []
    ensures var e, ms := es[|es| - 1], Messages(u, k, es[..|es| - 1]);
      if InGrid(u.net.grid, At(e)) && Delivered(u, k, e.x) then
        var m := Msg(e, k == Owner(u, e.x));
        Messages(u, k, es) == ms + [m] && forall n, st ::
          ShardRun(n, st, ms + [m]) == ShardStep(n, ShardRun(n, st, ms), m)
      else Messages(u, k, es) == ms
  {
    var e, ms := es[|es| - 1], Messages(u, k, es[..|es| - 1]);
    if InGrid(u.net.grid, At(e)) && Delivered(u, k, e.x) {
      var m := Msg(e, k == Owner(u, e.x));
      assert (ms + [m])[..|ms|] == ms;
    }
  }

  /** Owned bytes: on the pooled cells of its own events a shard counts what the whole counts. */
  lemma {:induction false} BytesAgree(u: Setup, k: nat, st: State, es: seq<Event>, c: Cell)
    requires Sound(u) && k < u.n
    requires forall x :: 0 <= x < u.net.grid.w && x / 2 == c.x ==> Owner(u, x) == k
    ensures ShardRun(u.net, st, Messages(u, k, es)).m0.drop(c) == Whole(u.net, st, es).m0.drop(c)
  {
    hide StripWidth, ShardStep, Owner, Delivered;
    if es == [] {
    } else {
      var rest, e := es[..|es| - 1], es[|es| - 1];
      BytesAgree(u, k, st, rest, c);
      MessagesStep(u, k, es);
      var a, b := ShardRun(u.net, st, Messages(u, k, rest)), Whole(u.net, st, rest);
      if InGrid(u.net.grid, At(e)) {
        OwnerDelivered(u, e.x);
        StepByte(u.net, a, Msg(e, k == Owner(u, e.x)), c);
      }
      StepByte(u.net, b, Msg(e, true), c);
    }
  }

  /** With aligned strips the owner takes the same pass/drop decision as the unsharded run. */
  lemma DecisionsAgree(u: Setup, st: State, es: seq<Event>, e: Event)
    requires Sound(u) && Aligned(u) && InGrid(u.net.grid, At(e))
    ensures Passed(u.net, ShardRun(u.net, st, Messages(u, Owner(u, e.x), es)), e)
      == Passed(u.net, Whole(u.net, st, es), e)
  {
    OwnerDelivered(u, e.x);
    forall x | 0 <= x < u.net.grid.w && x / 2 == e.x / 2 ensures Owner(u, x) == Owner(u, e.x) { PoolOwner(u, x, e.x); }
    BytesAgree(u, Owner(u, e.x), st, es, Pool(At(e)));
  }

  /** Output and decision are what stage 1 sees of the event in the sequential chain. */
  lemma OutIsReach(n: Net, st: State, e: Event)
    requires InGrid(n.grid, At(e))
    ensures Reach(n, 0, st, Raw(e), 1) == if Passed(n, st, e) then Some(Staged(Pool(At(e)), Out(n, st, e))) else None
  {
    hide StageFeat, Ran, Checked, InputFeat, Stamp, Passes;
    ReachNext(n, 0, st, Raw(e), 0);
  }

  /** So what the sequential run feeds to stage 1, if it feeds anything, is the output of the owner's
      replica; with aligned strips the owner decides so too. */
  lemma OwnerFeedsNext(u: Setup, st: State, es: seq<Event>, e: Event)
    requires Sound(u) && Cone(u.net) && Enough(u) && InGrid(u.net.grid, At(e))
    ensures var r := ShardRun(u.net, st, Messages(u, Owner(u, e.x), es));
      var x := Reach(u.net, 0, Run(u.net, st, es), Raw(e), 1);
      && (x.Some? ==> x.value == Staged(Pool(At(e)), Out(u.net, r, e)))
      && (Aligned(u) ==> (x.Some? <==> Passed(u.net, r, e)))
  {
    OwnerIsExact(u, st, es, e);
    WholeIsSequential(u.net, st, es);
    OutIsReach(u.net, Run(u.net, st, es), e);
    SameOut(u.net, Whole(u.net, st, es), Run(u.net, st, es), e);
    if Aligned(u) { DecisionsAgree(u, st, es, e); }
    hide ShardRun, Whole, Run, Messages, Owner, Out, Passed, Reach;
  }

  lemma SameOut(n: Net, a: State, b: State, e: Event)
    requires a.lastT == b.lastT && a.m0 == b.m0
    ensures Out(n, a, e) == Out(n, b, e) && Passed(n, a, e) == Passed(n, b, e)
  {
  }

  /** And only then: two neighbours across an odd boundary both pass when sharded, one passes unsharded. */
  lemma DecisionsAgreeExactly(u: Setup, st: State)
    requires Sound(u) && u.net.grid.h >= 1 && u.net.window > 1 && forall c :: st.m0.drop(c) == 0
    ensures (forall es, e :: InGrid(u.net.grid, At(e)) ==>
               Passed(u.net, ShardRun(u.net, st, Messages(u, Owner(u, e.x), es)), e)
                 == Passed(u.net, Whole(u.net, st, es), e))
            <==> Aligned(u)
  {
    if Aligned(u) {
      forall es, e | InGrid(u.net.grid, At(e))
        ensures Passed(u.net, ShardRun(u.net, st, Messages(u, Owner(u, e.x), es)), e)
          == Passed(u.net, Whole(u.net, st, es), e)
      {
        DecisionsAgree(u, st, es, e);
      }
    } else {
      StripPositive(u.net.grid.w, u.n);
      var s := u.Strip();
      var a, b := Event(0.0, s - 1, 0, 0.0), Event(0.0, s, 0, 0.0);
      Straddle(u, st, a, b);
      assert Passed(u.net, ShardRun(u.net, st, Messages(u, Owner(u, b.x), [a])), b) != Passed(u.net,
        Whole(u.net, st, [a]), b);
    }
  }

  lemma Straddle(u: Setup, st: State, a: Event, b: Event)
    requires Sound(u) && u.net.window > 1 && (forall c :: st.m0.drop(c) == 0)
    requires InGrid(u.net.grid, At(a)) && InGrid(u.net.grid, At(b)) && Pool(At(a)) == Pool(At(b))
    requires u.Strip() >= 1 && a.x == u.Strip() - 1 && b.x == u.Strip()
    ensures Passed(u.net, ShardRun(u.net, st, Messages(u, Owner(u, b.x), [a])), b)
      && !Passed(u.net, Whole(u.net, st, [a]), b)
  {
    hide StripWidth, ShardStep, Owner, Delivered, Messages, ShardRun, Whole, Passes, Pool;
    Neighbours(u, a.x, b.x);
    JustOne(u, 1, st, a);
    StepByte(u.net, st, Msg(a, false), Pool(At(b)));
    StepByte(u.net, st, Msg(a, true), Pool(At(b)));
    FirstPasses(u.net.window);
  }

  lemma FirstPasses(window: nat)
    requires window > 1
    ensures Passes(window, 0) && !Passes(window, 1)
  {
  }

  /** A stream of one event. */
  lemma JustOne(u: Setup, k: int, st: State, a: Event)
    requires Sound(u) && InGrid(u.net.grid, At(a))
    ensures ShardRun(u.net, st, Messages(u, k, [a]))
         == if Delivered(u, k, a.x) then ShardStep(u.net, st, Msg(a, k == Owner(u, a.x))) else st
    ensures Whole(u.net, st, [a]) == ShardStep(u.net, st, Msg(a, true))
  {
    hide StripWidth, ShardStep, Owner, Delivered, InGrid;
    assert [a][..0] == [];
    assert Messages(u, k, []) == [] && Whole(u.net, st, []) == st && ShardRun(u.net, st, []) == st;
    MessagesStep(u, k, [a]);
  }

  lemma Neighbours(u: Setup, x: int, y: int)
    requires Sound(u) && u.Strip() >= 1 && x == u.Strip() - 1 && y == u.Strip() && y < u.net.grid.w
    ensures Owner(u, x) == 0 && Owner(u, y) == 1
  {
    OwnerDelivered(u, x);
    OwnerDelivered(u, y);
    var s := u.Strip();
    hide *;
    Unique(x, 0, x, s);
    Unique(y, 1, 0, s);
  }
}
