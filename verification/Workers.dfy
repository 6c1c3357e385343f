/** The shard workers of stages 0 and 1, and the router in front of them. */
module Workers {
  import opened Arith
  import opened Geometry
  import opened Network
  import opened Sequential
  import opened Ownership
  import opened Tdrop
  import opened Rings
  import opened Chain
  import opened Halo
  import opened Pipeline

  /** Shard queues of the halo scheme.  A push waits while a ring is full, so a queue only ever
      grows at its end; what a worker has taken so far is a prefix of it. */
  class Router {
    const u: Setup
    var queues: seq<seq<Msg>>
    var outOfBounds: nat

    ghost predicate Valid()
      reads this
    {
      Sound(u) && |queues| == u.n
    }

    constructor (setup: Setup)
      requires Sound(setup)
      ensures Valid() && u == setup && outOfBounds == 0 && forall k :: 0 <= k < |queues| ==> queues[k] == []
    {
      u := setup;
      queues := seq(setup.n, _ => []);
      outOfBounds := 0;
    }

    /** s0_submit_batch: every shard is sent exactly its messages, in the order of the stream. */
    method SubmitBatch(es: seq<Event>) returns (accepted: nat)
      requires Valid()
      modifies this
      ensures Valid()
      ensures forall k :: 0 <= k < u.n ==> queues[k] == old(queues[k]) + Messages(u, k, es)
      ensures accepted + (outOfBounds - old(outOfBounds)) == |es|
      ensures accepted == OnSensor(u.net.grid, es)
    {
      accepted := 0;
      for i := 0 to |es|
        invariant Valid() && accepted + (outOfBounds - old(outOfBounds)) == i
          && accepted == OnSensor(u.net.grid, es[..i])
        invariant forall k :: 0 <= k < u.n ==> queues[k] == old(queues[k]) + Messages(u, k, es[..i])
      {
        assert es[..i + 1][..i] == es[..i];
        var e := es[i];
        if e.x < 0 || e.x >= u.net.grid.w || e.y < 0 || e.y >= u.net.grid.h {
          outOfBounds := outOfBounds + 1;
          continue;
        }
        Route(e);
        accepted := accepted + 1;
      }
      assert es[..|es|] == es;
    }

    method Route(e: Event)
      requires Valid() && InGrid(u.net.grid, At(e))
      modifies this`queues
      ensures Valid()
      ensures forall k :: 0 <= k < u.n ==>
        queues[k] == old(queues[k]) + if Delivered(u, k, e.x) then [Msg(e, k == Owner(u, e.x))] else []
    {
      StripPositive(u.net.grid.w, u.n);
      var strip := u.Strip();
      var owner := if e.x / strip < u.n - 1 then e.x / strip else u.n - 1;
      for dk := -1 to 2
        invariant Valid()
        invariant forall k :: 0 <= k < u.n ==>
          queues[k] == old(queues[k]) + if Delivered(u, k, e.x) && k - e.x / strip < dk
            then [Msg(e, k == Owner(u, e.x))] else []
      {
        var k := e.x / strip + dk;
        if k < 0 || k >= u.n { continue; }
        var lo := k * strip - u.halo;
        var hi := (k + 1) * strip + u.halo;
        if e.x < lo || e.x >= hi { continue; }
        queues := queues[k := queues[k] + [Msg(e, k == owner)]];
      }
    }
  }

  function OnSensor(g: Size, es: seq<Event>): nat {
    if es == [] then 0 else OnSensor(g, es[..|es| - 1]) + if InGrid(g, At(es[|es| - 1])) then 1 else 0
  }

  /** The stage-0 worker: preprocess and stage 0 for every message on the sensor, the tdrop check for
      those it owns; it counts owned, halo and passed events. */
  method ZeroWorker(p: Pipe, ms: seq<Msg>, ghost st: State) returns (owners: nat, halos: nat, passed: nat)
    requires p.Valid() && p.Holds(st)
    modifies p.Repr()
    ensures p.Holds(ShardRun(p.net, st, ms))
    ensures (owners, halos, passed) == ZeroCounts(p.net, st, ms)
    ensures owners == |OwnedAt(p.net.grid, ms)| && halos == |HaloAt(p.net.grid, ms)|
      && passed == |PassedAt(p.net, st, ms)|
  {
    hide ShardStep, Passed, Pipe.Valid, Pipe.Holds, OwnedAt, HaloAt, PassedAt;
    ZeroCountsAre(p.net, st, ms);
    owners, halos, passed := 0, 0, 0;
    for i := 0 to |ms|
      invariant p.Holds(ShardRun(p.net, st, ms[..i])) && (owners, halos, passed) == ZeroCounts(p.net, st, ms[..i])
    {
      assert ms[..i + 1][..i] == ms[..i];
      var pass, _ := ZeroServe(p, ms[i], ShardRun(p.net, st, ms[..i]));
      if !InGrid(p.net.grid, At(ms[i].e)) { continue; }
      if ms[i].owner {
        owners := owners + 1;
        if pass { passed := passed + 1; }
      } else {
        halos := halos + 1;
      }
    }
    assert ms[..|ms|] == ms;
  }

  /** The output of stage 0 is made for halo events as well. */
  method ZeroServe(p: Pipe, m: Msg, ghost st: State) returns (pass: bool, out: Option<Feat>)
    requires p.Valid() && p.Holds(st)
    modifies p.Repr()
    ensures p.Holds(ShardStep(p.net, st, m))
    ensures InGrid(p.net.grid, At(m.e)) && m.owner ==> pass == Passed(p.net, st, m.e)
    ensures out == if InGrid(p.net.grid, At(m.e)) then Some(Out(p.net, st, m.e)) else None
  {
    var at := At(m.e);
    if !InGrid(p.net.grid, at) { return false, None; }
    var f := p.Preprocess(m.e, st);
    ghost var st1 := st.(lastT := Stamp(st.lastT, m.e));
    var f0 := p.StageForward(0, at, f, st1);
    pass, out := false, Some(f0);
    if !m.owner { return; }
    pass := p.TdropAndPool(0, at, Ran(p.net, 0, st1, at, f));
  }

  function ZeroCounts(n: Net, st: State, ms: seq<Msg>): (nat, nat, nat) {
    if ms == [] then (0, 0, 0)
    else
      var rest, m := ms[..|ms| - 1], ms[|ms| - 1];
      var (o, h, p) := ZeroCounts(n, st, rest);
      if !InGrid(n.grid, At(m.e)) then (o, h, p)
      else if !m.owner then (o, h + 1, p)
      else (o + 1, h, if Passed(n, ShardRun(n, st, rest), m.e) then p + 1 else p)
  }

  /** Messages of a queue on the sensor: owned ones, halo ones. */
  function OwnedIn(g: Size, ms: seq<Msg>): nat {
    if ms == [] then 0
    else OwnedIn(g, ms[..|ms| - 1]) + if InGrid(g, At(ms[|ms| - 1].e)) && ms[|ms| - 1].owner then 1 else 0
  }

  function HaloIn(g: Size, ms: seq<Msg>): nat {
    if ms == [] then 0
    else HaloIn(g, ms[..|ms| - 1]) + if InGrid(g, At(ms[|ms| - 1].e)) && !ms[|ms| - 1].owner then 1 else 0
  }

  /** What the stage-0 worker reports. */
  lemma {:induction false} ZeroCountsMean(n: Net, st: State, ms: seq<Msg>)
    ensures var (o, h, p) := ZeroCounts(n, st, ms); o == OwnedIn(n.grid, ms) && h == HaloIn(n.grid, ms) && p <= o
  {
    hide Passed, ShardRun;
    if ms == [] {
    } else {
      ZeroCountsMean(n, st, ms[..|ms| - 1]);
    }
  }

  /** The messages of a queue on the sensor, by number: the owned ones, the halo ones ... */
  function OwnedAt(g: Size, ms: seq<Msg>): set<nat> {
    set i: nat | i < |ms| && InGrid(g, At(ms[i].e)) && ms[i].owner
  }

  function HaloAt(g: Size, ms: seq<Msg>): set<nat> {
    set i: nat | i < |ms| && InGrid(g, At(ms[i].e)) && !ms[i].owner
  }

  /** ... and the owned ones whose pooled cell holds, when they come to it, a byte that lets them pass. */
  function PassedAt(n: Net, st: State, ms: seq<Msg>): set<nat> {
    set i: nat | i in OwnedAt(n.grid, ms) && Passes(n.window, ShardRun(n, st, ms[..i]).m0.drop(Pool(At(ms[i].e))))
  }

  /** What the stage-0 worker reports, as numbers of messages. */
  lemma {:induction false} ZeroCountsAre(n: Net, st: State, ms: seq<Msg>)
    ensures ZeroCounts(n, st, ms) == (|OwnedAt(n.grid, ms)|, |HaloAt(n.grid, ms)|, |PassedAt(n, st, ms)|)
  {
    hide InGrid, ShardRun, Passes, Pool, At;
    if ms == [] {
      assert OwnedAt(n.grid, ms) == {} && HaloAt(n.grid, ms) == {} && PassedAt(n, st, ms) == {};
    } else {
      var k := |ms| - 1;
      var rest, m, on := ms[..k], ms[k], InGrid(n.grid, At(ms[k].e));
      ZeroCountsAre(n, st, rest);
      assert forall i: nat {:trigger ms[..i]} :: i < k ==> rest[..i] == ms[..i];
      OneMoreIndex(OwnedAt(n.grid, rest), OwnedAt(n.grid, ms), k, on && m.owner);
      OneMoreIndex(HaloAt(n.grid, rest), HaloAt(n.grid, ms), k, on && !m.owner);
      OneMoreIndex(PassedAt(n, st, rest), PassedAt(n, st, ms), k,
        on && m.owner && Passes(n.window, ShardRun(n, st, rest).m0.drop(Pool(At(m.e)))));
    }
  }

  /** The owned messages whose byte is that of cell c. */
  function AtByte(g: Size, ms: seq<Msg>, c: Cell): set<nat> {
    set i: nat | i in OwnedAt(g, ms) && Pool(At(ms[i].e)) == c
  }

  /** Cell by cell: the byte has counted the owned messages, and as many passed as that many touches
      of one byte let pass. */
  lemma {:induction false} CellPasses(n: Net, st: State, ms: seq<Msg>, c: Cell)
    requires st.m0.drop(c) < 256
    ensures ShardRun(n, st, ms).m0.drop(c) == (st.m0.drop(c) + |AtByte(n.grid, ms, c)|) % 256
    ensures |PassedAt(n, st, ms) * AtByte(n.grid, ms, c)|
      == PassCount(n.window, st.m0.drop(c), |AtByte(n.grid, ms, c)|)
  {
    hide InGrid, Passes, Pool, At, ShardStep, PassCount, AtByte, PassedAt;
    if ms == [] {
      NoTouch(n, st, c);
    } else {
      var rest, m := ms[..|ms| - 1], ms[|ms| - 1];
      CellPasses(n, st, rest, c);
      OneMoreAtByte(n, st, ms, c);
      var r, hit := ShardRun(n, st, rest), InGrid(n.grid, At(m.e)) && m.owner && Pool(At(m.e)) == c;
      StepByte(n, r, m, c);
      Touch(n.window, st.m0.drop(c), r.m0.drop(c), |AtByte(n.grid, rest, c)|, hit,
        hit && Passes(n.window, r.m0.drop(c)));
    }
  }

  lemma OneMoreAtByte(n: Net, st: State, ms: seq<Msg>, c: Cell)
    requires ms != []
    ensures var rest, m := ms[..|ms| - 1], ms[|ms| - 1];
      var hit := InGrid(n.grid, At(m.e)) && m.owner && Pool(At(m.e)) == c;
      && |AtByte(n.grid, ms, c)| == |AtByte(n.grid, rest, c)| + (if hit then 1 else 0)
      && |PassedAt(n, st, ms) * AtByte(n.grid, ms, c)| == |PassedAt(n, st, rest) * AtByte(n.grid, rest, c)|
        + if hit && Passes(n.window, ShardRun(n, st, rest).m0.drop(c)) then 1 else 0
  {
    hide InGrid, Passes, Pool, At, ShardRun;
    var k := |ms| - 1;
    var rest, m := ms[..k], ms[k];
    var hit := InGrid(n.grid, At(m.e)) && m.owner && Pool(At(m.e)) == c;
    assert forall i: nat {:trigger ms[..i]} :: i < k ==> rest[..i] == ms[..i];
    OneMoreIndex(AtByte(n.grid, rest, c), AtByte(n.grid, ms, c), k, hit);
    OneMoreIndex(PassedAt(n, st, rest) * AtByte(n.grid, rest, c), PassedAt(n, st, ms) * AtByte(n.grid, ms, c), k,
      hit && Passes(n.window, ShardRun(n, st, rest).m0.drop(c)));
  }

  lemma NoTouch(n: Net, st: State, c: Cell)
    requires st.m0.drop(c) < 256
    ensures AtByte(n.grid, [], c) == {} && PassedAt(n, st, []) == {} && PassCount(n.window, st.m0.drop(c), 0) == 0
  {
  }

  /** So a worker whose owned messages all lie on one pooled cell reports the passes of one byte. */
  lemma OneCellPasses(n: Net, st: State, ms: seq<Msg>, c: Cell)
    requires st.m0.drop(c) < 256 && forall i :: i in OwnedAt(n.grid, ms) ==> Pool(At(ms[i].e)) == c
    ensures var (owners, _, passed) := ZeroCounts(n, st, ms); passed == PassCount(n.window, st.m0.drop(c), owners)
  {
    ZeroCountsAre(n, st, ms);
    CellPasses(n, st, ms, c);
    assert AtByte(n.grid, ms, c) == OwnedAt(n.grid, ms);
    assert PassedAt(n, st, ms) * OwnedAt(n.grid, ms) == PassedAt(n, st, ms);
    hide PassCount;
  }

  /** Owned messages of the shards below k. */
  function Owners(u: Setup, es: seq<Event>, k: nat): nat
    requires Sound(u)
  {
    if k == 0 then 0 else Owners(u, es, k - 1) + OwnedIn(u.net.grid, Messages(u, k - 1, es))
  }

  lemma {:induction false} OwnersStep(u: Setup, es: seq<Event>, k: nat)
    requires Sound(u) && es != []
    ensures var e, rest := es[|es| - 1], es[..|es| - 1];
      Owners(u, es, k) == Owners(u, rest, k) + if InGrid(u.net.grid, At(e)) && Owner(u, e.x) < k then 1 else 0
  {
    hide Owner, Delivered, Sound, Messages, OwnedIn, InGrid, At;
    OwnerExists(u, es[|es| - 1]);
    if k == 0 {
    } else {
      OwnersStep(u, es, k - 1);
      OneMoreOwned(u, es, k - 1);
    }
  }

  lemma OneMoreOwned(u: Setup, es: seq<Event>, k: nat)
    requires Sound(u) && es != []
    ensures var e, rest := es[|es| - 1], es[..|es| - 1];
      OwnedIn(u.net.grid, Messages(u, k, es))
      == OwnedIn(u.net.grid, Messages(u, k, rest)) + if InGrid(u.net.grid, At(e)) && k == Owner(u, e.x) then 1 else 0
  {
    hide Owner, Delivered, Messages, OwnedIn, Sound;
    var e := es[|es| - 1];
    MessagesStep(u, k, es);
    if InGrid(u.net.grid, At(e)) {
      OwnerDelivered(u, e.x);
      OwnedStep(u.net.grid, Messages(u, k, es[..|es| - 1]), Msg(e, k == Owner(u, e.x)));
    }
  }

  lemma OwnedStep(g: Size, ms: seq<Msg>, m: Msg)
    ensures OwnedIn(g, ms + [m]) == OwnedIn(g, ms) + if InGrid(g, At(m.e)) && m.owner then 1 else 0
  {
    assert (ms + [m])[..|ms|] == ms;
  }

  /** Conservation: over all shards every event on the sensor is owned exactly once. */
  lemma {:induction false} OwnedOnce(u: Setup, es: seq<Event>)
    requires Sound(u)
    ensures Owners(u, es, u.n) == OnSensor(u.net.grid, es)
  {
    hide Owner, Sound;
    if es == [] {
      NobodyOwns(u, u.n);
    } else {
      OwnedOnce(u, es[..|es| - 1]);
      OwnersStep(u, es, u.n);
      OwnerExists(u, es[|es| - 1]);
    }
  }

  lemma OwnerExists(u: Setup, e: Event)
    requires Sound(u)
    ensures InGrid(u.net.grid, At(e)) ==> 0 <= Owner(u, e.x) < u.n
  {
    StripPositive(u.net.grid.w, u.n);
    if InGrid(u.net.grid, At(e)) {
      hide StripWidth;
      Split(e.x, u.Strip());
      TimesLess(u.Strip(), -1, e.x / u.Strip());
    }
  }

  lemma {:induction false} NobodyOwns(u: Setup, k: nat)
    requires Sound(u)
    ensures Owners(u, [], k) == 0
  {
    if k == 0 {
    } else {
      NobodyOwns(u, k - 1);
    }
  }

  // ---- stages 0 and 1 on one shard ----

  /** What became of a message: not on the sensor, halo, dropped at the first or second boundary,
      or passed on with its stage-2 cell and its stage-1 feature. */
  datatype Reply = Skipped | HaloOnly | Dropped0 | Dropped1 | Sent(at: Cell, feat: Feat)

  datatype Counters = Counters(owners: nat, halos: nat, pass0: nat, pass1: nat)

  /** The counters after one more message. */
  function Count(c: Counters, r: Reply): Counters {
    match r
    case Skipped => c
    case HaloOnly => c.(halos := c.halos + 1)
    case Dropped0 => c.(owners := c.owners + 1)
    case Dropped1 => c.(owners := c.owners + 1, pass0 := c.pass0 + 1)
    case Sent(_, _) => c.(owners := c.owners + 1, pass0 := c.pass0 + 1, pass1 := c.pass1 + 1)
  }

  function Tally(rs: seq<Reply>): Counters {
    if rs == [] then Counters(0, 0, 0, 0) else Count(Tally(rs[..|rs| - 1]), rs[|rs| - 1])
  }

  lemma TallyStep(rs: seq<Reply>, r: Reply)
    ensures Tally(rs + [r]) == Count(Tally(rs), r)
  {
    assert (rs + [r])[..|rs|] == rs;
  }

  /** Forward, then tdrop: the meaning of a message. */
  function Serve(n: Net, st: State, m: Msg): (State, Reply) {
    var at := At(m.e);
    if !InGrid(n.grid, at) then (st, Skipped)
    else
      var f := InputFeat(n, st.lastT, m.e);
      var st0 := st.(lastT := Stamp(st.lastT, m.e));
      var st1 := Ran(n, 0, st0, at, f);
      if !m.owner then (st1, HaloOnly)
      else
        var at1, out0 := Pool(at), StageFeat(n, 0, st.m0, at, f);
        var st2 := Checked(0, st1, at1);
        if !Passes(n.window, st.m0.drop(at1)) then (st2, Dropped0)
        else
          var at2, out1, st3 := Pool(at1), StageFeat(n, 1, st.m1, at1, out0), Ran(n, 1, st2, at1, out0);
          (Checked(1, st3, at2), if Passes(n.window, st.m1.drop(at2)) then Sent(at2, out1) else Dropped1)
  }

  function ServeAll(n: Net, st: State, ms: seq<Msg>): (State, seq<Reply>) {
    if ms == [] then (st, [])
    else
      var (st1, rs) := ServeAll(n, st, ms[..|ms| - 1]);
      var (st2, r) := Serve(n, st1, ms[|ms| - 1]);
      (st2, rs + [r])
  }

  /** What the workers' counters report: owned and halo messages on the sensor, whatever the state,
      of the owned ones those past the first boundary, of these those past the second. */
  lemma {:induction false} TallyMeans(n: Net, st: State, ms: seq<Msg>)
    ensures var rs, c := ServeAll(n, st, ms).1, Tally(ServeAll(n, st, ms).1);
      && |rs| == |ms| && c.owners == OwnedIn(n.grid, ms) && c.halos == HaloIn(n.grid, ms)
        && c.pass1 <= c.pass0 <= c.owners
  {
    hide StageFeat, Ran, Checked, Passes, InputFeat, Stamp;
    if ms == [] {
    } else {
      var rest, m := ServeAll(n, st, ms[..|ms| - 1]), ms[|ms| - 1];
      TallyMeans(n, st, ms[..|ms| - 1]);
      TallyStep(rest.1, Serve(n, rest.0, m).1);
    }
  }

  /** The owned messages that pass the first boundary, and of these those that pass the second. */
  function Pass0At(n: Net, st: State, ms: seq<Msg>): set<nat> {
    set i: nat | i in OwnedAt(n.grid, ms) && Passes(n.window, ServeAll(n, st, ms[..i]).0.m0.drop(Pool(At(ms[i].e))))
  }

  function Pass1At(n: Net, st: State, ms: seq<Msg>): set<nat> {
    set i: nat | i in Pass0At(n, st, ms)
                 && Passes(n.window, ServeAll(n, st, ms[..i]).0.m1.drop(Pool(Pool(At(ms[i].e)))))
  }

  /** The counters of a queue are numbers of messages. */
  lemma {:induction false} TallyAre(n: Net, st: State, ms: seq<Msg>)
    ensures Tally(ServeAll(n, st, ms).1)
      == Counters(|OwnedAt(n.grid, ms)|, |HaloAt(n.grid, ms)|, |Pass0At(n, st, ms)|, |Pass1At(n, st, ms)|)
  {
    hide InGrid, Passes, Pool, At, Serve, Count, OwnedAt, HaloAt, Pass0At, Pass1At;
    if ms == [] {
      NoneServed(n, st);
    } else {
      var rest, m := ms[..|ms| - 1], ms[|ms| - 1];
      var s := ServeAll(n, st, rest).0;
      TallyAre(n, st, rest);
      TallyStep(ServeAll(n, st, rest).1, Serve(n, s, m).1);
      CountOf(n, s, m, Tally(ServeAll(n, st, rest).1));
      OneMoreServed(n, st, ms);
    }
  }

  lemma NoneServed(n: Net, st: State)
    ensures OwnedAt(n.grid, []) == HaloAt(n.grid, []) == Pass0At(n, st, []) == Pass1At(n, st, []) == {}
  {
  }

  lemma OneMoreServed(n: Net, st: State, ms: seq<Msg>)
    requires ms != []
    ensures var rest, m := ms[..|ms| - 1], ms[|ms| - 1];
      var s, on := ServeAll(n, st, rest).0, InGrid(n.grid, At(m.e));
      var one := on && m.owner && Passes(n.window, s.m0.drop(Pool(At(m.e))));
      var two := one && Passes(n.window, s.m1.drop(Pool(Pool(At(m.e)))));
      && |OwnedAt(n.grid, ms)| == |OwnedAt(n.grid, rest)| + (if on && m.owner then 1 else 0)
      && |HaloAt(n.grid, ms)| == |HaloAt(n.grid, rest)| + (if on && !m.owner then 1 else 0)
      && |Pass0At(n, st, ms)| == |Pass0At(n, st, rest)| + (if one then 1 else 0)
      && |Pass1At(n, st, ms)| == |Pass1At(n, st, rest)| + if two then 1 else 0
  {
    hide InGrid, Passes, Pool, At, ServeAll;
    var k := |ms| - 1;
    var rest, m := ms[..k], ms[k];
    var s, on := ServeAll(n, st, rest).0, InGrid(n.grid, At(m.e));
    var one := on && m.owner && Passes(n.window, s.m0.drop(Pool(At(m.e))));
    assert forall i: nat {:trigger ms[..i]} :: i < k ==> rest[..i] == ms[..i];
    OneMoreIndex(OwnedAt(n.grid, rest), OwnedAt(n.grid, ms), k, on && m.owner);
    OneMoreIndex(HaloAt(n.grid, rest), HaloAt(n.grid, ms), k, on && !m.owner);
    OneMoreIndex(Pass0At(n, st, rest), Pass0At(n, st, ms), k, one);
    OneMoreIndex(Pass1At(n, st, rest), Pass1At(n, st, ms), k, one
      && Passes(n.window, s.m1.drop(Pool(Pool(At(m.e))))));
  }

  /** One message and the four counters. */
  lemma CountOf(n: Net, st: State, m: Msg, c: Counters)
    ensures var on, owner := InGrid(n.grid, At(m.e)), m.owner;
      var one := on && owner && Passes(n.window, st.m0.drop(Pool(At(m.e))));
      var two := one && Passes(n.window, st.m1.drop(Pool(Pool(At(m.e)))));
      Count(c, Serve(n, st, m).1) == Counters(
        c.owners + (if on && owner then 1 else 0), c.halos + (if on && !owner then 1 else 0),
        c.pass0 + (if one then 1 else 0), c.pass1 + if two then 1 else 0)
  {
    hide StageFeat, Ran, Checked, Passes, InputFeat, Stamp;
  }

  /** What the owner answers is how far the event comes in the sequential chain of stages, and with
      what: it is sent on exactly if it reaches stage 2, at the cell and with the feature it has there. */
  lemma ServeReaches(n: Net, st: State, e: Event)
    ensures var r := Serve(n, st, Msg(e, true)).1;
      && (r == Skipped <==> !InGrid(n.grid, At(e)))
      && (r == Dropped0 <==> InGrid(n.grid, At(e)) && Reach(n, 0, st, Raw(e), 1) == None)
      && (r == Dropped1 <==> Reach(n, 0, st, Raw(e), 1).Some? && Reach(n, 0, st, Raw(e), 2) == None)
      && forall at, f :: r == Sent(at, f) <==> Reach(n, 0, st, Raw(e), 2) == Some(Staged(at, f))
  {
    hide StageFeat, Ran, Checked, Passes, InputFeat, Stamp;
    ReachNext(n, 0, st, Raw(e), 0);
    ReachNext(n, 0, st, Raw(e), 1);
  }

  /** On stage 0 a shard that also runs stage 1 behaves like one that does not. */
  lemma {:induction false} ServeIsShardRun(n: Net, st: State, ms: seq<Msg>)
    ensures ServeAll(n, st, ms).0.lastT == ShardRun(n, st, ms).lastT
      && ServeAll(n, st, ms).0.m0 == ShardRun(n, st, ms).m0
  {
    if ms == [] {
    } else {
      ServeIsShardRun(n, st, ms[..|ms| - 1]);
    }
  }

  /** A shard that owns everything: the sequential run up to the second boundary. */
  lemma {:induction false} OwnerOfAll(n: Net, st: State, es: seq<Event>)
    ensures var r := ServeAll(n, st, Owned(es)).0;
      r.lastT == Run(n, st, es).lastT && r.m0 == Run(n, st, es).m0 && r.m1 == Run(n, st, es).m1
  {
    if es == [] {
    } else {
      var rest, e := es[..|es| - 1], es[|es| - 1];
      OwnerOfAll(n, st, rest);
      assert Owned(es)[..|es| - 1] == Owned(rest);
      OwnerStep(n, ServeAll(n, st, Owned(rest)).0, Run(n, st, rest), e);
    }
  }

  /** And it answers every event of the stream as the sequential run does. */
  lemma RepliesAreSequential(n: Net, st: State, es: seq<Event>, i: nat)
    requires i < |es|
    ensures |ServeAll(n, st, Owned(es)).1| == |es|
    ensures var r, s := ServeAll(n, st, Owned(es)).1[i], Run(n, st, es[..i]);
      && (r == Skipped <==> !InGrid(n.grid, At(es[i])))
      && (r == Dropped0 <==> InGrid(n.grid, At(es[i])) && Reach(n, 0, s, Raw(es[i]), 1) == None)
      && (r == Dropped1 <==> Reach(n, 0, s, Raw(es[i]), 1).Some? && Reach(n, 0, s, Raw(es[i]), 2) == None)
      && forall at, f :: r == Sent(at, f) <==> Reach(n, 0, s, Raw(es[i]), 2) == Some(Staged(at, f))
  {
    ReplyAt(n, st, Owned(es), i);
    assert Owned(es)[..i] == Owned(es[..i]);
    OwnerOfAll(n, st, es[..i]);
    SameReply(n, ServeAll(n, st, Owned(es[..i])).0, Run(n, st, es[..i]), Msg(es[i], true));
    hide Serve, Reach, ServeAll, Run;
    ServeReaches(n, Run(n, st, es[..i]), es[i]);
  }

  lemma {:induction false} ReplyAt(n: Net, st: State, ms: seq<Msg>, i: nat)
    requires i < |ms|
    ensures |ServeAll(n, st, ms).1| == |ms|
    ensures ServeAll(n, st, ms).1[i] == Serve(n, ServeAll(n, st, ms[..i]).0, ms[i]).1
  {
    hide Serve;
    var k := |ms| - 1;
    TallyMeans(n, st, ms[..k]);
    if i == k {
    } else {
      ReplyAt(n, st, ms[..k], i);
      assert ms[..k][..i] == ms[..i];
    }
  }

  lemma SameReply(n: Net, a: State, b: State, m: Msg)
    requires a.lastT == b.lastT && a.m0 == b.m0 && a.m1 == b.m1
    ensures Serve(n, a, m).1 == Serve(n, b, m).1
  {
    hide StageFeat, Passes, InputFeat, Stamp;
  }

  function Owned(es: seq<Event>): seq<Msg> {
    seq(|es|, i requires 0 <= i < |es| => Msg(es[i], true))
  }

  lemma OwnerStep(n: Net, a: State, b: State, e: Event)
    requires a.lastT == b.lastT && a.m0 == b.m0 && a.m1 == b.m1
    ensures var r, q := Serve(n, a, Msg(e, true)).0, ProcessOne(n, b, e);
      r.lastT == q.lastT && r.m0 == q.m0 && r.m1 == q.m1
  {
    if InGrid(n.grid, At(e)) {
      var at1 := Pool(At(e));
      if Passes(n.window, b.m0.drop(at1)) {
        var f := InputFeat(n, b.lastT, e);
        var b2 := Checked(0, Ran(n, 0, b.(lastT := Stamp(b.lastT, e)), At(e), f), at1);
        var out0 := StageFeat(n, 0, b.m0, At(e), f);
        var b3 := Checked(1, Ran(n, 1, b2, at1, out0), Pool(at1));
        EnterBeyond(n, b3, Pool(at1), StageFeat(n, 1, b.m1, at1, out0));
      }
    }
  }

  lemma EnterBeyond(n: Net, st: State, ev: Cell, f: Feat)
    ensures Enter(n, 2, st, ev, f).lastT == st.lastT && Enter(n, 2, st, ev, f).m0 == st.m0
      && Enter(n, 2, st, ev, f).m1 == st.m1
  {
    var st1 := Ran(n, 2, st, ev, f);
    var st2 := Checked(2, st1, Pool(ev));
    assert Leave(n, 3, Ran(n, 3, st2, Pool(ev), StageFeat(n, 2, st.m2, ev, f)), Pool(ev),
                 StageFeat(n, 3, st.m3, Pool(ev), StageFeat(n, 2, st.m2, ev, f))).m1 == st.m1;
  }

  lemma ServeAllStep(n: Net, st: State, ms: seq<Msg>, i: nat)
    requires i < |ms|
    ensures var rest := ServeAll(n, st, ms[..i]);
      ServeAll(n, st, ms[..i + 1]) == (Serve(n, rest.0, ms[i]).0, rest.1 + [Serve(n, rest.0, ms[i]).1])
  {
    hide Serve;
    assert ms[..i + 1][..i] == ms[..i];
  }

  lemma NoReplies()
    ensures Tally([]) == Counters(0, 0, 0, 0)
  {
  }

  /** The worker that runs every stage in full and checks tdrop afterwards. */
  method PlainWorker(p: Pipe, ms: seq<Msg>, ghost st: State) returns (replies: seq<Reply>, total: Counters)
    requires p.Valid() && p.Holds(st)
    modifies p.Repr()
    ensures p.Holds(ServeAll(p.net, st, ms).0) && replies == ServeAll(p.net, st, ms).1 && total == Tally(replies)
    ensures total == Counters(|OwnedAt(p.net.grid, ms)|, |HaloAt(p.net.grid, ms)|, |Pass0At(p.net, st, ms)|,
      |Pass1At(p.net, st, ms)|)
  {
    hide Serve, Tally, Count, Pipe.Valid, Pipe.Holds, OwnedAt, HaloAt, Pass0At, Pass1At;
    TallyAre(p.net, st, ms);
    replies, total := [], Counters(0, 0, 0, 0);
    NoReplies();
    for i := 0 to |ms|
      invariant p.Holds(ServeAll(p.net, st, ms[..i]).0) && replies == ServeAll(p.net, st, ms[..i]).1
        && total == Tally(replies)
    {
      ServeAllStep(p.net, st, ms, i);
      var r := PlainServe(p, ms[i], ServeAll(p.net, st, ms[..i]).0);
      TallyStep(replies, r);
      replies, total := replies + [r], Count(total, r);
    }
    assert ms[..|ms|] == ms;
  }

  method PlainServe(p: Pipe, m: Msg, ghost st: State) returns (r: Reply)
    requires p.Valid() && p.Holds(st)
    modifies p.Repr()
    ensures p.Holds(Serve(p.net, st, m).0) && r == Serve(p.net, st, m).1
  {
    var at := At(m.e);
    if !InGrid(p.net.grid, at) { return Skipped; }
    var f := p.Preprocess(m.e, st);
    ghost var st0 := st.(lastT := Stamp(st.lastT, m.e));
    var out0 := p.StageForward(0, at, f, st0);
    ghost var st1 := Ran(p.net, 0, st0, at, f);
    if !m.owner { return HaloOnly; }
    var pass0 := p.TdropAndPool(0, at, st1);
    PoolInGrid(p.net.grid, 0, at);
    var at1 := Pool(at);
    ghost var st2 := Checked(0, st1, at1);
    if !pass0 { return Dropped0; }
    var out1 := p.StageForward(1, at1, out0, st2);
    ghost var st3 := Ran(p.net, 1, st2, at1, out0);
    var pass1 := p.TdropAndPool(1, at1, st3);
    r := if pass1 then Sent(Pool(at1), out1) else Dropped1;
  }

  /** The worker that checks tdrop first and then runs a stage state-only when its output is not
      wanted: the same state, the same decisions, and the same features where they are used. */
  method FastWorker(p: Pipe, ms: seq<Msg>, ghost st: State) returns (replies: seq<Reply>, total: Counters)
    requires p.Valid() && p.Holds(st)
    modifies p.Repr()
    ensures p.Holds(ServeAll(p.net, st, ms).0) && replies == ServeAll(p.net, st, ms).1 && total == Tally(replies)
    ensures total == Counters(|OwnedAt(p.net.grid, ms)|, |HaloAt(p.net.grid, ms)|, |Pass0At(p.net, st, ms)|,
      |Pass1At(p.net, st, ms)|)
  {
    hide Serve, Tally, Count, Pipe.Valid, Pipe.Holds, OwnedAt, HaloAt, Pass0At, Pass1At;
    TallyAre(p.net, st, ms);
    replies, total := [], Counters(0, 0, 0, 0);
    NoReplies();
    for i := 0 to |ms|
      invariant p.Holds(ServeAll(p.net, st, ms[..i]).0) && replies == ServeAll(p.net, st, ms[..i]).1
        && total == Tally(replies)
    {
      ServeAllStep(p.net, st, ms, i);
      var r := FastServe(p, ms[i], ServeAll(p.net, st, ms[..i]).0);
      TallyStep(replies, r);
      replies, total := replies + [r], Count(total, r);
    }
    assert ms[..|ms|] == ms;
  }

  method FastServe(p: Pipe, m: Msg, ghost st: State) returns (r: Reply)
    requires p.Valid() && p.Holds(st)
    modifies p.Repr()
    ensures p.Holds(Serve(p.net, st, m).0) && r == Serve(p.net, st, m).1
  {
    var at := At(m.e);
    if !InGrid(p.net.grid, at) { return Skipped; }
    var f := p.Preprocess(m.e, st);
    ghost var st0 := st.(lastT := Stamp(st.lastT, m.e));
    if !m.owner {
      p.StageForwardStateOnly(0, at, f, st0);
      return HaloOnly;
    }
    var at1 := Pool(at);
    PoolInGrid(p.net.grid, 0, at);
    var pass0 := p.TdropAndPool(0, at, st0);
    ghost var st1 := Checked(0, st0, at1);
    ghost var st2 := Ran(p.net, 0, st1, at, f);
    if !pass0 {
      p.StageForwardStateOnly(0, at, f, st1);
      return Dropped0;
    }
    var out0 := p.StageForward(0, at, f, st1);
    var pass1 := p.TdropAndPool(1, at1, st2);
    ghost var st3 := Checked(1, st2, Pool(at1));
    if pass1 {
      var out1 := p.StageForward(1, at1, out0, st3);
      r := Sent(Pool(at1), out1);
    } else {
      p.StageForwardStateOnly(1, at1, out0, st3);
      r := Dropped1;
    }
  }
}
