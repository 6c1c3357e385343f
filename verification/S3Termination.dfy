/** Every run of the sharded scheme is finite: each step adds at least one to a bounded score. */
module S3Termination {
  import opened Geometry
  import opened Network
  import opened Sequential
  import opened Commands
  import opened Ownership
  import opened Arith
  import opened ShardedLayer
  import opened Rings
  import opened S3Machine
  import opened S3Invariant
  import opened S3Layers
  import opened S3SumSteps
  import opened S3Runs
  import opened S3Refinement
  import opened S3Progress

  function ShardScore(sh: Shard): int {
    sh.input.zero.popped + sh.input.one.popped + sh.output.zero.Pushed() + sh.output.one.Pushed()
    + 2 * (sh.output.zero.popped + sh.output.one.popped)
  }

  function ShardScores(shards: seq<Shard>): int {
    if shards == [] then 0 else ShardScores(shards[..|shards| - 1]) + ShardScore(shards[|shards| - 1])
  }

  function HandScore(n: nat, issued: nat, hand: Option<Hand>): int {
    issued * (n + 1) - if hand.Some? then n - hand.value.next else 0
  }

  function SumScore(es: seq<Entry>, base0: int, base1: int, ds: seq<Dispatch>, deferred: Two<set<Partial>>): int
    requires 0 <= base0 <= |es|
  {
    base0 + base1 + 4 * Released(es, base0, ds) + (if ds == [] then 0 else |ds[0].delivered|)
    - |deferred.zero| - |deferred.one|
  }

  function Score(c: Config, p: Plan, s: Sys): int
    requires 0 <= Base(s, 0) <= |p.es|
  {
    s.pc + HandScore(c.n, s.issued, s.hand) + s.meta.popped
      + SumScore(p.es, Base(s, 0), Base(s, 1), s.dispatch, s.deferred)
    + s.stages.Pushed() + s.stages.popped + ShardScores(s.shards)
  }

  /** Steps per command: nine for each shard and eleven for the other threads. */
  function Bound(c: Config): nat {
    |c.program| * (9 * c.n + 11)
  }

  lemma {:induction false} ScoreUpdate(shards: seq<Shard>, k: nat, sh: Shard)
    requires k < |shards|
    ensures ShardScores(shards[k := sh]) == ShardScores(shards) - ShardScore(shards[k]) + ShardScore(sh)
  {
    hide ShardScore;
    var n := |shards| - 1;
    if k < n {
      assert shards[k := sh][..n] == shards[..n][k := sh];
      ScoreUpdate(shards[..n], k, sh);
    } else {
      assert shards[k := sh][..n] == shards[..n];
    }
  }

  lemma UnionCard(a: set<nat>, b: set<nat>)
    ensures |a + b| <= |a| + |b|
  {
    assert |a + b| == |a| + |b - a| by { assert a + b == a + (b - a); }
    SubsetCard(b - a, b);
  }

  lemma RoutedFew(d: Feed, e: nat, s: set<nat>)
    requires Fit(d) && e < |d.jobs| && s <= Routed(d, e)
    ensures |s| <= 3
  {
    var x, w := d.jobs[e].at.x, d.net.grid.w;
    var a, b, z := Bit(ShardOfCol(x - 1, w, d.n)), Bit(ShardOfCol(x, w, d.n)), Bit(ShardOfCol(x + 1, w, d.n));
    UnionCard(a, b);
    UnionCard(a + b, z);
    SubsetCard(s, a + b + z);
  }

  /** Where the list of dispatches stands, from the invariant. */
  lemma FrontFew(c: Config, p: Plan, s: Sys)
    requires Ready(c, p) && Inv(c, p, s) && s.dispatch != []
    ensures |s.dispatch[0].delivered| <= 3 && (|s.dispatch| > 1 ==> s.dispatch[1].delivered == {})
  {
    hide Fit, Numbered, Additive, LayerOk, PlaneOk, StageOk, BackOk, RowOk, ProducerOk, Routed;
    var released := Released(p.es, Base(s, 0), s.dispatch);
    assert s.dispatch[0].delivered <= Routed(p.d, released + 0);
    RoutedFew(p.d, released, s.dispatch[0].delivered);
  }

  lemma Bases(c: Config, p: Plan, s: Sys)
    requires Ready(c, p) && Inv(c, p, s)
    ensures 0 <= Base(s, 1) <= Base(s, 0) <= s.meta.popped <= |p.es| && Base(s, 0) == s.meta.popped - |s.pending.zero|
  {
    hide Fit, Numbered, Additive, LayerOk, PlaneOk, StageOk, BackOk, RowOk, ProducerOk, DispatchOk;
  }

  lemma ProducerScore(c: Config, p: Plan, s: Sys, st: Step)
    requires Sane(c, s) && Enabled(c, s, st) && st in {SkipEvent, PushEvent, PushMarker, PassWait, PushWork}
    requires 0 <= Base(s, 0) <= |p.es|
    ensures var s' := Apply(c, s, st);
      Base(s', 0) == Base(s, 0) && Score(c, p, s') >= Score(c, p, s) + 1
  {
    hide SumScore, ShardScore, Shards, InSensor, PatchMask, Stamp, InputFeat;
    var s' := Apply(c, s, st);
    if st == PushWork {
      var k := s.hand.value.next;
      ScoreUpdate(s.shards, k, s'.shards[k]);
      assert ShardScore(s'.shards[k]) == ShardScore(s.shards[k]) by { PushedScore(s.shards[k], s'.shards[k]); }
      assert s'.shards == s.shards[k := s'.shards[k]];
    }
  }

  lemma PushedScore(a: Shard, b: Shard)
    requires b.output == a.output && b.input.zero.popped == a.input.zero.popped
      && b.input.one.popped == a.input.one.popped
    ensures ShardScore(a) == ShardScore(b)
  {
  }

  lemma WorkerScore(c: Config, p: Plan, s: Sys, st: Step)
    requires Sane(c, s) && Enabled(c, s, st) && (st.Compute? || st.Emit?)
    requires 0 <= Base(s, 0) <= |p.es|
    ensures var s' := Apply(c, s, st);
      Base(s', 0) == Base(s, 0) && Score(c, p, s') >= Score(c, p, s) + 1
  {
    hide SumScore, HandScore, ShardScores, ShardScore, ShardRefresh, ShardGather, Shards;
    var s', a, b := Apply(c, s, st), s.shards[st.k], Apply(c, s, st).shards[st.k];
    if st.Compute? {
      TakenScore(a, b, st.layer);
    } else {
      GivenScore(a, b, a.hold.value.layer, a.hold.value.part);
    }
    ScoreUpdate(s.shards, st.k, b);
  }

  /** A shard that has taken a piece of work, */
  lemma TakenScore(a: Shard, b: Shard, l: nat)
    requires a.input.Get(l).live != []
    requires b.input == a.input.Set(l, a.input.Get(l).Pop()) && b.output == a.output
    ensures ShardScore(b) == ShardScore(a) + 1
  {
  }

  /** or given a partial away. */
  lemma GivenScore(a: Shard, b: Shard, l: nat, part: Partial)
    requires b.input == a.input && b.output == a.output.Set(l, a.output.Get(l).Push(part))
    ensures ShardScore(b) == ShardScore(a) + 1
  {
  }

  lemma DrainScore(c: Config, p: Plan, s: Sys, k: nat, l: nat)
    requires Sane(c, s) && Enabled(c, s, DrainPartial(k, l))
    requires 0 <= Base(s, 0) <= |p.es|
    ensures var s' := DoDrainPartial(c, s, k, l);
      Base(s', 0) == Base(s, 0) && Score(c, p, s') >= Score(c, p, s) + 1
  {
    hide Released, HandScore, Find, AddPartial, Shards, ShardScores, ShardScore;
    var s', part := DoDrainPartial(c, s, k, l), s.shards[k].output.Get(l).live[0];
    PoppedScore(s.shards[k], s'.shards[k], l);
    ScoreUpdate(s.shards, k, s'.shards[k]);
    InsertCard(s.deferred.Get(l), part);
  }

  /** A partial popped counts twice. */
  lemma PoppedScore(a: Shard, b: Shard, l: nat)
    requires l <= 1 && a.output.Get(l).live != []
    requires b.input == a.input && b.output == a.output.Set(l, a.output.Get(l).Pop())
    ensures ShardScore(b) == ShardScore(a) + 2
  {
  }

  lemma InsertCard<T>(a: set<T>, x: T)
    ensures |a + {x}| <= |a| + 1
  {
    if x in a { assert a + {x} == a; }
  }

  lemma DeferScore(c: Config, p: Plan, s: Sys, st: Step)
    requires Sane(c, s) && Enabled(c, s, st) && (st.DrainMeta? || st.Retry?)
    requires 0 <= Base(s, 0) <= |p.es|
    ensures var s' := Apply(c, s, st);
      Base(s', 0) == Base(s, 0) && Score(c, p, s') >= Score(c, p, s) + 1
  {
    hide HandScore, Shards, Find, AddPartial, Released, ShardScores;
    var s' := Apply(c, s, st);
  }

  lemma DeliverScore(c: Config, p: Plan, s: Sys, k: nat)
    requires Sane(c, s) && Enabled(c, s, Deliver(k))
    requires 0 <= Base(s, 0) <= |p.es|
    ensures var s' := DoDeliver(c, s, k);
      Base(s', 0) == Base(s, 0) && Score(c, p, s') >= Score(c, p, s) + 1
  {
    hide HandScore, Shards, PatchMask, Events;
    var s', d := DoDeliver(c, s, k), s.dispatch[0];
    ScoreUpdate(s.shards, k, s'.shards[k]);
    PushedScore(s.shards[k], s'.shards[k]);
    hide ShardScore;
    assert |d.delivered + {k}| == |d.delivered| + 1;
  }

  lemma RetireScore(c: Config, p: Plan, s: Sys)
    requires Sane(c, s) && Enabled(c, s, Retire)
    requires 0 <= Base(s, 0) <= |p.es|
    requires |s.dispatch[0].delivered| <= 3
    ensures var s' := Apply(c, s, Retire);
      Base(s', 0) == Base(s, 0) && Score(c, p, s') >= Score(c, p, s) + 1
  {
    hide HandScore, Shards, Events, ShardScores;
  }

  lemma CascadeScore(c: Config, p: Plan, s: Sys, l: nat)
    requires Sane(c, s) && l <= 1 && s.pending.Get(l) != [] && 0 <= Base(s, 0) <= |p.es|
    requires l == 0 ==> Base(s, 0) < |p.es|
                        && Released(p.es, Base(s, 0) + 1, s.dispatch + Dispatches(c, s.pending.zero[0]))
                          == Released(p.es, Base(s, 0), s.dispatch)
    ensures var s' := DoCascade(c, s, l);
      0 <= Base(s', 0) <= |p.es| && Score(c, p, s') >= Score(c, p, s) + 1
  {
    hide HandScore, Released, ShardScores, Onward, Outgoing;
    var s' := DoCascade(c, s, l);
    assert Base(s', 0) == Base(s, 0) + 1 - l && Base(s', 1) == Base(s, 1) + l;
  }

  lemma OutScore(c: Config, p: Plan, s: Sys, st: Step)
    requires Sane(c, s) && Enabled(c, s, st) && (st.Ship? || st.Consume?)
    requires 0 <= Base(s, 0) <= |p.es|
    ensures var s' := Apply(c, s, st);
      Base(s', 0) == Base(s, 0) && Score(c, p, s') >= Score(c, p, s) + 1
  {
    hide HandScore, SumScore, ShardScores, Shards;
  }

  lemma StepScore(c: Config, p: Plan, s: Sys, st: Step)
    requires Ready(c, p) && Inv(c, p, s) && Enabled(c, s, st)
    ensures 0 <= Base(s, 0) <= |p.es| && 0 <= Base(Apply(c, s, st), 0) <= |p.es|
    ensures Score(c, p, Apply(c, s, st)) >= Score(c, p, s) + 1
  {
    Bases(c, p, s);
    if st.Cascade? {
      FrontComplete(c, p, s, st.layer);
      FrontReleased(c, p, s, st.layer);
      hide *;
      CascadeScore(c, p, s, st.layer);
    } else if st.Retire? {
      RetireFew(c, p, s);
      hide *;
      RetireScore(c, p, s);
    } else {
      assert Sane(c, s);
      hide Score, Fit, Inv, Ready, Shards, Enabled;
      match st
      case SkipEvent => ProducerScore(c, p, s, st);
      case PushEvent => ProducerScore(c, p, s, st);
      case PushMarker => ProducerScore(c, p, s, st);
      case PushWork => ProducerScore(c, p, s, st);
      case PassWait => ProducerScore(c, p, s, st);
      case Compute(k, l) => WorkerScore(c, p, s, st);
      case Emit(k) => WorkerScore(c, p, s, st);
      case DrainMeta => DeferScore(c, p, s, st);
      case DrainPartial(k, l) => DrainScore(c, p, s, k, l);
      case Retry(l, part) => DeferScore(c, p, s, st);
      case Deliver(k) => DeliverScore(c, p, s, k);
      case Ship => OutScore(c, p, s, st);
      case Consume => OutScore(c, p, s, st);
    }
  }

  lemma RetireFew(c: Config, p: Plan, s: Sys)
    requires Ready(c, p) && Inv(c, p, s) && Enabled(c, s, Retire)
    ensures Sane(c, s) && |s.dispatch[0].delivered| <= 3
  {
    hide Fit, Numbered, Additive, LayerOk, PlaneOk, StageOk, BackOk, RowOk, ProducerOk, DispatchOk;
    FrontFew(c, p, s);
  }

  lemma FrontReleased(c: Config, p: Plan, s: Sys, l: nat)
    requires Ready(c, p) && Inv(c, p, s) && Enabled(c, s, Cascade(l))
    ensures Sane(c, s)
    ensures l == 0 ==> s.pending.zero != [] && 0 <= Base(s, 0) < |p.es|
                       && Released(p.es, Base(s, 0) + 1, s.dispatch + Dispatches(c, s.pending.zero[0]))
                         == Released(p.es, Base(s, 0), s.dispatch)
  {
    hide Fit, Numbered, Additive, LayerOk, PlaneOk, StageOk, BackOk, RowOk, ProducerOk, DispatchOk;
    FrontComplete(c, p, s, l);
    if l == 0 { Dispatched(c, p, Base(s, 0), s.pending.zero[0], s.dispatch); }
  }

  // ---- the bound ----

  lemma {:induction false} RouteShort(d: Feed, k: nat, e: nat)
    requires Fit(d) && e <= |d.jobs|
    ensures |Route(d, k, e)| <= e
  {
    if e == 0 {
    } else {
      RouteShort(d, k, e - 1);
    }
  }

  lemma {:induction false} PlanShort(c: Config, i: nat)
    requires i <= |c.program|
    ensures |Jobs(c, i)| <= i && |Entries(c, i)| <= i
  {
    if i == 0 {
    } else {
      PlanShort(c, i - 1);
    }
  }

  lemma ShardBoundScore(d: Feed, k: nat, shards: seq<Shard>, sent0: seq<int>, sent1: seq<int>)
    requires Fit(d) && k < d.n && RowOk(d, 0, shards, sent0) && RowOk(d, 1, shards, sent1)
    ensures ShardScore(shards[k]) <= 8 * |d.jobs|
  {
    hide Fit, Route, WorkOf, PartOf;
    assert ShardOk(d, 0, k, shards[k], sent0[k]) && ShardOk(d, 1, k, shards[k], sent1[k]);
    RouteShort(d, k, |d.jobs|);
  }

  lemma {:induction false} ShardsBound(shards: seq<Shard>, b: nat)
    requires forall k :: 0 <= k < |shards| ==> ShardScore(shards[k]) <= b
    ensures ShardScores(shards) <= |shards| * b
  {
    hide ShardScore;
    if shards == [] {
    } else {
      ShardsBound(shards[..|shards| - 1], b);
    }
  }

  lemma PipePart(c: Config, p: Plan, s: Sys)
    requires Ready(c, p) && Inv(c, p, s)
    ensures s.pc <= |c.program| && s.issued <= |p.d.jobs| && s.meta.popped <= |p.es|
    ensures s.stages.popped <= s.stages.Pushed() <= Base(s, 1) <= |p.es|
    ensures s.hand.Some? ==> s.hand.value.next < c.n
  {
    hide Fit, Numbered, Additive, LayerOk, PlaneOk, BackOk, RowOk, DispatchOk;
  }

  lemma SumPart(c: Config, p: Plan, s: Sys)
    requires Ready(c, p) && Inv(c, p, s)
    ensures 0 <= Base(s, 1) <= Base(s, 0) <= |p.es|
    ensures SumScore(p.es, Base(s, 0), Base(s, 1), s.dispatch, s.deferred) <= 2 * |p.es| + 4 * |p.d.jobs|
  {
    Bases(c, p, s);
    if s.dispatch != [] { FrontFew(c, p, s); }
    hide Fit, Numbered, Additive, LayerOk, PlaneOk, StageOk, BackOk, RowOk, ProducerOk, Routed;
  }

  lemma ShardPart(c: Config, p: Plan, s: Sys)
    requires Ready(c, p) && Inv(c, p, s)
    ensures ShardScores(s.shards) <= c.n * (8 * |p.d.jobs|)
  {
    hide Fit, Numbered, Additive, LayerOk, PlaneOk, StageOk, BackOk, RowOk, ProducerOk, DispatchOk, ShardScore;
    forall k | 0 <= k < |s.shards| ensures ShardScore(s.shards[k]) <= 8 * |p.d.jobs| {
      ShardBoundScore(p.d, k, s.shards, Sent0(c.n, s.issued, s.hand),
        Sent1(c.n, Released(p.es, Base(s, 0), s.dispatch), s.dispatch));
    }
    ShardsBound(s.shards, 8 * |p.d.jobs|);
  }

  lemma ScoreArithmetic(c: Config, hand: Option<Hand>, nj: nat, issued: nat, all: int)
    requires issued <= nj <= |c.program| && (hand.Some? ==> hand.value.next < c.n)
    requires all <= HandScore(c.n, issued, hand) + c.n * (8 * nj) + 4 * nj + 6 * |c.program|
    ensures all <= Bound(c)
  {
    var n, np := c.n, |c.program|;
    TimesMonotone(n + 1, issued, np);
    TimesMonotone(8 * n, nj, np);
    assert n * (8 * nj) == 8 * n * nj;
    assert np * (9 * n + 11) == (n + 1) * np + 8 * n * np + 10 * np;
  }

  lemma ScoreBound(c: Config, p: Plan, s: Sys)
    requires Ready(c, p) && Inv(c, p, s)
    ensures 0 <= Base(s, 0) <= |p.es| && Score(c, p, s) <= Bound(c)
  {
    PlanShort(c, |c.program|);
    assert |p.d.jobs| <= |c.program| && |p.es| <= |c.program|;
    PipePart(c, p, s);
    SumPart(c, p, s);
    ShardPart(c, p, s);
    hide Inv, Ready, SumScore, ShardScores, Base, HandScore, Bound;
    ScoreArithmetic(c, s.hand, |p.d.jobs|, s.issued, Score(c, p, s));
  }

  lemma {:induction false} RunScore(c: Config, p: Plan, s: Sys, steps: seq<Step>, t: Sys)
    requires Ready(c, p) && Inv(c, p, s) && Leads(c, s, steps, t)
    ensures 0 <= Base(s, 0) <= |p.es| && 0 <= Base(t, 0) <= |p.es| && Score(c, p, t) >= Score(c, p, s) + |steps|
    decreases |steps|
  {
    Bases(c, p, s);
    hide Ready, Inv, Enabled, Apply, Score, Base;
    if steps == [] {
    } else {
      StepInv(c, p, s, steps[0]);
      StepScore(c, p, s, steps[0]);
      RunScore(c, p, Apply(c, s, steps[0]), steps[1..], t);
    }
  }

  lemma StartScore(c: Config, p: Plan)
    requires Ready(c, p)
    ensures Base(Start(c), 0) == 0 && Score(c, p, Start(c)) == 0
  {
    hide Fit, Numbered, Additive;
    EmptyScores(Start(c).shards);
  }

  lemma {:induction false} EmptyScores(shards: seq<Shard>)
    requires forall k :: 0 <= k < |shards| ==> shards[k] == EmptyShard()
    ensures ShardScores(shards) == 0
  {
    if shards == [] {
    } else {
      EmptyScores(shards[..|shards| - 1]);
    }
  }

  /** Progress.  No run has more steps than nine for each shard and eleven more for each command;
      and a run that no thread can extend has drained every ring and list, with the memory of the
      scheme's loop over the whole program, which is the sequential one when every position is run.
      Nothing is assumed of the schedule. */
  lemma RunsFinish(c: Config, steps: seq<Step>, s: Sys)
    requires Good(c) && Live(c) && Leads(c, Start(c), steps, s)
    ensures |steps| <= Bound(c)
    ensures Sane(c, s)
    ensures Stuck(c, s) ==> Finished(c, s) && Matches(s, SharedLoop(c.net, c.n, c.init, Pushed(c.program, |c.program|)))
    ensures Stuck(c, s) && AllWhole(c.net, c.n, Pushed(c.program, |c.program|)) ==>
      Matches(s, Run(c.net, c.init, Pushed(c.program, |c.program|)))
  {
    var p, es := PlanOf(c), Pushed(c.program, |c.program|);
    GoodIsReady(c);
    hide Good, Live, Leads, Run, SharedLoop, AllWhole, Matches;
    StartInv(c, p);
    RunInv(c, p, Start(c), steps, s);
    StartScore(c, p);
    RunScore(c, p, Start(c), steps, s);
    ScoreBound(c, p, s);
    hide Bound, Score;
    if Stuck(c, s) {
      StuckIsFinished(c, p, s);
      AllTaken(c, p, s);
      SettledMatches(c, p, s);
      if AllWhole(c.net, c.n, es) { MatchesRun(c, s, es); }
    }
  }

  lemma AllTaken(c: Config, p: Plan, s: Sys)
    requires Ready(c, p) && Inv(c, p, s) && Finished(c, s)
    ensures s.stages.popped <= |p.es| && Events(p.es, s.stages.popped) == s.issued
  {
    hide Fit, Additive, LayerOk, PlaneOk, BackOk, RowOk, DispatchOk;
  }

  // ---- the end is reached ----

  /** Every run can be carried on to its end. */
  lemma {:induction false} EndReached(c: Config, steps: seq<Step>, s: Sys) returns (all: seq<Step>, t: Sys)
    requires Good(c) && Live(c) && Leads(c, Start(c), steps, s)
    ensures steps <= all && Leads(c, Start(c), all, t) && Sane(c, t) && Stuck(c, t)
    decreases Bound(c) - |steps|
  {
    hide Leads, Enabled, Apply, Good, Live, Bound, Matches, Finished;
    RunsFinish(c, steps, s);
    if Stuck(c, s) {
      all, t := steps, s;
    } else {
      var st: Step :| Enabled(c, s, st);
      LeadsAppend(c, Start(c), steps, s, st);
      RunsFinish(c, steps + [st], Apply(c, s, st));
      all, t := EndReached(c, steps + [st], Apply(c, s, st));
    }
  }

  /** The second plane after an event whose first layer nobody ran: the finalised output of the first
      layer is what its residual and norm make of an empty sum. */
  function LossOut(n: Net, shards: nat, at: Cell, f: Feat, h: Plane): Plane
    requires shards >= 1 && InGrid(n.grid, at)
  {
    ShardRefresh(n.layers(1), n.grid, Served(at.x, n.grid.w, shards), at, n.layers(0).finish(f, n.zero), h)
  }

  /** One event in the last column under a one-position first layer, then a marker and a wait: every
      run ends with the first plane untouched, and that is the sequential plane if and only if the
      event's step would have changed nothing. */
  lemma LastColumnRun(c: Config, e: Event, steps: seq<Step>, s: Sys)
    requires Good(c) && c.cap >= 1 && Leads(c, Start(c), steps, s) && Sane(c, s) && Stuck(c, s)
    requires c.program == [Push(e), Mark, Wait] && InSensor(c, e) && e.x + 1 == c.net.grid.w && !c.net.layers(0).wide
    ensures SamePlane(s.planes.zero, c.init.m0.a)
    ensures var f := InputFeat(c.net, c.init.lastT, e);
      SamePlane(s.planes.one, LossOut(c.net, c.n, At(e), f, c.init.m0.b))
    ensures SamePlane(s.planes.zero, Run(c.net, c.init, [e]).m0.a) <==>
      c.net.layers(0).lru(0, InputFeat(c.net, c.init.lastT, e), c.init.m0.a(At(e))) == c.init.m0.a(At(e))
  {
    OnePush(c.program, e);
    RunsFinish(c, steps, s);
    LastColumnLoss(c.net, c.n, c.init, e);
    hide Leads, Stuck, Finished, SharedOne, ProcessOne, InputFeat;
    assert [e][..0] == [];
    assert SharedLoop(c.net, c.n, c.init, [e]) == SharedOne(c.net, c.n, c.init, e);
    assert Run(c.net, c.init, [e]) == ProcessOne(c.net, c.init, e);
  }

  lemma OnePush(program: seq<Cmd>, e: Event)
    requires program == [Push(e), Mark, Wait]
    ensures Pushed(program, |program|) == [e] && WaitsMarked(program)
  {
    assert Pushed(program, 1) == [e];
    assert Pushed(program, 2) == [e];
  }

  lemma LastColumnLoss(n: Net, shards: nat, st: State, e: Event)
    requires shards >= 1 && InGrid(n.grid, At(e)) && e.x + 1 == n.grid.w && !n.layers(0).wide
    ensures SamePlane(SharedOne(n, shards, st, e).m0.a, st.m0.a)
    ensures SharedOne(n, shards, st, e).m0.b == LossOut(n, shards, At(e), InputFeat(n, st.lastT, e), st.m0.b)
    ensures SamePlane(SharedOne(n, shards, st, e).m0.a, ProcessOne(n, st, e).m0.a) <==>
      n.layers(0).lru(0, InputFeat(n, st.lastT, e), st.m0.a(At(e))) == st.m0.a(At(e))
  {
    var l, at, f := n.layers(0), At(e), InputFeat(n, st.lastT, e);
    LossExactly(n, shards, st, e);
    LastColumnIsLost(n, l, n.grid, shards, at, f, st.m0.a);
    var (m, out) := SharedStage(n, shards, st.m0, at, f);
    var a1 := st.(lastT := Stamp(st.lastT, e), m0 := m);
    LeaveFrame(n, 0, a1, a1, at, out);
    assert Spot(l, at, 0) == at && 0 !in Served(e.x, n.grid.w, shards);
    hide Leave, ShardGather, ShardRefresh, InputFeat, Stamp, Served, ProcessOne;
  }
}
