/** Locks lose nothing, and what is dropped does not depend on the schedule. */
module S6Results {
  import opened Geometry
  import opened Network
  import opened Sequential
  import opened Rings
  import opened Tdrop
  import opened Chain
  import opened S6Machine
  import opened S6Invariant
  import opened S6Steps
  import opened S6Features

  /** Bytes start as bytes. */
  ghost predicate Good(c: Config) {
    Sound(c) && forall b: nat, d: Cell :: b <= 2 ==> c.init.Mem(b).drop(d) < 256
  }

  ghost function Start(c: Config): Sys {
    Sys(0, seq(c.n, _ => Shard(0, None)), (x: Site) => InitHid(c, x), (x: Site) => None,
      (b: Site) => c.init.Mem(b.layer).drop(b.cell),
        c.init.pred, (x: Site) => [], (v: Visit) => Positions(LayerOf(c, v.layer)), seq(|c.jobs|, _ => 0),
          seq(|c.jobs|, _ => 0))
  }

  ghost predicate Leads(c: Config, s: Sys, steps: seq<Step>, t: Sys)
    decreases |steps|
  {
    if steps == [] then s == t
    else Sane(c, s) && Enabled(c, s, steps[0]) && Leads(c, Apply(c, s, steps[0]), steps[1..], t)
  }

  lemma {:induction false} NoneYet(c: Config, v: seq<nat>, b: nat, d: Cell, n: nat)
    requires n <= |c.jobs| == |v| && forall j :: 0 <= j < |v| ==> v[j] == 0
    ensures Gone(c, v, b, d, n) == 0 && Came(c, v, b, d, n) == 0
  {
    if n == 0 {
    } else {
      NoneYet(c, v, b, d, n - 1);
    }
  }

  lemma StartInv(c: Config)
    requires Good(c)
    ensures Inv(c, Start(c))
  {
    var s := Start(c);
    forall b: nat, d: Cell | b <= 2 ensures ByteOk(c, s.drop, s.entered, s.fin, b, d) {
      NoneYet(c, s.fin, b, d, |c.jobs|);
      NoneYet(c, s.entered, b + 1, d, |c.jobs|);
    }
    forall j: nat | j < |c.jobs| ensures JobOk(c, s, j) { OwnerBound(c, j); }
    forall x, j: nat {:trigger Count(s.log(x), j)} | j < |c.jobs|
      ensures Count(s.log(x), j) == if Meets(c, j, x) && Pos(c, j, x) >= s.low(Visit(j, x.layer)) then 1 else 0
    {
      if Meets(c, j, x) { PositionIsSpot(LayerOf(c, x.layer), Grid(c, x.layer), AtStage(c, j, x.layer / 2), x.cell); }
    }
  }

  lemma StartFed(c: Config)
    requires Good(c)
    ensures Sane(c, Start(c)) && Fed(c, Start(c))
  {
  }

  lemma {:induction false} RunInv(c: Config, s: Sys, steps: seq<Step>, t: Sys)
    requires Inv(c, s) && Leads(c, s, steps, t)
    ensures Inv(c, t)
    ensures Fed(c, s) ==> Fed(c, t)
    decreases |steps|
  {
    hide Inv, Fed, Enabled, Apply;
    if steps == [] {
    } else {
      StepInv(c, s, steps[0]);
      if Fed(c, s) { StepFed(c, s, steps[0]); }
      RunInv(c, Apply(c, s, steps[0]), steps[1..], t);
    }
  }

  /** In no run are two shards ever inside the update of the same hidden cell. */
  lemma NeverTwoInside(c: Config, steps: seq<Step>, s: Sys, i: nat, k: nat, x: Site)
    requires Good(c) && Leads(c, Start(c), steps, s)
    ensures |s.shards| == c.n
    ensures i < c.n && k < c.n && Inside(c, s.shards[i], x) && Inside(c, s.shards[k], x) ==> i == k
  {
    StartInv(c);
    RunInv(c, Start(c), steps, s);
    if i < c.n && k < c.n && Inside(c, s.shards[i], x) && Inside(c, s.shards[k], x) {
      Exclusive(c, s.shards, s.locks, i, k, x);
    }
  }

  /** Everything was pushed, every queue is empty and every shard idle. */
  predicate Quiet(c: Config, s: Sys)
    requires Sound(c)
  {
    s.issued == |c.jobs| && |s.shards| == c.n
    && forall k :: 0 <= k < c.n ==> s.shards[k].task.None? && s.shards[k].taken == |Queue(c, k, |c.jobs|)|
  }

  /** When all is quiet every job went through the stages it entered, the first of them at least. */
  lemma QuietJobs(c: Config, s: Sys, j: nat)
    requires Inv(c, s) && Quiet(c, s) && j < |c.jobs|
    ensures 1 <= s.entered[j] == s.fin[j] <= 4
    ensures forall l: nat :: l <= 7 ==> s.low(Visit(j, l)) == if l < 2 * s.entered[j] then 0
      else Positions(LayerOf(c, l))
  {
    assert JobOk(c, s, j);
    OwnerBound(c, j);
    QueuePrefix(c, Owner(c, j), j + 1, |c.jobs|);
  }

  /** Nothing is lost and nothing is doubled: at quiescence each hidden cell of each layer is the
      fold, in the order of its log, of exactly one lru_step for every job that entered the layer's
      stage and whose window holds the cell, at that cell's position, on the feature with which the
      job entered the layer: its own at first, and then what its own updates of the layer before
      summed up to. */
  lemma ExactlyOnce(c: Config, steps: seq<Step>, s: Sys, x: Site, j: nat)
    requires Good(c) && Leads(c, Start(c), steps, s) && Quiet(c, s) && x.layer <= 7 && j < |c.jobs|
    ensures |s.entered| == |c.jobs|
    ensures s.hidden(x) == Fold(c, x, s.log(x))
    ensures Count(s.log(x), j) == if x.layer / 2 < s.entered[j] && Meets(c, j, x) then 1 else 0
    ensures forall i :: 0 <= i < |s.log(x)| ==>
      var u := s.log(x)[i];
      u.job < |c.jobs| && u.p == Pos(c, u.job, x) && u.feat == Input(c, s.log, u.job, x.layer)
    ensures Input(c, s.log, j, 0) == c.jobs[j].feat
    ensures Input(c, s.log, j, x.layer + 1)
      == LayerOf(c, x.layer).finish(Input(c, s.log, j, x.layer), Total(c, s.log, j, x.layer, 0))
  {
    StartInv(c);
    StartFed(c);
    RunInv(c, Start(c), steps, s);
    QuietJobs(c, s, j);
    if Meets(c, j, x) { PositionIsSpot(LayerOf(c, x.layer), Grid(c, x.layer), AtStage(c, j, x.layer / 2), x.cell); }
    assert Count(s.log(x), j) == if Meets(c, j, x) && Pos(c, j, x) >= s.low(Visit(j, x.layer)) then 1 else 0;
    hide Total, Fold, Count, Meets, Pos;
  }

  /** Predictions, in every run: a row that some job has decoded holds what one of them made of the
      feature its own updates led to; any other row is as it was. */
  lemma RowsDecoded(c: Config, steps: seq<Step>, s: Sys, cell: Cell)
    requires Good(c) && Leads(c, Start(c), steps, s)
    ensures |s.fin| == |c.jobs| && RowOk(c, s.pred, s.fin, s.log, cell)
  {
    StartInv(c);
    StartFed(c);
    RunInv(c, Start(c), steps, s);
    hide RowOk;
  }

  // ---- drop counts ----

  /** How many stages each job ran through, in a way the bytes account for. */
  ghost predicate Accounted(c: Config, v: seq<nat>, drop: Site -> nat) {
    && |v| == |c.jobs| && (forall j :: 0 <= j < |v| ==> v[j] >= 1)
    && forall b: nat, d: Cell :: b <= 2 ==> ByteOk(c, drop, v, v, b, d)
  }

  /** What stands at d behind a stage stood on one of four cells before it. */
  lemma {:induction false} FourCells(c: Config, v: seq<nat>, b: nat, d: Cell, n: nat)
    requires n <= |c.jobs| == |v|
    ensures Gone(c, v, b, d, n)
      == Came(c, v, b, Cell(2 * d.x, 2 * d.y), n) + Came(c, v, b, Cell(2 * d.x + 1, 2 * d.y), n)
                                 + Came(c, v, b, Cell(2 * d.x, 2 * d.y + 1), n)
                                   + Came(c, v, b, Cell(2 * d.x + 1, 2 * d.y + 1), n)
  {
    if n == 0 {
    } else {
      FourCells(c, v, b, d, n - 1);
    }
  }

  lemma {:induction false} AllCome(c: Config, u: seq<nat>, v: seq<nat>, d: Cell, n: nat)
    requires n <= |c.jobs| == |u| == |v| && forall j :: 0 <= j < |u| ==> u[j] >= 1 && v[j] >= 1
    ensures Came(c, u, 0, d, n) == Came(c, v, 0, d, n)
  {
    if n == 0 {
    } else {
      AllCome(c, u, v, d, n - 1);
    }
  }

  /** The number of jobs that enter a stage at a cell is the same in any two accounts: by
      induction over the stages. */
  lemma {:induction false} EntriesEqual(c: Config, u: seq<nat>, du: Site -> nat, v: seq<nat>, dv: Site -> nat, b: nat,
      d: Cell)
    requires Accounted(c, u, du) && Accounted(c, v, dv) && b <= 3
    ensures Came(c, u, b, d, |c.jobs|) == Came(c, v, b, d, |c.jobs|)
    decreases b, 0
  {
    if b == 0 {
      AllCome(c, u, v, d, |u|);
    } else {
      ExitsEqual(c, u, du, v, dv, b - 1, d);
      assert ByteOk(c, du, u, u, b - 1, d) && ByteOk(c, dv, v, v, b - 1, d);
    }
  }

  /** So are the numbers of those that leave it. */
  lemma {:induction false} ExitsEqual(c: Config, u: seq<nat>, du: Site -> nat, v: seq<nat>, dv: Site -> nat, b: nat,
      d: Cell)
    requires Accounted(c, u, du) && Accounted(c, v, dv) && b <= 3
    ensures Gone(c, u, b, d, |c.jobs|) == Gone(c, v, b, d, |c.jobs|)
    decreases b, 1
  {
    hide Gone, Came, ByteOk;
    EntriesEqual(c, u, du, v, dv, b, Cell(2 * d.x, 2 * d.y));
    EntriesEqual(c, u, du, v, dv, b, Cell(2 * d.x + 1, 2 * d.y));
    EntriesEqual(c, u, du, v, dv, b, Cell(2 * d.x, 2 * d.y + 1));
    EntriesEqual(c, u, du, v, dv, b, Cell(2 * d.x + 1, 2 * d.y + 1));
    FourCells(c, u, b, d, |c.jobs|);
    FourCells(c, v, b, d, |c.jobs|);
  }

  /** And so is every byte. */
  lemma OneAccount(c: Config, u: seq<nat>, du: Site -> nat, v: seq<nat>, dv: Site -> nat, b: nat, d: Cell)
    requires Accounted(c, u, du) && Accounted(c, v, dv) && b <= 2
    ensures du(Site(b, d)) == dv(Site(b, d)) && Came(c, u, b + 1, d, |c.jobs|) == Came(c, v, b + 1, d, |c.jobs|)
  {
    ExitsEqual(c, u, du, v, dv, b, d);
    assert ByteOk(c, du, u, u, b, d) && ByteOk(c, dv, v, v, b, d);
    hide Gone, Came, PassCount;
  }

  // ---- the sequential run keeps the same account ----

  function Depth(n: Net, st: State, e: Event): nat {
    if Reach(n, 0, st, Raw(e), 1).None? then 1
    else if Reach(n, 0, st, Raw(e), 2).None? then 2
    else if Reach(n, 0, st, Raw(e), 3).None? then 3
    else 4
  }

  /** Stages each event of a stream runs through, one event at a time. */
  function Depths(n: Net, st: State, es: seq<Event>): (v: seq<nat>)
    ensures |v| == |es| && forall i :: 0 <= i < |v| ==> v[i] >= 1
  {
    if es == [] then []
    else Depths(n, st, es[..|es| - 1]) + [Depth(n, Run(n, st, es[..|es| - 1]), es[|es| - 1])]
  }

  /** The jobs are the events of a stream inside the sensor. */
  predicate JobsOf(c: Config, es: seq<Event>) {
    |es| == |c.jobs| && forall j :: 0 <= j < |es| ==> InGrid(c.net.grid, At(es[j])) && c.jobs[j].at == At(es[j])
  }

  /** An event reaches a stage at its pooled cell, if it reaches it. */
  lemma {:induction false} ReachAt(c: Config, j: nat, e: Event, r: State, b: nat)
    requires j < |c.jobs| && c.jobs[j].at == At(e) && InGrid(c.net.grid, At(e)) && b <= 3
    ensures Depth(c.net, r, e) > b <==> Reach(c.net, 0, r, Raw(e), b).Some?
    ensures b >= 1 && Reach(c.net, 0, r, Raw(e), b).Some? ==>
      Reach(c.net, 0, r, Raw(e), b).value.Staged? && Reach(c.net, 0, r, Raw(e), b).value.at == AtStage(c, j, b)
  {
    if b >= 1 {
      ReachAt(c, j, e, r, b - 1);
      ReachNext(c.net, 0, r, Raw(e), b - 1);
      ReachNext(c.net, 0, r, Raw(e), 0);
      ReachNext(c.net, 0, r, Raw(e), 1);
      ReachNext(c.net, 0, r, Raw(e), 2);
      hide Reach, StageFeat, Ran, Checked;
    }
  }

  /** One stage and one byte. */
  lemma HandleByte(n: Net, st: State, x: Item, b: nat, d: Cell, at: Cell)
    requires b <= 2 && Fits(b, x) && !x.Marker?
    requires if x.Raw? then InGrid(n.grid, At(x.e)) && at == At(x.e) else at == x.at
    ensures Handle(n, b, st, x).0.Mem(b).drop(d) == if Pool(at) == d then (st.Mem(b).drop(d) + 1) % 256
      else st.Mem(b).drop(d)
    ensures Handle(n, b, st, x).1.Some? <==> Passes(n.window, st.Mem(b).drop(Pool(at)))
  {
    hide StageFeat, Refresh, InputFeat, Passes;
  }

  /** One event and one byte. */
  lemma SequentialStep(c: Config, j: nat, e: Event, r: State, b: nat, d: Cell)
    requires j < |c.jobs| && c.jobs[j].at == At(e) && InGrid(c.net.grid, At(e)) && b <= 2
    ensures ProcessOne(c.net, r, e).Mem(b).drop(d)
         == if Depth(c.net, r, e) > b && AtStage(c, j, b + 1) == d then (r.Mem(b).drop(d) + 1) % 256
           else r.Mem(b).drop(d)
    ensures Depth(c.net, r, e) > b + 1 <==>
      Depth(c.net, r, e) > b && Passes(c.net.window, r.Mem(b).drop(AtStage(c, j, b + 1)))
  {
    ProcessReach(c.net, r, e, b);
    ReachAt(c, j, e, r, b);
    ReachAt(c, j, e, r, b + 1);
    ReachNext(c.net, 0, r, Raw(e), b);
    var x := Reach(c.net, 0, r, Raw(e), b);
    if x.Some? {
      assert b == 0 ==> x == Some(Raw(e));
      HandleByte(c.net, r, x.value, b, d, AtStage(c, j, b));
    }
    hide Reach, Handle, ProcessOne, Depth, Passes;
  }

  /** The account of one byte over the first i events. */
  predicate ByteAccount(c: Config, v: seq<nat>, r: State, i: nat, b: nat, d: Cell)
    requires i <= |c.jobs| == |v|
  {
    var init, n := c.init.Mem(b).drop(d), Gone(c, v, b, d, i);
    r.Mem(b).drop(d) == (init + n) % 256 && Came(c, v, b + 1, d, i) == PassCount(c.net.window, init, n)
  }

  lemma {:induction false} SequentialBytes(c: Config, es: seq<Event>, i: nat, b: nat, d: Cell)
    requires Good(c) && JobsOf(c, es) && i <= |es| && b <= 2
    ensures ByteAccount(c, Depths(c.net, c.init, es), Run(c.net, c.init, es[..i]), i, b, d)
  {
    hide Run, Depths, ByteAccount, Good;
    if i == 0 {
      NothingYet(c, Depths(c.net, c.init, es), b, d);
      assert es[..0] == [];
      RunNothing(c.net, c.init);
    } else {
      SequentialBytes(c, es, i - 1, b, d);
      DepthAt(c.net, c.init, es, i - 1);
      RunOne(c.net, c.init, es, i);
      AccountStep(c, Depths(c.net, c.init, es), es[i - 1], Run(c.net, c.init, es[..i - 1]), i, b, d);
    }
  }

  lemma NothingYet(c: Config, v: seq<nat>, b: nat, d: Cell)
    requires Good(c) && |v| == |c.jobs| && b <= 2
    ensures ByteAccount(c, v, c.init, 0, b, d)
  {
  }

  lemma RunNothing(n: Net, st: State)
    ensures Run(n, st, []) == st
  {
  }

  lemma RunOne(n: Net, st: State, es: seq<Event>, i: nat)
    requires 0 < i <= |es|
    ensures Run(n, st, es[..i]) == ProcessOne(n, Run(n, st, es[..i - 1]), es[i - 1])
  {
    assert es[..i][..i - 1] == es[..i - 1];
  }

  lemma AccountStep(c: Config, v: seq<nat>, e: Event, r: State, i: nat, b: nat, d: Cell)
    requires 0 < i <= |c.jobs| == |v| && b <= 2 && ByteAccount(c, v, r, i - 1, b, d)
    requires v[i - 1] == Depth(c.net, r, e) && c.jobs[i - 1].at == At(e) && InGrid(c.net.grid, At(e))
    ensures ByteAccount(c, v, ProcessOne(c.net, r, e), i, b, d)
  {
    hide ProcessOne, Depth, PassCount, AtStage, Passes;
    SequentialStep(c, i - 1, e, r, b, d);
    var q := AtStage(c, i - 1, b + 1) == d;
    assert Gone(c, v, b, d, i) == Gone(c, v, b, d, i - 1) + if v[i - 1] > b && q then 1 else 0;
    assert Came(c, v, b + 1, d, i) == Came(c, v, b + 1, d, i - 1) + if v[i - 1] > b + 1 && q then 1 else 0;
    hide Gone, Came;
    Touch(c.net.window, c.init.Mem(b).drop(d), r.Mem(b).drop(d), Gone(c, v, b, d, i - 1), v[i - 1] > b
      && q, v[i - 1] > b + 1 && q);
  }

  lemma {:induction false} DepthAt(n: Net, st: State, es: seq<Event>, i: nat)
    requires i < |es|
    ensures Depths(n, st, es)[i] == Depth(n, Run(n, st, es[..i]), es[i])
  {
    if i < |es| - 1 {
      DepthAt(n, st, es[..|es| - 1], i);
      assert es[..|es| - 1][..i] == es[..i];
    }
  }

  /** A quiet system keeps such an account. */
  lemma QuietAccounted(c: Config, s: Sys)
    requires Inv(c, s) && Quiet(c, s)
    ensures Accounted(c, s.entered, s.drop)
  {
    forall j: nat | j < |c.jobs| ensures s.entered[j] == s.fin[j] >= 1 { QuietJobs(c, s, j); }
    assert s.entered == s.fin;
    hide ByteOk;
  }

  function BytesOf(st: State): Site -> nat {
    (x: Site) => st.Mem(x.layer).drop(x.cell)
  }

  lemma SequentialAccounted(c: Config, es: seq<Event>)
    requires Good(c) && JobsOf(c, es)
    ensures Accounted(c, Depths(c.net, c.init, es), BytesOf(Run(c.net, c.init, es)))
  {
    var v, drop := Depths(c.net, c.init, es), BytesOf(Run(c.net, c.init, es));
    assert es[..|es|] == es;
    hide Depths, Run, ByteAccount, ByteOk, Good, JobsOf;
    JobCount(c, es);
    forall b: nat, d: Cell | b <= 2 ensures ByteOk(c, drop, v, v, b, d) {
      SequentialBytes(c, es, |es|, b, d);
      AccountIsOk(c, v, Run(c.net, c.init, es), b, d);
    }
  }

  lemma JobCount(c: Config, es: seq<Event>)
    requires JobsOf(c, es)
    ensures |es| == |c.jobs|
  {
  }

  lemma AccountIsOk(c: Config, v: seq<nat>, r: State, b: nat, d: Cell)
    requires |v| == |c.jobs| && b <= 2 && ByteAccount(c, v, r, |c.jobs|, b, d)
    ensures ByteOk(c, BytesOf(r), v, v, b, d)
  {
    hide Gone, Came, PassCount;
  }

  /** Drop counts are free of the schedule: at quiescence the final byte of every pooled cell, at
      all three boundaries, and the number of events it let pass are those of the sequential run. */
  lemma DropsScheduleFree(c: Config, es: seq<Event>, steps: seq<Step>, s: Sys, b: nat, d: Cell)
    requires Good(c) && JobsOf(c, es) && Leads(c, Start(c), steps, s) && Quiet(c, s) && b <= 2
    ensures |s.entered| == |c.jobs|
    ensures s.drop(Site(b, d)) == Run(c.net, c.init, es).Mem(b).drop(d)
    ensures Came(c, s.entered, b + 1, d, |es|) == Came(c, Depths(c.net, c.init, es), b + 1, d, |es|)
  {
    StartInv(c);
    RunInv(c, Start(c), steps, s);
    QuietAccounted(c, s);
    SequentialAccounted(c, es);
    OneAccount(c, s.entered, s.drop, Depths(c.net, c.init, es), BytesOf(Run(c.net, c.init, es)), b, d);
  }
}
