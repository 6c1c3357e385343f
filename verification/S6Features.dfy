/** What flows through the layers of the lock-based scheme: every update was made with the feature
    that the job's own updates before it produced. */
module S6Features {
  import opened Geometry
  import opened Network
  import opened Rings
  import opened S6Machine
  import opened S6Invariant
  import opened S6Steps

  /** A cell's log up to and including the update of job j. */
  function Through(us: seq<Update>, j: nat): seq<Update> {
    if us == [] || us[|us| - 1].job == j then us else Through(us[..|us| - 1], j)
  }

  /** The cell of position p of job j in layer l. */
  function SiteOf(c: Config, j: nat, l: nat, p: nat): Site
    requires j < |c.jobs|
  {
    Site(l, Spot(LayerOf(c, l), AtStage(c, j, l / 2), p))
  }

  /** The feature with which job j enters layer l, as the logs tell it: the job's own feature, and
      behind each layer its residual-plus-norm over the sum of the job's positions. */
  function Input(c: Config, log: Site -> seq<Update>, j: nat, l: nat): Feat
    requires j < |c.jobs|
    decreases l, 0
  {
    if l == 0 then c.jobs[j].feat
    else LayerOf(c, l - 1).finish(Input(c, log, j, l - 1), Total(c, log, j, l - 1, 0))
  }

  /** What positions p and up of job j contribute in layer l: each emits from its cell as the cell
      stood right after the job's own update. */
  function Total(c: Config, log: Site -> seq<Update>, j: nat, l: nat, p: nat): Feat
    requires j < |c.jobs| && p <= Positions(LayerOf(c, l))
    decreases l, 1 + Positions(LayerOf(c, l)) - p
  {
    if p == Positions(LayerOf(c, l)) then c.net.zero
    else
      var x := SiteOf(c, j, l, p);
      if OnGrid(c, x) then
        c.net.add(Total(c, log, j, l, p + 1),
                  LayerOf(c, l).emit(p, Input(c, log, j, l), Fold(c, x, Through(log(x), j))))
      else Total(c, log, j, l, p + 1)
  }

  // ---- the invariant ----

  /** The lowest position a task has done. */
  function Done(t: Task): nat {
    if t.sec.Stored? && t.left > 0 then t.left - 1 else t.left
  }

  ghost predicate TaskFed(c: Config, log: Site -> seq<Update>, t: Task)
    requires TaskSane(c, t)
  {
    t.feat == Input(c, log, t.job, t.layer) && t.acc == Total(c, log, t.job, t.layer, Done(t))
  }

  ghost predicate LogFed(c: Config, log: Site -> seq<Update>) {
    forall x: Site, i {:trigger log(x)[i]} ::
      x.layer <= 7 && 0 <= i < |log(x)| && log(x)[i].job < |c.jobs| ==>
        log(x)[i].feat == Input(c, log, log(x)[i].job, x.layer)
  }

  /** Job j is through with all its layers and decodes at this cell. */
  predicate Emits(c: Config, fin: seq<nat>, j: nat, cell: Cell)
    requires j < |c.jobs| == |fin|
  {
    fin[j] == 4 && AtStage(c, j, 3) == cell && InGrid(StageGrid(c.net.grid, 3), cell)
  }

  /** A prediction row is what one of the jobs that decode there made of its final feature; or no
      job did, and it is as it was. */
  ghost predicate RowOk(c: Config, pred: Cell -> Row, fin: seq<nat>, log: Site -> seq<Update>, cell: Cell)
    requires |fin| == |c.jobs|
  {
    if exists j: nat :: j < |c.jobs| && Emits(c, fin, j, cell) then
      exists j: nat :: j < |c.jobs| && Emits(c, fin, j, cell) && pred(cell) == c.net.decode(cell, Input(c, log, j, 8))
    else pred(cell) == c.init.pred(cell)
  }

  ghost predicate Fed(c: Config, s: Sys)
    requires Sane(c, s)
  {
    && LogFed(c, s.log)
    && (forall k :: 0 <= k < c.n && s.shards[k].task.Some? ==> TaskFed(c, s.log, s.shards[k].task.value))
    && (forall cell :: RowOk(c, s.pred, s.fin, s.log, cell))
  }

  // ---- what a store leaves alone ----

  /** The logs agree on what job j did below layer l. */
  ghost predicate SameBelow(log: Site -> seq<Update>, log': Site -> seq<Update>, j: nat, l: nat) {
    forall x: Site {:trigger log(x)} {:trigger log'(x)} :: x.layer < l ==> Through(log(x), j) == Through(log'(x), j)
  }

  lemma {:induction false} InputSame(c: Config, log: Site -> seq<Update>, log': Site -> seq<Update>, j: nat, l: nat)
    requires j < |c.jobs| && SameBelow(log, log', j, l)
    ensures Input(c, log, j, l) == Input(c, log', j, l)
    decreases l, 0
  {
    if l == 0 {
    } else {
      InputSame(c, log, log', j, l - 1);
      TotalSame(c, log, log', j, l - 1, 0);
    }
  }

  lemma {:induction false} TotalSame(c: Config, log: Site -> seq<Update>, log': Site -> seq<Update>, j: nat, l: nat,
      p: nat)
    requires j < |c.jobs| && p <= Positions(LayerOf(c, l)) && SameBelow(log, log', j, l)
    requires forall q: nat {:trigger SiteOf(c, j, l, q)} :: p <= q < Positions(LayerOf(c, l)) ==>
      Through(log(SiteOf(c, j, l, q)), j) == Through(log'(SiteOf(c, j, l, q)), j)
    ensures Total(c, log, j, l, p) == Total(c, log', j, l, p)
    decreases l, 1 + Positions(LayerOf(c, l)) - p
  {
    hide SiteOf, Through, Fold, OnGrid, SameBelow, Positions;
    if p == Positions(LayerOf(c, l)) {
    } else {
      TotalSame(c, log, log', j, l, p + 1);
      InputSame(c, log, log', j, l);
      assert Through(log(SiteOf(c, j, l, p)), j) == Through(log'(SiteOf(c, j, l, p)), j);
    }
  }

  /** A store by another job, or in layer l or above. */
  lemma StoreBelow(log: Site -> seq<Update>, y: Site, u: Update, j: nat, l: nat)
    requires u.job != j || y.layer >= l
    ensures SameBelow(log, Put(log, y, log(y) + [u]), j, l)
  {
    assert (log(y) + [u])[..|log(y)|] == log(y);
  }

  lemma ThroughOwn(us: seq<Update>, u: Update)
    ensures Through(us + [u], u.job) == us + [u]
  {
  }

  lemma SpotInjective(c: Config, j: nat, l: nat, p: nat, q: nat)
    requires j < |c.jobs| && p < Positions(LayerOf(c, l)) && q < Positions(LayerOf(c, l))
      && SiteOf(c, j, l, p) == SiteOf(c, j, l, q)
    ensures p == q
  {
    var at := AtStage(c, j, l / 2);
    if LayerOf(c, l).wide {
      DeltaBijection(at, at, p);
      DeltaBijection(at, at, q);
    }
  }

  lemma {:induction false} CountPresent(us: seq<Update>, i: nat)
    requires i < |us|
    ensures Count(us, us[i].job) >= 1
  {
    if i < |us| - 1 { CountPresent(us[..|us| - 1], i); }
  }

  /** No log of a layer above the one a job is in holds the job. */
  lemma NotAbove(c: Config, s: Sys, k: nat, x: Site, i: nat)
    requires Inv(c, s) && k < c.n && s.shards[k].task.Some? && i < |s.log(x)|
      && s.log(x)[i].job == s.shards[k].task.value.job && x.layer <= 7
    ensures x.layer <= s.shards[k].task.value.layer
  {
    var t := s.shards[k].task.value;
    assert TaskOk(c, s, k) && JobOk(c, s, t.job);
    assert TaskOf(c, s, t.job) == Some(t);
    CountPresent(s.log(x), i);
    assert Count(s.log(x), t.job) == if Meets(c, t.job, x) && Pos(c, t.job, x) >= s.low(Visit(t.job, x.layer)) then 1
      else 0;
    if Meets(c, t.job, x) {
      PositionIsSpot(LayerOf(c, x.layer), Grid(c, x.layer), AtStage(c, t.job, x.layer / 2), x.cell);
    }
    assert x.layer > t.layer ==> s.low(Visit(t.job, x.layer)) == Positions(LayerOf(c, x.layer));
  }

  // ---- steps ----

  /** Where task t of shard k stands, out of the invariant. */
  lemma TaskFacts(c: Config, s: Sys, k: nat)
    requires Inv(c, s) && k < c.n && s.shards[k].task.Some?
    ensures Sane(c, s)
    ensures var t := s.shards[k].task.value;
      && TaskSane(c, t) && Owner(c, t.job) == k && t.at == AtStage(c, t.job, t.layer / 2) && s.fin[t.job] == t.layer / 2
      && (t.left > 0 ==>
            Here(c, t) == SiteOf(c, t.job, t.layer, t.left - 1) && (!t.sec.Outside? ==> OnGrid(c, Here(c, t))))
      && (t.sec.Loaded? ==> t.sec.h == Fold(c, Here(c, t), s.log(Here(c, t))))
  {
    var t := s.shards[k].task.value;
    assert TaskOk(c, s, k) && JobOk(c, s, t.job);
    assert TaskOf(c, s, t.job) == Some(t);
    assert ReadOk(c, t, s.hidden);
    hide Expected, Queue, Rank, Fold, AtStage;
  }

  lemma StoreLog(c: Config, s: Sys, k: nat, log': Site -> seq<Update>)
    requires Inv(c, s) && Fed(c, s) && Enabled(c, s, Act(k, Store)) && log' == Apply(c, s, Act(k, Store)).log
    ensures LogFed(c, log')
  {
    TaskFacts(c, s, k);
    var t := s.shards[k].task.value;
    var y, u := Here(c, t), Update(t.job, t.left - 1, t.feat);
    assert log' == Put(s.log, y, s.log(y) + [u]);
    assert TaskFed(c, s.log, t);
    forall x: Site, i {:trigger log'(x)[i]} | x.layer <= 7 && 0 <= i < |log'(x)| && log'(x)[i].job < |c.jobs|
      ensures log'(x)[i].feat == Input(c, log', log'(x)[i].job, x.layer)
    {
      var j := log'(x)[i].job;
      if i < |s.log(x)| {
        assert s.log(x)[i].feat == Input(c, s.log, j, x.layer);
        if j == t.job { NotAbove(c, s, k, x, i); }
      }
      StoreBelow(s.log, y, u, j, x.layer);
      hide *;
      InputSame(c, s.log, log', j, x.layer);
    }
  }

  /** The shard that stores. */
  lemma StoreOwn(c: Config, s: Sys, k: nat, s': Sys)
    requires Inv(c, s) && Fed(c, s) && Enabled(c, s, Act(k, Store)) && s' == Apply(c, s, Act(k, Store))
    ensures s'.shards[k].task.Some? && TaskSane(c, s'.shards[k].task.value)
      && TaskFed(c, s'.log, s'.shards[k].task.value)
  {
    hide Input, Total, Fold, Through, Inv, OnGrid, LogFed, RowOk;
    TaskFacts(c, s, k);
    var t, p := s.shards[k].task.value, s.shards[k].task.value.left - 1;
    var y, u := Here(c, t), Update(t.job, p, t.feat);
    assert TaskFed(c, s.log, t);
    StoreBelow(s.log, y, u, t.job, t.layer);
    InputSame(c, s.log, s'.log, t.job, t.layer);
    forall q: nat {:trigger SiteOf(c, t.job, t.layer, q)} | t.left <= q < Positions(LayerOf(c, t.layer))
      ensures s.log(SiteOf(c, t.job, t.layer, q)) == s'.log(SiteOf(c, t.job, t.layer, q))
    {
      if SiteOf(c, t.job, t.layer, q) == y { SpotInjective(c, t.job, t.layer, p, q); }
    }
    TotalSame(c, s.log, s'.log, t.job, t.layer, t.left);
    ThroughOwn(s.log(y), u);
    FoldStep(c, y, s.log(y), u);
    TotalStep(c, s'.log, t.job, t.layer, p);
  }

  lemma FoldStep(c: Config, x: Site, us: seq<Update>, u: Update)
    ensures Fold(c, x, us + [u]) == LayerOf(c, x.layer).lru(u.p, u.feat, Fold(c, x, us))
  {
    assert (us + [u])[..|us|] == us;
  }

  lemma TotalStep(c: Config, log: Site -> seq<Update>, j: nat, l: nat, p: nat)
    requires j < |c.jobs| && p < Positions(LayerOf(c, l))
    ensures var x := SiteOf(c, j, l, p);
      Total(c, log, j, l, p) == if OnGrid(c, x) then
                                  c.net.add(Total(c, log, j, l, p + 1),
                                    LayerOf(c, l).emit(p, Input(c, log, j, l), Fold(c, x, Through(log(x), j))))
                                else Total(c, log, j, l, p + 1)
  {
    hide SiteOf, Through, Fold, OnGrid;
  }

  /** Any other task. */
  lemma StoreOther(c: Config, s: Sys, k: nat, i: nat, log': Site -> seq<Update>)
    requires Inv(c, s) && Fed(c, s) && Enabled(c, s, Act(k, Store)) && log' == Apply(c, s, Act(k, Store)).log
    requires i < c.n && i != k && s.shards[i].task.Some?
    ensures TaskFed(c, log', s.shards[i].task.value)
  {
    hide Input, Total, Fold, Through, Inv, LogFed, RowOk, AtStage, Owner;
    TaskFacts(c, s, k);
    TaskFacts(c, s, i);
    var t, r := s.shards[k].task.value, s.shards[i].task.value;
    assert TaskFed(c, s.log, r);
    StoreElse(c, s.log, Here(c, t), Update(t.job, t.left - 1, t.feat), r.job, r.layer, Done(r));
  }

  /** A store by one job, seen from another. */
  lemma StoreElse(c: Config, log: Site -> seq<Update>, y: Site, u: Update, j: nat, l: nat, p: nat)
    requires j < |c.jobs| && u.job != j && p <= Positions(LayerOf(c, l))
    ensures var log' := Put(log, y, log(y) + [u]);
      && Input(c, log, j, l) == Input(c, log', j, l)
      && Total(c, log, j, l, p) == Total(c, log', j, l, p)
  {
    hide Input, Total, Fold, AtStage;
    var log' := Put(log, y, log(y) + [u]);
    StoreBelow(log, y, u, j, l + 1);
    StoreBelow(log, y, u, j, l);
    InputSame(c, log, log', j, l);
    TotalSame(c, log, log', j, l, p);
  }

  lemma StoreRows(c: Config, s: Sys, k: nat, s': Sys, cell: Cell)
    requires Inv(c, s) && Fed(c, s) && Enabled(c, s, Act(k, Store)) && s' == Apply(c, s, Act(k, Store))
    ensures |s'.fin| == |c.jobs| && RowOk(c, s'.pred, s'.fin, s'.log, cell)
  {
    hide Input, Fold, Through, Inv, LogFed, AtStage, Owner;
    TaskFacts(c, s, k);
    var t := s.shards[k].task.value;
    assert RowOk(c, s.pred, s.fin, s.log, cell);
    forall j: nat | j < |c.jobs| && Emits(c, s.fin, j, cell) ensures Input(c, s.log, j, 8) == Input(c, s'.log, j, 8) {
      StoreElse(c, s.log, Here(c, t), Update(t.job, t.left - 1, t.feat), j, 8, 0);
    }
  }

  /** Actions that write no hidden cell. */
  lemma QuietOwn(c: Config, s: Sys, k: nat, a: Action, s': Sys)
    requires Inv(c, s) && Fed(c, s) && Enabled(c, s, Act(k, a)) && a != Store && s' == Apply(c, s, Act(k, a))
    ensures s'.log == s.log
    ensures s'.shards[k].task.Some? ==>
      TaskSane(c, s'.shards[k].task.value) && TaskFed(c, s.log, s'.shards[k].task.value)
  {
    hide Fold, Through, Inv, LogFed, RowOk, AtStage, OnGrid, SiteOf;
    TaskFacts(c, s, k);
    var t := s.shards[k].task.value;
    assert TaskFed(c, s.log, t);
    if a == Skip { TotalStep(c, s.log, t.job, t.layer, t.left - 1); }
  }

  /** The last action of a job decodes its final feature. */
  lemma QuietRows(c: Config, s: Sys, k: nat, a: Action, s': Sys, cell: Cell)
    requires Inv(c, s) && Fed(c, s) && Enabled(c, s, Act(k, a)) && a != Store && s' == Apply(c, s, Act(k, a))
    ensures |s'.fin| == |c.jobs| && RowOk(c, s'.pred, s'.fin, s'.log, cell)
  {
    hide Fold, Through, Inv, LogFed, AtStage, OnGrid, SiteOf, Total, Input;
    TaskFacts(c, s, k);
    var t := s.shards[k].task.value;
    assert TaskFed(c, s.log, t) && RowOk(c, s.pred, s.fin, s.log, cell);
    if a == Head {
      InputNext(c, s.log, t.job, 7);
      assert forall j: nat :: j < |c.jobs| && j != t.job ==> (Emits(c, s'.fin, j, cell) <==> Emits(c, s.fin, j, cell));
      if Emits(c, s'.fin, t.job, cell) {
        assert s'.pred(cell) == c.net.decode(cell, Input(c, s'.log, t.job, 8));
      }
    } else {
      assert forall j: nat :: j < |c.jobs| ==> (Emits(c, s'.fin, j, cell) <==> Emits(c, s.fin, j, cell));
    }
  }

  lemma InputNext(c: Config, log: Site -> seq<Update>, j: nat, l: nat)
    requires j < |c.jobs|
    ensures Input(c, log, j, l + 1) == LayerOf(c, l).finish(Input(c, log, j, l), Total(c, log, j, l, 0))
  {
  }

  lemma ActFed(c: Config, s: Sys, k: nat, a: Action)
    requires Inv(c, s) && Fed(c, s) && Enabled(c, s, Act(k, a))
    ensures Sane(c, Apply(c, s, Act(k, a))) && Fed(c, Apply(c, s, Act(k, a)))
  {
    hide Inv, LogFed, RowOk, TaskFed;
    TaskFacts(c, s, k);
    ActSane(c, s, k, a);
    var s' := Apply(c, s, Act(k, a));
    if a == Store {
      StoreLog(c, s, k, s'.log);
      StoreOwn(c, s, k, s');
      forall i | 0 <= i < c.n && s'.shards[i].task.Some? ensures TaskFed(c, s'.log, s'.shards[i].task.value) {
        if i != k { StoreOther(c, s, k, i, s'.log); }
      }
      forall cell ensures RowOk(c, s'.pred, s'.fin, s'.log, cell) { StoreRows(c, s, k, s', cell); }
    } else {
      QuietOwn(c, s, k, a, s');
      forall cell ensures RowOk(c, s'.pred, s'.fin, s'.log, cell) { QuietRows(c, s, k, a, s', cell); }
    }
  }

  lemma BeginFed(c: Config, s: Sys, k: nat)
    requires Inv(c, s) && Fed(c, s) && Enabled(c, s, Begin(k))
    ensures Sane(c, Apply(c, s, Begin(k))) && Fed(c, Apply(c, s, Begin(k)))
  {
    hide LogFed, RowOk;
    StepBegin(c, s, k);
  }

  lemma StepFed(c: Config, s: Sys, st: Step)
    requires Inv(c, s) && Fed(c, s) && Enabled(c, s, st)
    ensures Sane(c, Apply(c, s, st)) && Fed(c, Apply(c, s, st))
  {
    match st
    case Issue =>
    case Begin(k) => BeginFed(c, s, k);
    case Act(k, a) => ActFed(c, s, k, a);
  }
}
