/** Each step of the lock-based scheme keeps its invariant, part by part. */
module S6Steps {
  import opened Geometry
  import opened Network
  import opened Sequential
  import opened Rings
  import opened Tdrop
  import opened S6Machine
  import opened S6Invariant

  // ---- locks ----

  /** A shard that is outside before and after, or stays inside the same cell. */
  lemma SameInside(c: Config, shards: seq<Shard>, locks: Site -> Option<nat>, k: nat, sh: Shard)
    requires LocksOk(c, shards, locks) && k < |shards|
    requires forall x :: Inside(c, sh, x) <==> Inside(c, shards[k], x)
    ensures LocksOk(c, shards[k := sh], locks)
  {
    hide Inside;
    forall i, x | 0 <= i < |shards| ensures locks(x) == Some(i) <==> Inside(c, shards[k := sh][i], x) {}
  }

  lemma EnterInside(c: Config, shards: seq<Shard>, locks: Site -> Option<nat>, k: nat, sh: Shard, y: Site)
    requires LocksOk(c, shards, locks) && k < |shards| && locks(y).None?
    requires forall x :: (Inside(c, sh, x) <==> x == y) && !Inside(c, shards[k], x)
    ensures LocksOk(c, shards[k := sh], Put(locks, y, Some(k)))
  {
    hide Inside;
    var locks' := Put(locks, y, Some(k));
    forall i, x | 0 <= i < |shards| ensures locks'(x) == Some(i) <==> Inside(c, shards[k := sh][i], x) {
      assert locks(x) == Some(i) <==> Inside(c, shards[i], x);
    }
  }

  lemma LeaveInside(c: Config, shards: seq<Shard>, locks: Site -> Option<nat>, k: nat, sh: Shard, y: Site)
    requires LocksOk(c, shards, locks) && k < |shards|
    requires forall x :: !Inside(c, sh, x) && (Inside(c, shards[k], x) <==> x == y)
    ensures LocksOk(c, shards[k := sh], Put(locks, y, None))
  {
    hide Inside;
    var locks' := Put(locks, y, None);
    forall i, x | 0 <= i < |shards| ensures locks'(x) == Some(i) <==> Inside(c, shards[k := sh][i], x) {
      assert locks(x) == Some(i) <==> Inside(c, shards[i], x);
      assert locks(y) == Some(k) <==> Inside(c, shards[k], y);
    }
  }

  lemma ActLocks(c: Config, s: Sys, k: nat, a: Action)
    requires Sane(c, s) && LocksOk(c, s.shards, s.locks) && Enabled(c, s, Act(k, a))
    ensures LocksOk(c, Apply(c, s, Act(k, a)).shards, Apply(c, s, Act(k, a)).locks)
  {
    var sh, t := s.shards[k], s.shards[k].task.value;
    var sh' := sh.(task := After(c, s, t, a));
    if a == Lock {
      EnterInside(c, s.shards, s.locks, k, sh', Here(c, t));
    } else if a == Unlock {
      LeaveInside(c, s.shards, s.locks, k, sh', Here(c, t));
    } else {
      SameInside(c, s.shards, s.locks, k, sh');
    }
  }

  // ---- hidden cells ----

  lemma ActHidden(c: Config, s: Sys, k: nat, a: Action)
    requires Sane(c, s) && LocksOk(c, s.shards, s.locks) && Enabled(c, s, Act(k, a))
    requires HiddenOk(c, s.hidden, s.log) && LoadedOk(c, s.shards, s.hidden)
    ensures HiddenOk(c, Apply(c, s, Act(k, a)).hidden, Apply(c, s, Act(k, a)).log)
    ensures LoadedOk(c, Apply(c, s, Act(k, a)).shards, Apply(c, s, Act(k, a)).hidden)
  {
    var t, s' := s.shards[k].task.value, Apply(c, s, Act(k, a));
    assert ReadOk(c, t, s.hidden);
    if a == Store {
      StoreHidden(c, s, k);
    } else {
      hide Fold, Here;
      forall i | 0 <= i < |s'.shards| && s'.shards[i].task.Some? ensures ReadOk(c, s'.shards[i].task.value, s'.hidden) {
        if i != k { assert ReadOk(c, s.shards[i].task.value, s.hidden); }
      }
    }
  }

  lemma StoreHidden(c: Config, s: Sys, k: nat)
    requires Sane(c, s) && LocksOk(c, s.shards, s.locks) && Enabled(c, s, Act(k, Store))
    requires HiddenOk(c, s.hidden, s.log) && LoadedOk(c, s.shards, s.hidden)
    ensures HiddenOk(c, Apply(c, s, Act(k, Store)).hidden, Apply(c, s, Act(k, Store)).log)
    ensures LoadedOk(c, Apply(c, s, Act(k, Store)).shards, Apply(c, s, Act(k, Store)).hidden)
  {
    var t, s' := s.shards[k].task.value, Apply(c, s, Act(k, Store));
    var y, u := Here(c, t), Update(t.job, t.left - 1, t.feat);
    assert ReadOk(c, t, s.hidden);
    forall x ensures s'.hidden(x) == Fold(c, x, s'.log(x)) {
      if x == y { assert (s.log(x) + [u])[..|s.log(x)|] == s.log(x); }
    }
    forall i | 0 <= i < |s'.shards| && s'.shards[i].task.Some? ensures ReadOk(c, s'.shards[i].task.value, s'.hidden) {
      if i != k {
        var r := s.shards[i].task.value;
        assert ReadOk(c, r, s.hidden);
        if r.sec.Loaded? && Here(c, r) == y { Exclusive(c, s.shards, s.locks, i, k, y); }
      }
    }
  }

  /** Mutual exclusion. */
  lemma Exclusive(c: Config, shards: seq<Shard>, locks: Site -> Option<nat>, i: nat, k: nat, x: Site)
    requires LocksOk(c, shards, locks) && i < |shards| && k < |shards| && Inside(c, shards[i], x)
      && Inside(c, shards[k], x)
    ensures i == k
  {
    assert locks(x) == Some(i) && locks(x) == Some(k);
  }

  // ---- exactly once ----

  lemma CountAppend(us: seq<Update>, u: Update, j: nat)
    ensures Count(us + [u], j) == Count(us, j) + if u.job == j then 1 else 0
  {
    assert (us + [u])[..|us|] == us;
  }

  /** Position p of the job's window is one cell, if it is on the grid. */
  lemma OneCell(c: Config, j: nat, x: Site, p: nat)
    requires j < |c.jobs| && p < Positions(LayerOf(c, x.layer))
    ensures Meets(c, j, x) && Pos(c, j, x) == p <==>
            OnGrid(c, x) && x.cell == Spot(LayerOf(c, x.layer), AtStage(c, j, x.layer / 2), p)
  {
    var ly, g, ev := LayerOf(c, x.layer), Grid(c, x.layer), AtStage(c, j, x.layer / 2);
    if Meets(c, j, x) {
      PositionIsSpot(ly, g, ev, x.cell);
      assert InGrid(g, x.cell);
    }
    if OnGrid(c, x) && x.cell == Spot(ly, ev, p) { SpotIsTouched(ly, g, ev, p); }
  }

  /** One more position done: off the grid nothing is to be logged ... */
  lemma LogSkip(c: Config, log: Site -> seq<Update>, low: Visit -> nat, t: Task)
    requires TaskSane(c, t) && t.left > 0 && t.at == AtStage(c, t.job, t.layer / 2) && LogOk(c, log, low)
    requires low(Visit(t.job, t.layer)) == t.left && !OnGrid(c, Here(c, t))
    ensures LogOk(c, log, Put<Visit, nat>(low, Visit(t.job, t.layer), t.left - 1))
  {
    var low' := Put<Visit, nat>(low, Visit(t.job, t.layer), t.left - 1);
    forall x, j: nat {:trigger Count(log(x), j)} | j < |c.jobs|
      ensures Count(log(x), j) == if Meets(c, j, x) && Pos(c, j, x) >= low'(Visit(j, x.layer)) then 1 else 0
    {
      if j == t.job && x.layer == t.layer { OneCell(c, j, x, t.left - 1); }
    }
  }

  /** ... on the grid exactly its update. */
  lemma LogStore(c: Config, log: Site -> seq<Update>, low: Visit -> nat, t: Task)
    requires TaskSane(c, t) && t.left > 0 && t.at == AtStage(c, t.job, t.layer / 2) && LogOk(c, log, low)
    requires low(Visit(t.job, t.layer)) == t.left && OnGrid(c, Here(c, t))
    ensures var y := Here(c, t);
      LogOk(c, Put(log, y, log(y) + [Update(t.job, t.left - 1, t.feat)]), Put<Visit,
        nat>(low, Visit(t.job, t.layer), t.left - 1))
  {
    var y, u := Here(c, t), Update(t.job, t.left - 1, t.feat);
    var log', low' := Put(log, y, log(y) + [u]), Put<Visit, nat>(low, Visit(t.job, t.layer), t.left - 1);
    OneCell(c, t.job, y, t.left - 1);
    forall x, j: nat {:trigger Count(log'(x), j)} | j < |c.jobs|
      ensures Count(log'(x), j) == if Meets(c, j, x) && Pos(c, j, x) >= low'(Visit(j, x.layer)) then 1 else 0
    {
      assert Count(log(x), j) == if Meets(c, j, x) && Pos(c, j, x) >= low(Visit(j, x.layer)) then 1 else 0;
      CountAppend(log(y), u, j);
      if j == t.job && x.layer == t.layer { OneCell(c, j, x, t.left - 1); }
    }
    forall x, i {:trigger log'(x)[i]} | 0 <= i < |log'(x)|
      ensures log'(x)[i].job < |c.jobs| && log'(x)[i].p == Pos(c, log'(x)[i].job, x)
    {
      if i < |log(x)| { assert log(x)[i].p == Pos(c, log(x)[i].job, x); }
    }
  }

  lemma ActLog(c: Config, s: Sys, k: nat, a: Action)
    requires Inv(c, s) && Enabled(c, s, Act(k, a))
    ensures LogOk(c, Apply(c, s, Act(k, a)).log, Apply(c, s, Act(k, a)).low)
  {
    var t := s.shards[k].task.value;
    assert TaskOk(c, s, k) && JobOk(c, s, t.job);
    if a == Skip || a == Store {
      assert TaskOf(c, s, t.job) == Some(t);
      assert s.low(Visit(t.job, t.layer)) == Expected(c, s.entered[t.job], Some(t), t.layer);
      hide LogOk;
      if a == Store { LogStore(c, s.log, s.low, t); } else { LogSkip(c, s.log, s.low, t); }
    }
  }

  // ---- jobs and tasks ----

  /** An action leaves every other job as it is. */
  lemma OtherJob(c: Config, s: Sys, k: nat, a: Action, j: nat)
    requires Inv(c, s) && Enabled(c, s, Act(k, a)) && j < |c.jobs| && j != s.shards[k].task.value.job
    ensures Sane(c, Apply(c, s, Act(k, a))) && JobOk(c, Apply(c, s, Act(k, a)), j)
  {
    ActSane(c, s, k, a);
    assert JobOk(c, s, j);
    hide Inv, Expected;
  }

  lemma ActSane(c: Config, s: Sys, k: nat, a: Action)
    requires Sane(c, s) && Enabled(c, s, Act(k, a))
    ensures Sane(c, Apply(c, s, Act(k, a)))
  {
  }

  lemma OwnJob(c: Config, s: Sys, k: nat, a: Action)
    requires Inv(c, s) && Enabled(c, s, Act(k, a))
    ensures Sane(c, Apply(c, s, Act(k, a))) && JobOk(c, Apply(c, s, Act(k, a)), s.shards[k].task.value.job)
  {
    ActSane(c, s, k, a);
    var t := s.shards[k].task.value;
    assert JobOk(c, s, t.job) && TaskOk(c, s, k);
    assert TaskOf(c, s, t.job) == Some(t);
    hide Inv;
  }

  lemma ActTasks(c: Config, s: Sys, k: nat, a: Action, i: nat)
    requires Inv(c, s) && Enabled(c, s, Act(k, a)) && i < c.n
    ensures Sane(c, Apply(c, s, Act(k, a))) && TaskOk(c, Apply(c, s, Act(k, a)), i)
  {
    ActSane(c, s, k, a);
    assert TaskOk(c, s, k) && TaskOk(c, s, i);
    hide Inv, Rank, Queue;
  }

  // ---- bytes ----

  lemma {:induction false} GoneStep(c: Config, fin: seq<nat>, j: nat, b: nat, d: Cell, n: nat)
    requires n <= |c.jobs| == |fin| && j < |fin|
    ensures Gone(c, fin[j := fin[j] + 1], b, d, n) == Gone(c, fin, b, d, n) + if j < n && fin[j] == b
      && AtStage(c, j, b + 1) == d then 1 else 0
  {
    hide AtStage;
    if n == 0 {
    } else {
      GoneStep(c, fin, j, b, d, n - 1);
    }
  }

  lemma {:induction false} CameStep(c: Config, entered: seq<nat>, j: nat, b: nat, d: Cell, n: nat)
    requires n <= |c.jobs| == |entered| && j < |entered|
    ensures Came(c, entered[j := entered[j] + 1], b, d, n) == Came(c, entered, b, d, n) + if j < n && entered[j] == b
      && AtStage(c, j, b) == d then 1 else 0
  {
    hide AtStage;
    if n == 0 {
    } else {
      CameStep(c, entered, j, b, d, n - 1);
    }
  }

  lemma ActBytes(c: Config, s: Sys, k: nat, a: Action)
    requires Inv(c, s) && Enabled(c, s, Act(k, a))
    ensures Sane(c, Apply(c, s, Act(k, a)))
      && BytesOk(c, Apply(c, s, Act(k, a)).drop, Apply(c, s, Act(k, a)).entered, Apply(c, s, Act(k, a)).fin)
  {
    ActSane(c, s, k, a);
    var t, s' := s.shards[k].task.value, Apply(c, s, Act(k, a));
    assert JobOk(c, s, t.job) && TaskOk(c, s, k);
    assert TaskOf(c, s, t.job) == Some(t);
    forall b: nat, d: Cell | b <= 2 ensures ByteOk(c, s'.drop, s'.entered, s'.fin, b, d) {
      assert ByteOk(c, s.drop, s.entered, s.fin, b, d);
      if a == Boundary {
        BoundaryByte(c, s, t, b, d);
      } else if a == Head {
        GoneStep(c, s.fin, t.job, b, d, |c.jobs|);
      }
    }
  }

  lemma BoundaryByte(c: Config, s: Sys, t: Task, b: nat, d: Cell)
    requires |s.entered| == |s.fin| == |c.jobs| && t.job < |c.jobs| && b <= 2 && t.layer % 2 == 1 && t.layer < 7
    requires s.entered[t.job] == t.layer / 2 + 1 && s.fin[t.job] == t.layer / 2
      && t.at == AtStage(c, t.job, t.layer / 2)
    requires ByteOk(c, s.drop, s.entered, s.fin, b, d)
    ensures var y := Byte(t);
      ByteOk(c, Put<Site, nat>(s.drop, y, (s.drop(y) + 1) % 256),
             if Passes(c.net.window, s.drop(y)) then s.entered[t.job := s.entered[t.job] + 1] else s.entered,
             s.fin[t.job := s.fin[t.job] + 1], b, d)
  {
    GoneStep(c, s.fin, t.job, b, d, |c.jobs|);
    CameStep(c, s.entered, t.job, b + 1, d, |c.jobs|);
    assert AtStage(c, t.job, t.layer / 2 + 1) == Pool(t.at);
    OneTouch(c.net.window, c.init.Mem(b).drop(d), Gone(c, s.fin, b, d, |c.jobs|));
    hide Gone, Came, AtStage, Passes, PassCount;
  }

  // ---- a new job, a new event ----

  lemma {:induction false} QueuePrefix(c: Config, k: nat, a: nat, b: nat)
    requires Sound(c) && a <= b <= |c.jobs|
    ensures Queue(c, k, a) <= Queue(c, k, b)
  {
    if a < b { QueuePrefix(c, k, a, b - 1); }
  }

  /** The entry at rank r of a queue is the job of that rank. */
  lemma {:induction false} QueueRank(c: Config, k: nat, i: nat, r: nat)
    requires Sound(c) && i <= |c.jobs| && r < |Queue(c, k, i)|
    ensures var j := Queue(c, k, i)[r]; j < i && Owner(c, j) == k && Rank(c, j) == r
  {
    if r < |Queue(c, k, i - 1)| { QueueRank(c, k, i - 1, r); }
  }

  /** Jobs of one owner have different ranks. */
  lemma RankInjective(c: Config, i: nat, j: nat)
    requires Sound(c) && i < |c.jobs| && j < |c.jobs| && Owner(c, i) == Owner(c, j) && Rank(c, i) == Rank(c, j)
    ensures i == j
  {
    var k := Owner(c, i);
    if i < j {
      QueuePrefix(c, k, i + 1, j);
    } else if j < i {
      QueuePrefix(c, k, j + 1, i);
    }
  }

  lemma StepIssue(c: Config, s: Sys)
    requires Inv(c, s) && Enabled(c, s, Issue)
    ensures Inv(c, Apply(c, s, Issue))
  {
    var s' := Apply(c, s, Issue);
    forall k: nat | k < c.n ensures TaskOk(c, s', k) {
      assert TaskOk(c, s, k);
      QueuePrefix(c, k, s.issued, s.issued + 1);
    }
    hide Queue, LocksOk, HiddenOk, LoadedOk, LogOk, BytesOk, Rank, Expected;
    forall j: nat | j < |c.jobs| ensures JobOk(c, s', j) { assert JobOk(c, s, j); }
  }

  lemma BeginJobs(c: Config, s: Sys, k: nat, j: nat)
    requires Inv(c, s) && Enabled(c, s, Begin(k)) && j < |c.jobs|
    ensures Sane(c, Apply(c, s, Begin(k))) && JobOk(c, Apply(c, s, Begin(k)), j)
  {
    QueueBound(c, k, s.issued);
    QueueRank(c, k, s.issued, s.shards[k].taken);
    var s', i := Apply(c, s, Begin(k)), Queue(c, k, s.issued)[s.shards[k].taken];
    assert JobOk(c, s, j) && JobOk(c, s, i);
    if j != i && Owner(c, j) == k && Rank(c, j) == Rank(c, i) { RankInjective(c, i, j); }
    hide Inv, Rank, Queue, Owner;
  }

  lemma {:induction false} BeginCame(c: Config, entered: seq<nat>, j: nat, b: nat, d: Cell, n: nat)
    requires n <= |c.jobs| == |entered| && j < |entered| && entered[j] == 0 && b >= 1
    ensures Came(c, entered[j := 1], b, d, n) == Came(c, entered, b, d, n)
  {
    CameStep(c, entered, j, b, d, n);
  }

  lemma StepBegin(c: Config, s: Sys, k: nat)
    requires Inv(c, s) && Enabled(c, s, Begin(k))
    ensures Inv(c, Apply(c, s, Begin(k)))
  {
    QueueBound(c, k, s.issued);
    QueueRank(c, k, s.issued, s.shards[k].taken);
    var s', i := Apply(c, s, Begin(k)), Queue(c, k, s.issued)[s.shards[k].taken];
    assert JobOk(c, s, i);
    assert Sane(c, s');
    forall j: nat | j < |c.jobs| ensures JobOk(c, s', j) { BeginJobs(c, s, k, j); }
    forall t: nat | t < c.n ensures TaskOk(c, s', t) { assert TaskOk(c, s, t); }
    SameInside(c, s.shards, s.locks, k, s'.shards[k]);
    assert LoadedOk(c, s'.shards, s'.hidden);
    hide JobOk, TaskOk, LocksOk, HiddenOk, LoadedOk, LogOk, Rank, Queue, Owner;
    forall b: nat, d: Cell | b <= 2 ensures ByteOk(c, s'.drop, s'.entered, s'.fin, b, d) {
      assert ByteOk(c, s.drop, s.entered, s.fin, b, d);
      BeginCame(c, s.entered, i, b + 1, d, |c.jobs|);
    }
  }

  lemma StepAct(c: Config, s: Sys, k: nat, a: Action)
    requires Inv(c, s) && Enabled(c, s, Act(k, a))
    ensures Inv(c, Apply(c, s, Act(k, a)))
  {
    var s' := Apply(c, s, Act(k, a));
    ActSane(c, s, k, a);
    ActLocks(c, s, k, a);
    ActHidden(c, s, k, a);
    ActLog(c, s, k, a);
    ActBytes(c, s, k, a);
    forall i: nat | i < c.n ensures TaskOk(c, s', i) { ActTasks(c, s, k, a, i); }
    forall j: nat | j < |c.jobs| ensures JobOk(c, s', j) {
      if j == s.shards[k].task.value.job { OwnJob(c, s, k, a); } else { OtherJob(c, s, k, a, j); }
    }
    hide JobOk, TaskOk, LocksOk, HiddenOk, LoadedOk, LogOk, BytesOk, Apply, Enabled, Sane;
  }

  lemma StepInv(c: Config, s: Sys, st: Step)
    requires Inv(c, s) && Enabled(c, s, st)
    ensures Inv(c, Apply(c, s, st))
  {
    hide Inv, Apply;
    match st
    case Issue => StepIssue(c, s);
    case Begin(k) => StepBegin(c, s, k);
    case Act(k, a) => StepAct(c, s, k, a);
  }
}
