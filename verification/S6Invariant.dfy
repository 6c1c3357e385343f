/** What every run of the lock-based scheme keeps. */
module S6Invariant {
  import opened Geometry
  import opened Network
  import opened Rings
  import opened Tdrop
  import opened S6Machine

  /** Where job j stands in stage s. */
  function AtStage(c: Config, j: nat, s: nat): Cell
    requires j < |c.jobs|
  {
    if s == 0 then c.jobs[j].at else Pool(AtStage(c, j, s - 1))
  }

  // ---- locks ----

  /** The shard is inside process_patch, between taking and clearing the lock of this cell. */
  predicate Inside(c: Config, sh: Shard, x: Site) {
    sh.task.Some? && !sh.task.value.sec.Outside? && sh.task.value.left > 0 && Here(c, sh.task.value) == x
  }

  ghost predicate LocksOk(c: Config, shards: seq<Shard>, locks: Site -> Option<nat>) {
    && (forall k, x :: 0 <= k < |shards| ==> (locks(x) == Some(k) <==> Inside(c, shards[k], x)))
    && (forall x {:trigger locks(x)} :: locks(x).Some? ==> locks(x).value < |shards|)
  }

  // ---- hidden cells ----

  function InitHid(c: Config, x: Site): Hid {
    var m := c.init.Mem(x.layer / 2);
    if x.layer % 2 == 0 then m.a(x.cell) else m.b(x.cell)
  }

  /** The updates in the log, applied one after the other. */
  function Fold(c: Config, x: Site, us: seq<Update>): Hid {
    if us == [] then InitHid(c, x)
    else
      var u := us[|us| - 1];
      LayerOf(c, x.layer).lru(u.p, u.feat, Fold(c, x, us[..|us| - 1]))
  }

  ghost predicate HiddenOk(c: Config, hidden: Site -> Hid, log: Site -> seq<Update>) {
    forall x {:trigger hidden(x)} :: hidden(x) == Fold(c, x, log(x))
  }

  /** What a shard has read under the lock is still there. */
  ghost predicate LoadedOk(c: Config, shards: seq<Shard>, hidden: Site -> Hid) {
    forall k :: 0 <= k < |shards| && shards[k].task.Some? ==> ReadOk(c, shards[k].task.value, hidden)
  }

  ghost predicate ReadOk(c: Config, t: Task, hidden: Site -> Hid) {
    t.sec.Loaded? && t.left > 0 ==> t.sec.h == hidden(Here(c, t))
  }

  // ---- exactly once ----

  function Count(us: seq<Update>, j: nat): nat {
    if us == [] then 0 else Count(us[..|us| - 1], j) + if us[|us| - 1].job == j then 1 else 0
  }

  /** The position at which job j updates cell x, if it ever does. */
  predicate Meets(c: Config, j: nat, x: Site)
    requires j < |c.jobs|
  {
    Touches(LayerOf(c, x.layer), Grid(c, x.layer), AtStage(c, j, x.layer / 2), x.cell)
  }

  function Pos(c: Config, j: nat, x: Site): nat
    requires j < |c.jobs|
  {
    PositionOf(LayerOf(c, x.layer), AtStage(c, j, x.layer / 2), x.cell)
  }

  ghost predicate LogOk(c: Config, log: Site -> seq<Update>, low: Visit -> nat) {
    && (forall x, j: nat {:trigger Count(log(x), j)} :: j < |c.jobs| ==>
          Count(log(x), j) == if Meets(c, j, x) && Pos(c, j, x) >= low(Visit(j, x.layer)) then 1 else 0)
    && (forall x, i {:trigger log(x)[i]} :: 0 <= i < |log(x)| ==>
      log(x)[i].job < |c.jobs| && log(x)[i].p == Pos(c, log(x)[i].job, x))
  }

  // ---- jobs ----

  /** How far job j has come in layer l: the lowest position done. */
  function Expected(c: Config, entered: nat, task: Option<Task>, l: nat): nat {
    var all := Positions(LayerOf(c, l));
    if task.Some? then
      var t := task.value;
      if l < t.layer then 0 else if l > t.layer then all else if t.sec.Stored? && t.left > 0 then t.left - 1 else t.left
    else if l < 2 * entered then 0 else all
  }

  /** The work a shard has in hand on job j. */
  function TaskOf(c: Config, s: Sys, j: nat): Option<Task>
    requires Sane(c, s) && j < |c.jobs|
  {
    OwnerBound(c, j);
    var k := Owner(c, j);
    if s.shards[k].task.Some? && s.shards[k].task.value.job == j then s.shards[k].task else None
  }

  function Rank(c: Config, j: nat): nat
    requires Sound(c) && j < |c.jobs|
  {
    |Queue(c, Owner(c, j), j)|
  }

  ghost predicate JobOk(c: Config, s: Sys, j: nat)
    requires Sane(c, s) && j < |c.jobs|
  {
    OwnerBound(c, j);
    var t, begun := TaskOf(c, s, j), Rank(c, j) < s.shards[Owner(c, j)].taken;
    && s.entered[j] <= 4
    && (t.Some? ==> begun && s.entered[j] == t.value.layer / 2 + 1 && s.fin[j] == t.value.layer / 2)
    && (t.None? ==> s.entered[j] == s.fin[j] && (s.entered[j] >= 1 <==> begun))
    && (forall l: nat :: l <= 7 ==> s.low(Visit(j, l)) == Expected(c, s.entered[j], t, l))
  }

  ghost predicate TaskOk(c: Config, s: Sys, k: nat)
    requires Sane(c, s) && k < c.n
  {
    && s.shards[k].taken <= |Queue(c, k, s.issued)|
    && (s.shards[k].task.Some? ==>
          var t := s.shards[k].task.value;
          Owner(c, t.job) == k && Rank(c, t.job) == s.shards[k].taken - 1 && t.at == AtStage(c, t.job, t.layer / 2)
          && (!t.sec.Outside? ==> OnGrid(c, Here(c, t))))
  }

  // ---- bytes ----

  /** Jobs below n that are past a stage and stand at cell d behind it. */
  function Gone(c: Config, fin: seq<nat>, s: nat, d: Cell, n: nat): nat
    requires n <= |c.jobs| == |fin|
  {
    if n == 0 then 0 else Gone(c, fin, s, d, n - 1) + if fin[n - 1] > s && AtStage(c, n - 1, s + 1) == d then 1 else 0
  }

  /** Jobs below n that entered stage s at cell d. */
  function Came(c: Config, entered: seq<nat>, s: nat, d: Cell, n: nat): nat
    requires n <= |c.jobs| == |entered|
  {
    if n == 0 then 0 else Came(c, entered, s, d, n - 1) + if entered[n - 1] > s && AtStage(c, n - 1, s) == d then 1
      else 0
  }

  ghost predicate BytesOk(c: Config, drop: Site -> nat, entered: seq<nat>, fin: seq<nat>)
    requires |entered| == |fin| == |c.jobs|
  {
    forall b: nat, d: Cell :: b <= 2 ==> ByteOk(c, drop, entered, fin, b, d)
  }

  ghost predicate ByteOk(c: Config, drop: Site -> nat, entered: seq<nat>, fin: seq<nat>, b: nat, d: Cell)
    requires |entered| == |fin| == |c.jobs|
  {
    var init, n := c.init.Mem(b).drop(d), Gone(c, fin, b, d, |c.jobs|);
    && drop(Site(b, d)) == (init + n) % 256
    && Came(c, entered, b + 1, d, |c.jobs|) == PassCount(c.net.window, init, n)
  }

  ghost predicate Inv(c: Config, s: Sys) {
    && Sane(c, s)
    && (forall k: nat :: k < c.n ==> TaskOk(c, s, k))
    && (forall j: nat :: j < |c.jobs| ==> JobOk(c, s, j))
    && LocksOk(c, s.shards, s.locks)
    && HiddenOk(c, s.hidden, s.log) && LoadedOk(c, s.shards, s.hidden)
    && LogOk(c, s.log, s.low)
    && BytesOk(c, s.drop, s.entered, s.fin)
  }
}
