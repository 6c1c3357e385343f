/** The lock-based scheme always comes to rest. */
module S6Progress {
  import opened Network
  import opened Rings
  import opened S6Machine
  import opened S6Invariant
  import opened S6Steps
  import opened S6Results

  ghost predicate Stuck(c: Config, s: Sys)
    requires Sane(c, s)
  {
    forall st: Step :: !Enabled(c, s, st)
  }

  /** A shard inside a cell can go on ... */
  lemma InsideMoves(c: Config, s: Sys, k: nat)
    requires Sane(c, s) && k < c.n && s.shards[k].task.Some? && !s.shards[k].task.value.sec.Outside?
    ensures exists st: Step :: Enabled(c, s, st)
  {
    var sec := s.shards[k].task.value.sec;
    assert Enabled(c, s, Act(k, if sec.Locked? then Load else if sec.Loaded? then Store else Unlock));
  }

  /** ... and a lock that is taken is held by such a shard: so as long as one shard has work, some
      shard can go on. */
  lemma WorkMoves(c: Config, s: Sys, k: nat)
    requires Inv(c, s) && k < c.n && s.shards[k].task.Some?
    ensures exists st: Step :: Enabled(c, s, st)
  {
    var t := s.shards[k].task.value;
    if !t.sec.Outside? {
      InsideMoves(c, s, k);
    } else if t.left == 0 {
      assert Enabled(c, s, Act(k, if t.layer % 2 == 0 then NextLayer else if t.layer == 7 then Head else Boundary));
    } else if !OnGrid(c, Here(c, t)) {
      assert Enabled(c, s, Act(k, Skip));
    } else if s.locks(Here(c, t)).None? {
      assert Enabled(c, s, Act(k, Lock));
    } else {
      var i := s.locks(Here(c, t)).value;
      assert Inside(c, s.shards[i], Here(c, t));
      InsideMoves(c, s, i);
    }
  }

  /** Nor can a full queue stop everything: its shard can begin a job. */
  lemma IssueMoves(c: Config, s: Sys)
    requires Inv(c, s) && c.cap >= 1 && s.issued < |c.jobs|
    ensures exists st: Step :: Enabled(c, s, st)
  {
    OwnerBound(c, s.issued);
    var k := Owner(c, s.issued);
    if Room(c, s, s.issued) {
      assert Enabled(c, s, Issue);
    } else if s.shards[k].task.Some? {
      WorkMoves(c, s, k);
    } else {
      assert TaskOk(c, s, k);
      assert Enabled(c, s, Begin(k));
    }
  }

  /** No deadlock. */
  lemma StuckIsQuiet(c: Config, s: Sys)
    requires Inv(c, s) && Stuck(c, s) && c.cap >= 1
    ensures Quiet(c, s)
  {
    if s.issued < |c.jobs| { IssueMoves(c, s); }
    forall k: nat | k < c.n ensures s.shards[k].task.None? && s.shards[k].taken == |Queue(c, k, |c.jobs|)| {
      if s.shards[k].task.Some? { WorkMoves(c, s, k); }
      assert TaskOk(c, s, k) && !Enabled(c, s, Begin(k));
    }
  }

  // ---- a measure ----

  /** No more actions than this are left of a task: four for each position, one at the end of a layer. */
  function Left(t: Task): int {
    (7 - t.layer) * 37 + 4 * t.left + 1
    - match t.sec case Outside => 0 case Locked => 1 case Loaded(_) => 2 case Stored => 3
  }

  function ShardScore(sh: Shard): int {
    300 * sh.taken - if sh.task.Some? then Left(sh.task.value) else 0
  }

  function ShardScores(shards: seq<Shard>): int {
    if shards == [] then 0 else ShardScores(shards[..|shards| - 1]) + ShardScore(shards[|shards| - 1])
  }

  function Score(s: Sys): int {
    s.issued + ShardScores(s.shards)
  }

  lemma {:induction false} ScoreUpdate(shards: seq<Shard>, k: nat, sh: Shard)
    requires k < |shards|
    ensures ShardScores(shards[k := sh]) == ShardScores(shards) - ShardScore(shards[k]) + ShardScore(sh)
  {
    hide ShardScore;
    var last := |shards| - 1;
    if k == last {
      assert shards[k := sh][..last] == shards[..last];
    } else {
      assert shards[k := sh][..last] == shards[..last][k := sh];
      ScoreUpdate(shards[..last], k, sh);
    }
  }

  lemma TaskLeft(c: Config, s: Sys, t: Task, a: Action)
    requires TaskSane(c, t) && CanAct(c, s, t, a)
    ensures Left(t) >= 1 && var r := After(c, s, t, a); r.Some? ==> 0 <= Left(r.value) < Left(t)
  {
    hide Here, OnGrid, Result;
  }

  lemma StepScore(c: Config, s: Sys, st: Step)
    requires Sane(c, s) && Enabled(c, s, st)
    ensures Score(Apply(c, s, st)) > Score(s)
  {
    hide Here, OnGrid, Result, ShardScores, Queue, Positions;
    match st
    case Issue =>
    case Begin(k) =>
      QueueBound(c, k, s.issued);
      FreshLeft(c, Queue(c, k, s.issued)[s.shards[k].taken]);
      ScoreUpdate(s.shards, k, Apply(c, s, st).shards[k]);
    case Act(k, a) =>
      TaskLeft(c, s, s.shards[k].task.value, a);
      ScoreUpdate(s.shards, k, Apply(c, s, st).shards[k]);
  }

  lemma FreshLeft(c: Config, j: nat)
    requires j < |c.jobs|
    ensures Left(Fresh(c, j, 0, c.jobs[j].at, c.jobs[j].feat)) <= 296
  {
  }

  // ---- and its bound ----

  /** Jobs taken by the shards below k. */
  function Taken(shards: seq<Shard>): nat {
    if shards == [] then 0 else Taken(shards[..|shards| - 1]) + shards[|shards| - 1].taken
  }

  function Queued(c: Config, k: nat): nat
    requires Sound(c)
  {
    if k == 0 then 0 else Queued(c, k - 1) + |Queue(c, k - 1, |c.jobs|)|
  }

  /** Jobs below i with an owner below k. */
  function OwnedBelow(c: Config, k: nat, i: nat): nat
    requires Sound(c) && i <= |c.jobs|
  {
    if i == 0 then 0 else OwnedBelow(c, k, i - 1) + if Owner(c, i - 1) < k then 1 else 0
  }

  lemma {:induction false} OwnedSplit(c: Config, k: nat, i: nat)
    requires Sound(c) && i <= |c.jobs|
    ensures OwnedBelow(c, k + 1, i) == OwnedBelow(c, k, i) + |Queue(c, k, i)|
    ensures OwnedBelow(c, 0, i) == 0 && OwnedBelow(c, k, i) <= i
  {
    hide Owner;
    if i == 0 {
    } else {
      OwnedSplit(c, k, i - 1);
    }
  }

  lemma {:induction false} QueuedAll(c: Config, k: nat)
    requires Sound(c)
    ensures Queued(c, k) == OwnedBelow(c, k, |c.jobs|) <= |c.jobs|
  {
    hide Owner, Queue, OwnedBelow;
    if k == 0 {
      OwnedSplit(c, 0, |c.jobs|);
    } else {
      QueuedAll(c, k - 1);
      OwnedSplit(c, k - 1, |c.jobs|);
      OwnedSplit(c, k, |c.jobs|);
    }
  }

  lemma {:induction false} TakenBound(c: Config, s: Sys, k: nat)
    requires Inv(c, s) && k <= c.n
    ensures Taken(s.shards[..k]) <= Queued(c, k)
  {
    if k == 0 {
    } else {
      TakenBound(c, s, k - 1);
      assert s.shards[..k][..k - 1] == s.shards[..k - 1];
      assert TaskOk(c, s, k - 1);
      QueuePrefix(c, k - 1, s.issued, |c.jobs|);
      hide Inv, Queue;
    }
  }

  lemma {:induction false} ScoresBound(c: Config, shards: seq<Shard>)
    requires forall k :: 0 <= k < |shards| && shards[k].task.Some? ==> TaskSane(c, shards[k].task.value)
    ensures ShardScores(shards) <= 300 * Taken(shards)
  {
    hide Positions, LayerOf;
    if shards == [] {
    } else {
      ScoresBound(c, shards[..|shards| - 1]);
    }
  }

  lemma {:induction false} RunScore(c: Config, s: Sys, steps: seq<Step>, t: Sys)
    requires Leads(c, s, steps, t)
    ensures Score(t) >= Score(s) + |steps|
    decreases |steps|
  {
    hide Enabled, Apply, Score, Sane;
    if steps == [] {
    } else {
      StepScore(c, s, steps[0]);
      RunScore(c, Apply(c, s, steps[0]), steps[1..], t);
    }
  }

  lemma {:induction false} StartScores(shards: seq<Shard>)
    requires forall k :: 0 <= k < |shards| ==> shards[k] == Shard(0, None)
    ensures ShardScores(shards) == 0
  {
    if shards == [] {
    } else {
      StartScores(shards[..|shards| - 1]);
    }
  }

  /** Progress: no run has more than 301 steps for each job, and a run that no thread can extend has
      come to rest with every job processed.  Nothing is assumed of the schedule. */
  lemma RunsFinish(c: Config, steps: seq<Step>, s: Sys)
    requires Good(c) && c.cap >= 1 && Leads(c, Start(c), steps, s)
    ensures |steps| <= 301 * |c.jobs| && Sane(c, s)
    ensures Stuck(c, s) ==> Quiet(c, s)
  {
    StartInv(c);
    RunInv(c, Start(c), steps, s);
    RunScore(c, Start(c), steps, s);
    StartScores(Start(c).shards);
    TakenBound(c, s, c.n);
    assert s.shards[..c.n] == s.shards;
    QueuedAll(c, c.n);
    ScoresBound(c, s.shards);
    if Stuck(c, s) { StuckIsQuiet(c, s); }
  }

  // ---- rest is reached ----

  lemma {:induction false} LeadsOn(c: Config, a: Sys, steps: seq<Step>, b: Sys, st: Step)
    requires Leads(c, a, steps, b) && Sane(c, b) && Enabled(c, b, st)
    ensures Leads(c, a, steps + [st], Apply(c, b, st))
    decreases |steps|
  {
    hide Enabled, Apply, Sane;
    if steps == [] {
      assert steps + [st] == [st];
    } else {
      LeadsOn(c, Apply(c, a, steps[0]), steps[1..], b, st);
      assert (steps + [st])[1..] == steps[1..] + [st];
    }
  }

  /** Every run can be carried on to such a rest. */
  lemma {:induction false} RestReached(c: Config, steps: seq<Step>, s: Sys) returns (all: seq<Step>, t: Sys)
    requires Good(c) && c.cap >= 1 && Leads(c, Start(c), steps, s)
    ensures steps <= all && Leads(c, Start(c), all, t) && Quiet(c, t)
    decreases 301 * |c.jobs| - |steps|
  {
    hide Leads, Quiet, Enabled, Apply, Good;
    RunsFinish(c, steps, s);
    if Stuck(c, s) {
      all, t := steps, s;
    } else {
      var st: Step :| Enabled(c, s, st);
      LeadsOn(c, Start(c), steps, s, st);
      RunsFinish(c, steps + [st], Apply(c, s, st));
      all, t := RestReached(c, steps + [st], Apply(c, s, st));
    }
  }
}
