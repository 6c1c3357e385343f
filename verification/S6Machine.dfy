/** The scheme in which every shard runs whole events on shared memory: a lock for each hidden cell
    of each layer, an atomic byte for each pooled cell. */
module S6Machine {
  import opened Geometry
  import opened Network
  import opened Sequential
  import opened Ownership
  import opened Rings

  /** n shards with queues of `cap` jobs; jobs are the events inside the sensor, in the order they
      are pushed. */
  datatype Config = Config(net: Net, n: nat, cap: nat, jobs: seq<Job>, init: State)

  /** A hidden cell of a layer, or a byte of a boundary. */
  datatype Site = Site(layer: nat, cell: Cell)

  /** A job in a layer. */
  datatype Visit = Visit(job: nat, layer: nat)

  /** One lru_step on a hidden cell. */
  datatype Update = Update(job: nat, p: nat, feat: Feat)

  /** A shard inside process_patch: waiting for the lock, holding it, holding what it read, done. */
  datatype Section = Outside | Locked | Loaded(h: Hid) | Stored

  /** A shard inside an event: the layer it runs, the cell, the layer's input, the positions still
      to do (those from `left` on are done) and the output summed so far. */
  datatype Task = Task(job: nat, layer: nat, at: Cell, feat: Feat, left: nat, acc: Feat, sec: Section)

  datatype Shard = Shard(taken: nat, task: Option<Task>)

  /** log, low and fin record what was done; no step reads them.  log: the updates of each hidden
      cell, in order; low(job, layer): the lowest position done; entered and fin: how many stages
      a job has entered and left. */
  datatype Sys = Sys(
    issued: nat, shards: seq<Shard>,
    hidden: Site -> Hid, locks: Site -> Option<nat>, drop: Site -> nat, pred: Cell -> Row,
    log: Site -> seq<Update>, low: Visit -> nat, entered: seq<nat>, fin: seq<nat>)

  /** What a shard does next inside an event. */
  datatype Action =
    | Skip       // a position off the grid
    | Lock       // test_and_set succeeds
    | Load       // read the hidden cell
    | Store      // write it back
    | Unlock     // clear
    | NextLayer  // the stage's first layer is done
    | Boundary   // fetch_add on the tdrop byte: go on or drop
    | Head       // decode the head's row, under its lock

  datatype Step =
    | Issue                    // producer: the next job goes to its owner's queue
    | Begin(k: nat)            // shard: pop a job
    | Act(k: nat, a: Action)   // shard: go on with it

  function Put<K(==), V>(f: K -> V, key: K, x: V): K -> V {
    (k: K) => if k == key then x else f(k)
  }

  function LayerOf(c: Config, l: nat): Layer {
    c.net.layers(l)
  }

  function Grid(c: Config, l: nat): Size {
    StageGrid(c.net.grid, l / 2)
  }

  predicate Sound(c: Config) {
    c.n >= 1 && c.net.grid.w >= 1
  }

  function Owner(c: Config, j: nat): nat
    requires Sound(c) && j < |c.jobs|
  {
    ShardOfCol(c.jobs[j].at.x, c.net.grid.w, c.n)
  }

  /** Jobs below i in the queue of shard k. */
  function Queue(c: Config, k: nat, i: nat): seq<nat>
    requires Sound(c) && i <= |c.jobs|
  {
    if i == 0 then [] else if Owner(c, i - 1) == k then Queue(c, k, i - 1) + [i - 1] else Queue(c, k, i - 1)
  }

  predicate Sane(c: Config, s: Sys) {
    && Sound(c) && |s.shards| == c.n && s.issued <= |c.jobs| && |s.entered| == |s.fin| == |c.jobs|
    && (forall k :: 0 <= k < c.n && s.shards[k].task.Some? ==> TaskSane(c, s.shards[k].task.value))
  }

  predicate TaskSane(c: Config, t: Task) {
    && t.job < |c.jobs| && t.layer <= 7 && t.left <= Positions(LayerOf(c, t.layer))
    && (!t.sec.Outside? ==> t.left > 0)
  }

  /** The cell of the position in hand. */
  function Here(c: Config, t: Task): Site
    requires t.left > 0
  {
    Site(t.layer, Spot(LayerOf(c, t.layer), t.at, t.left - 1))
  }

  predicate OnGrid(c: Config, x: Site) {
    InGrid(Grid(c, x.layer), x.cell)
  }

  predicate CanAct(c: Config, s: Sys, t: Task, a: Action)
    requires TaskSane(c, t)
  {
    match a
    case Skip => t.sec.Outside? && t.left > 0 && !OnGrid(c, Here(c, t))
    case Lock => t.sec.Outside? && t.left > 0 && OnGrid(c, Here(c, t)) && s.locks(Here(c, t)).None?
    case Load => t.sec.Locked?
    case Store => t.sec.Loaded?
    case Unlock => t.sec.Stored?
    case NextLayer => t.sec.Outside? && t.left == 0 && t.layer % 2 == 0
    case Boundary => t.sec.Outside? && t.left == 0 && t.layer % 2 == 1 && t.layer < 7
    case Head => t.sec.Outside? && t.left == 0 && t.layer == 7
  }

  /** The queue of job j's owner is not full. */
  predicate Room(c: Config, s: Sys, j: nat)
    requires Sane(c, s) && j < |c.jobs|
  {
    OwnerBound(c, j);
    |Queue(c, Owner(c, j), j)| < s.shards[Owner(c, j)].taken + c.cap
  }

  lemma OwnerBound(c: Config, j: nat)
    requires Sound(c) && j < |c.jobs|
    ensures Owner(c, j) < c.n
  {
  }

  predicate Enabled(c: Config, s: Sys, st: Step)
    requires Sane(c, s)
  {
    match st
    case Issue => s.issued < |c.jobs| && Room(c, s, s.issued)
    case Begin(k) => k < c.n && s.shards[k].task.None? && s.shards[k].taken < |Queue(c, k, s.issued)|
    case Act(k, a) => k < c.n && s.shards[k].task.Some? && CanAct(c, s, s.shards[k].task.value, a)
  }

  function Fresh(c: Config, j: nat, l: nat, at: Cell, f: Feat): Task {
    Task(j, l, at, f, Positions(LayerOf(c, l)), c.net.zero, Outside)
  }

  function Result(c: Config, t: Task): Feat {
    LayerOf(c, t.layer).finish(t.feat, t.acc)
  }

  /** The byte that a task at the end of stage t.layer / 2 counts on. */
  function Byte(t: Task): Site {
    Site(t.layer / 2, Pool(t.at))
  }

  /** The work in hand after the action; it ends when the event is dropped or decoded. */
  function After(c: Config, s: Sys, t: Task, a: Action): Option<Task>
    requires TaskSane(c, t) && CanAct(c, s, t, a)
  {
    match a
    case Skip => Some(t.(left := t.left - 1))
    case Lock => Some(t.(sec := Locked))
    case Load => Some(t.(sec := Loaded(s.hidden(Here(c, t)))))
    case Store =>
      var h := LayerOf(c, t.layer).lru(t.left - 1, t.feat, t.sec.h);
      Some(t.(sec := Stored, acc := c.net.add(t.acc, LayerOf(c, t.layer).emit(t.left - 1, t.feat, h))))
    case Unlock => Some(t.(sec := Outside, left := t.left - 1))
    case NextLayer => Some(Fresh(c, t.job, t.layer + 1, t.at, Result(c, t)))
    case Boundary =>
      if Passes(c.net.window, s.drop(Byte(t))) then Some(Fresh(c, t.job, t.layer + 1, Pool(t.at), Result(c, t)))
        else None
    case Head => None
  }

  /** Shared memory and records after the action. */
  function Memory(c: Config, s: Sys, k: nat, t: Task, a: Action): Sys
    requires Sane(c, s) && TaskSane(c, t) && CanAct(c, s, t, a)
  {
    match a
    case Skip => s.(low := Put<Visit, nat>(s.low, Visit(t.job, t.layer), t.left - 1))
    case Lock => s.(locks := Put(s.locks, Here(c, t), Some(k)))
    case Store =>
      var x := Here(c, t);
      s.(hidden := Put(s.hidden, x, LayerOf(c, t.layer).lru(t.left - 1, t.feat, t.sec.h)),
         log := Put(s.log, x, s.log(x) + [Update(t.job, t.left - 1, t.feat)]),
         low := Put<Visit, nat>(s.low, Visit(t.job, t.layer), t.left - 1))
    case Unlock => s.(locks := Put(s.locks, Here(c, t), None))
    case Boundary =>
      var b := Byte(t);
      s.(drop := Put<Site, nat>(s.drop, b, (s.drop(b) + 1) % 256), fin := s.fin[t.job := s.fin[t.job] + 1],
         entered := if Passes(c.net.window, s.drop(b)) then s.entered[t.job := s.entered[t.job] + 1] else s.entered)
    case Head =>
      s.(pred := Decode(c.net, s.pred, t.at, Result(c, t)), fin := s.fin[t.job := s.fin[t.job] + 1])
    case _ => s
  }

  function Apply(c: Config, s: Sys, st: Step): Sys
    requires Sane(c, s) && Enabled(c, s, st)
  {
    match st
    case Issue => s.(issued := s.issued + 1)
    case Begin(k) =>
      QueueBound(c, k, s.issued);
      var j := Queue(c, k, s.issued)[s.shards[k].taken];
      s.(shards := s.shards[k := Shard(s.shards[k].taken + 1, Some(Fresh(c, j, 0, c.jobs[j].at, c.jobs[j].feat)))],
         entered := s.entered[j := 1])
    case Act(k, a) =>
      var t := s.shards[k].task.value;
      var s' := Memory(c, s, k, t, a);
      s'.(shards := s.shards[k := s.shards[k].(task := After(c, s, t, a))])
  }

  lemma {:induction false} QueueBound(c: Config, k: nat, i: nat)
    requires Sound(c) && i <= |c.jobs|
    ensures forall t :: 0 <= t < |Queue(c, k, i)| ==> Queue(c, k, i)[t] < i && Owner(c, Queue(c, k, i)[t]) == k
  {
    if i == 0 {
    } else {
      QueueBound(c, k, i - 1);
    }
  }
}
