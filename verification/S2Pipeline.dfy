/** The staged scheme: a producer and four stage threads in a row, joined by bounded rings, on
    one shared pipeline of which each thread uses its own stage. */
module S2Pipeline {
  import opened Network
  import opened Sequential
  import opened Commands
  import opened Rings
  import opened Chain

  /** A message and the command it stems from. */
  datatype Msg = Msg(id: nat, item: Item)

  datatype Config = Config(net: Net, cap: nat, program: seq<Cmd>, init: State)

  /** A stage thread: its input ring, the message it is about to push, how many commands lie behind
      it, and the events it consumed (dropped or emitted; one latency sample each). */
  datatype Stage = Stage(input: Ring<Msg>, hold: Option<Msg>, past: nat, consumed: seq<nat>)

  datatype Sys = Sys(pc: nat, mem: State, stages: seq<Stage>, markerDone: nat)

  datatype Step =
    | PushItem        // producer: push_event or push_marker
    | PassWait        // producer: wait_for_marker returns
    | Take(s: nat)    // stage s: pop a message and process it
    | Give(s: nat)    // stage s: push it on

  predicate Sane(s: Sys) {
    |s.stages| == 4 && forall k :: 0 <= k < 4 ==>
      (forall t :: 0 <= t < |s.stages[k].input.live| ==> Fits(k, s.stages[k].input.live[t].item))
  }

  predicate Enabled(c: Config, s: Sys, st: Step)
    requires Sane(s)
  {
    match st
    case PushItem => s.pc < |c.program| && !c.program[s.pc].Wait? && |s.stages[0].input.live| < c.cap
    case PassWait => s.pc < |c.program| && c.program[s.pc].Wait? && s.markerDone >= SeqNo(c.program, s.pc)
    case Take(k) => k <= 3 && s.stages[k].hold.None? && s.stages[k].input.live != []
    case Give(k) => k <= 2 && s.stages[k].hold.Some? && |s.stages[k + 1].input.live| < c.cap
  }

  /** What a command puts into the first ring. */
  function Source(program: seq<Cmd>, j: nat): Option<Item>
    requires j < |program|
  {
    match program[j]
    case Push(e) => Some(Raw(e))
    case Mark => Some(Marker(SeqNo(program, j)))
    case Wait => None
  }

  function Add(g: Stage, m: Msg): Stage {
    g.(input := g.input.Push(m))
  }

  /** A stage thread after it has taken and processed its oldest message. */
  function Took(n: Net, k: nat, g: Stage, mem: State): Stage
    requires g.input.live != []
  {
    var m := g.input.live[0];
    var out := Handle(n, k, mem, m.item).1;
    Stage(g.input.Pop(), if out.Some? then Some(Msg(m.id, out.value)) else None, m.id + 1,
          if out.None? && !m.item.Marker? then g.consumed + [m.id] else g.consumed)
  }

  function DoTake(c: Config, s: Sys, k: nat): Sys
    requires Sane(s) && k <= 3 && s.stages[k].input.live != []
  {
    var g := s.stages[k];
    var x := g.input.live[0].item;
    s.(mem := Handle(c.net, k, s.mem, x).0, stages := s.stages[k := Took(c.net, k, g, s.mem)],
       markerDone := if k == 3 && x.Marker? then x.seqNo else s.markerDone)
  }

  function Apply(c: Config, s: Sys, st: Step): Sys
    requires Sane(s) && Enabled(c, s, st)
  {
    match st
    case PushItem =>
      s.(pc := s.pc + 1, stages := s.stages[0 := Add(s.stages[0], Msg(s.pc, Source(c.program, s.pc).value))])
    case PassWait => s.(pc := s.pc + 1)
    case Take(k) => DoTake(c, s, k)
    case Give(k) =>
      s.(stages := s.stages[k := s.stages[k].(hold := None)][k + 1 := Add(s.stages[k + 1], s.stages[k].hold.value)])
  }

  // ---- what the sequential run says about each stage ----

  /** The sequential state before command j. */
  function Ref(c: Config, j: nat): State
    requires j <= |c.program|
  {
    Run(c.net, c.init, Pushed(c.program, j))
  }

  /** Command j as it reaches stage s. */
  function Arrive(c: Config, s: nat, j: nat): Option<Item>
    requires j < |c.program|
  {
    var x := Source(c.program, j);
    if x.None? then None else Reach(c.net, 0, Ref(c, j), x.value, s)
  }

  /** Stage s's messages of the commands a .. b. */
  function Arrivals(c: Config, s: nat, a: nat, b: nat): seq<Msg>
    requires b <= |c.program|
  {
    if a >= b then []
    else if Arrive(c, s, b - 1).Some? then Arrivals(c, s, a, b - 1) + [Msg(b - 1, Arrive(c, s, b - 1).value)]
    else Arrivals(c, s, a, b - 1)
  }

  /** Event j is consumed by stage s: it reaches it and goes no further. */
  predicate Dies(c: Config, s: nat, j: nat)
    requires j < |c.program|
  {
    Arrive(c, s, j).Some? && !Arrive(c, s, j).value.Marker? && (s < 3 ==> Arrive(c, s + 1, j).None?)
  }

  function Deaths(c: Config, s: nat, b: nat): seq<nat>
    requires b <= |c.program|
  {
    if b == 0 then [] else if Dies(c, s, b - 1) then Deaths(c, s, b - 1) + [b - 1] else Deaths(c, s, b - 1)
  }

  function LastMark(program: seq<Cmd>, b: nat): nat
    requires b <= |program|
  {
    if b == 0 then 0 else if program[b - 1].Mark? then SeqNo(program, b - 1) else LastMark(program, b - 1)
  }

  lemma {:induction false} MarkerReaches(n: Net, s: nat, st: State, q: nat, t: nat)
    requires s <= t <= 3
    ensures Reach(n, s, st, Marker(q), t) == Some(Marker(q))
    decreases t - s
  {
    if s < t { MarkerReaches(n, s + 1, st, q, t); }
  }

  /** The message of command j at stage s fits it; markers arrive everywhere; nothing arrives
      further on than where it was dropped; and this is what stage s makes of it. */
  lemma ArriveFacts(c: Config, s: nat, j: nat)
    requires s <= 3 && j < |c.program|
    ensures Arrive(c, s, j).Some? ==> Fits(s, Arrive(c, s, j).value)
    ensures c.program[j].Mark? ==> Arrive(c, s, j) == Some(Marker(SeqNo(c.program, j)))
    ensures Arrive(c, s, j).Some? && Arrive(c, s, j).value.Marker? ==> c.program[j].Mark?
    ensures s < 3 ==>
      Arrive(c, s + 1, j) == (if Arrive(c, s, j).None? then None
        else Handle(c.net, s, Ref(c, j), Arrive(c, s, j).value).1)
    ensures SamePart(s, Ref(c, j + 1), Effect(c.net, s, Ref(c, j), Arrive(c, s, j)))
  {
    hide Run, Handle;
    match c.program[j]
    case Wait =>
    case Mark =>
      var q := SeqNo(c.program, j);
      MarkerReaches(c.net, 0, Ref(c, j), q, s);
      if s < 3 { MarkerReaches(c.net, 0, Ref(c, j), q, s + 1); }
      MarkerKeeps(c.net, s, Ref(c, j), q);
    case Push(e) =>
      RefPush(c, j, e);
      ProcessReach(c.net, Ref(c, j), e, s);
      ReachLocal(c.net, 0, Ref(c, j), Ref(c, j), Raw(e), s);
      NoMarker(c.net, 0, Ref(c, j), Raw(e), s);
      if s < 3 { ReachNext(c.net, 0, Ref(c, j), Raw(e), s); }
  }

  lemma MarkerKeeps(n: Net, s: nat, st: State, q: nat)
    ensures Handle(n, s, st, Marker(q)) == (st, if s >= 3 then None else Some(Marker(q)))
  {
  }

  lemma RefPush(c: Config, j: nat, e: Event)
    requires j < |c.program| && c.program[j] == Push(e)
    ensures Ref(c, j + 1) == ProcessOne(c.net, Ref(c, j), e)
  {
    var es := Pushed(c.program, j);
    assert Pushed(c.program, j + 1) == es + [e] && (es + [e])[..|es|] == es;
  }

  lemma {:induction false} NoMarker(n: Net, s: nat, st: State, x: Item, t: nat)
    requires s <= t && !x.Marker?
    ensures Reach(n, s, st, x, t).Some? ==> !Reach(n, s, st, x, t).value.Marker?
    decreases t - s
  {
    if s < t {
      var y := Handle(n, s, st, x).1;
      if y.Some? { NoMarker(n, s + 1, st, y.value, t); }
    }
  }

  /** Commands that do not reach stage s leave its memory, its markers and its account alone. */
  lemma {:induction false} NothingArrives(c: Config, s: nat, a: nat, b: nat)
    requires s <= 3 && a <= b <= |c.program| && Arrivals(c, s, a, b) == []
    ensures SamePart(s, Ref(c, a), Ref(c, b)) && Deaths(c, s, a) == Deaths(c, s, b)
    ensures LastMark(c.program, a) == LastMark(c.program, b)
    ensures s < 3 ==> Arrivals(c, s + 1, a, b) == []
  {
    hide Ref, Arrive;
    if a < b {
      ArriveFacts(c, s, b - 1);
      NothingArrives(c, s, a, b - 1);
    }
  }

  /** The first message of a stage. */
  lemma {:induction false} FirstArrival(c: Config, s: nat, a: nat, b: nat)
    requires s <= 3 && a <= b <= |c.program| && Arrivals(c, s, a, b) != []
    ensures var m := Arrivals(c, s, a, b)[0];
      && a <= m.id < b && Arrive(c, s, m.id) == Some(m.item)
      && Arrivals(c, s, a, m.id) == [] && Arrivals(c, s, m.id + 1, b) == Arrivals(c, s, a, b)[1..]
  {
    hide Arrive;
    if Arrivals(c, s, a, b - 1) != [] {
      FirstArrival(c, s, a, b - 1);
    } else {
      assert Arrivals(c, s, b, b) == [];
    }
  }

  lemma {:induction false} ArrivalsJoin(c: Config, s: nat, a: nat, b: nat, d: nat)
    requires a <= b <= d <= |c.program|
    ensures Arrivals(c, s, a, d) == Arrivals(c, s, a, b) + Arrivals(c, s, b, d)
  {
    hide Arrive;
    if b < d { ArrivalsJoin(c, s, a, b, d - 1); }
  }

  // ---- the invariant ----

  /** How far the commands in front of stage k have come. */
  function Upto(s: Sys, k: nat): nat
    requires |s.stages| == 4 && k <= 3
  {
    if k == 0 then s.pc else s.stages[k - 1].past
  }

  function Held(s: Sys, k: nat): seq<Msg>
    requires |s.stages| == 4 && k <= 3
  {
    if k > 0 && s.stages[k - 1].hold.Some? then [s.stages[k - 1].hold.value] else []
  }

  ghost predicate Part(c: Config, k: nat, g: Stage, mem: State, held: seq<Msg>, upto: nat)
    requires k <= 3
  {
    && g.past <= upto <= |c.program|
    && SamePart(k, mem, Ref(c, g.past))
    && g.input.live + held == Arrivals(c, k, g.past, upto)
    && g.consumed == Deaths(c, k, g.past)
  }

  ghost predicate StageOk(c: Config, s: Sys, k: nat)
    requires |s.stages| == 4 && k <= 3
  {
    Part(c, k, s.stages[k], s.mem, Held(s, k), Upto(s, k))
  }

  ghost predicate Inv(c: Config, s: Sys) {
    && Sane(s) && s.pc <= |c.program| && s.stages[3].hold.None?
    && (forall k: nat :: k <= 3 ==> StageOk(c, s, k))
    && s.stages[3].past <= |c.program| && s.markerDone == LastMark(c.program, s.stages[3].past)
  }

  lemma StepPush(c: Config, s: Sys)
    requires Inv(c, s) && Enabled(c, s, PushItem)
    ensures Inv(c, Apply(c, s, PushItem))
  {
    var s', x := Apply(c, s, PushItem), Source(c.program, s.pc).value;
    assert Arrive(c, 0, s.pc) == Some(x);
    assert Arrivals(c, 0, s.stages[0].past, s.pc + 1) == Arrivals(c, 0, s.stages[0].past, s.pc) + [Msg(s.pc, x)] by {
      assert StageOk(c, s, 0);
    }
    hide Arrivals, Arrive, Ref, Deaths, SamePart;
    assert StageOk(c, s, 0);
    forall k: nat | k <= 3 ensures StageOk(c, s', k) { assert StageOk(c, s, k); }
  }

  lemma StepWait(c: Config, s: Sys)
    requires Inv(c, s) && Enabled(c, s, PassWait)
    ensures Inv(c, Apply(c, s, PassWait))
  {
    var s' := Apply(c, s, PassWait);
    assert Arrive(c, 0, s.pc) == None;
    assert Arrivals(c, 0, s.stages[0].past, s.pc + 1) == Arrivals(c, 0, s.stages[0].past, s.pc) by {
      assert StageOk(c, s, 0);
    }
    hide Arrivals, Arrive, Ref, Deaths, SamePart;
    forall k: nat | k <= 3 ensures StageOk(c, s', k) { assert StageOk(c, s, k); }
  }

  lemma StepGive(c: Config, s: Sys, k: nat)
    requires Inv(c, s) && Enabled(c, s, Give(k))
    ensures Inv(c, Apply(c, s, Give(k)))
  {
    var s' := Apply(c, s, Give(k));
    hide Arrivals, Arrive, Ref, Deaths, SamePart;
    HeldFits(c, s, k);
    forall t: nat | t <= 3 ensures StageOk(c, s', t) { assert StageOk(c, s, t); }
  }

  lemma HeldFits(c: Config, s: Sys, k: nat)
    requires Inv(c, s) && k <= 2 && s.stages[k].hold.Some?
    ensures Fits(k + 1, s.stages[k].hold.value.item)
  {
    assert StageOk(c, s, k + 1);
    var g := s.stages[k + 1];
    var all := Arrivals(c, k + 1, g.past, Upto(s, k + 1));
    assert all[|all| - 1] == s.stages[k].hold.value;
    ArrivalFits(c, k + 1, g.past, Upto(s, k + 1), |all| - 1);
  }

  lemma {:induction false} ArrivalFits(c: Config, s: nat, a: nat, b: nat, t: nat)
    requires s <= 3 && b <= |c.program| && t < |Arrivals(c, s, a, b)|
    ensures Fits(s, Arrivals(c, s, a, b)[t].item)
  {
    ArriveFacts(c, s, b - 1);
    if t < |Arrivals(c, s, a, b - 1)| { ArrivalFits(c, s, a, b - 1, t); }
  }

  /** The stage that takes a message: its memory moves on as the sequential run's does. */
  lemma TakeOwn(c: Config, k: nat, g: Stage, mem: State, held: seq<Msg>, upto: nat)
    requires k <= 3 && Part(c, k, g, mem, held, upto) && g.input.live != []
    ensures var m := g.input.live[0];
      && g.past <= m.id < upto <= |c.program|
      && Arrive(c, k, m.id) == Some(m.item) && Fits(k, m.item)
      && SamePart(k, mem, Ref(c, m.id)) && g.consumed == Deaths(c, k, m.id)
      && LastMark(c.program, g.past) == LastMark(c.program, m.id)
      && g.input.live[1..] + held == Arrivals(c, k, m.id + 1, upto)
      && (k < 3 ==> Arrivals(c, k + 1, g.past, m.id) == [])
  {
    hide Arrive, Ref, Handle, Deaths;
    FirstArrival(c, k, g.past, upto);
    var m := g.input.live[0];
    assert Arrivals(c, k, g.past, upto)[0] == m;
    NothingArrives(c, k, g.past, m.id);
    ArriveFacts(c, k, m.id);
  }

  lemma SameTrans(s: nat, a: State, b: State, d: State)
    requires SamePart(s, a, b) && SamePart(s, d, b)
    ensures SamePart(s, a, d)
  {
  }

  lemma TakePart(c: Config, k: nat, g: Stage, mem: State, held: seq<Msg>, upto: nat)
    requires k <= 3 && Part(c, k, g, mem, held, upto) && g.input.live != []
    ensures var m := g.input.live[0];
      && Fits(k, m.item) && m.id < |c.program|
      && Part(c, k, Took(c.net, k, g, mem), Handle(c.net, k, mem, m.item).0, held, upto)
      && LastMark(c.program, m.id + 1) == if m.item.Marker? then m.item.seqNo else LastMark(c.program, g.past)
  {
    hide Ref, Handle, Arrive, Arrivals, LastMark, Deaths, SamePart, Fits;
    TakeOwn(c, k, g, mem, held, upto);
    var m := g.input.live[0];
    ArriveFacts(c, k, m.id);
    HandleLocal(c.net, k, mem, Ref(c, m.id), m.item);
    TakeAccount(c, k, m.id, m.item);
    SameTrans(k, Handle(c.net, k, mem, m.item).0, Handle(c.net, k, Ref(c, m.id), m.item).0, Ref(c, m.id + 1));
  }

  /** The next stage: what it is owed grows by what is now held for it. */
  lemma TakeNext(c: Config, k: nat, g: Stage, mem: State, held: seq<Msg>, upto: nat, h: Stage)
    requires k <= 2 && Part(c, k, g, mem, held, upto) && g.input.live != []
    requires Part(c, k + 1, h, mem, [], g.past)
    ensures var m, t := g.input.live[0], Took(c.net, k, g, mem);
      Part(c, k + 1, h, Handle(c.net, k, mem, m.item).0, if t.hold.Some? then [t.hold.value] else [], m.id + 1)
  {
    hide Ref, Handle, Deaths, Arrive, LastMark, Fits;
    TakeOwn(c, k, g, mem, held, upto);
    var m := g.input.live[0];
    ArriveFacts(c, k, m.id);
    HandleLocal(c.net, k, mem, Ref(c, m.id), m.item);
    HandleFrame(c.net, k, mem, m.item, k + 1);
    ArrivalsJoin(c, k + 1, h.past, g.past, m.id);
  }

  lemma TakeOther(c: Config, k: nat, mem: State, x: Item, t: nat, h: Stage, held: seq<Msg>, upto: nat)
    requires k <= 3 && t <= 3 && t != k && Fits(k, x) && Part(c, t, h, mem, held, upto)
    ensures Part(c, t, h, Handle(c.net, k, mem, x).0, held, upto)
  {
    HandleFrame(c.net, k, mem, x, t);
    hide Ref, Handle, Deaths, Arrivals;
  }

  lemma LastHolds(n: Net, st: State, x: Item)
    requires Fits(3, x)
    ensures Handle(n, 3, st, x).1.None?
  {
  }

  lemma TakeStage(c: Config, s: Sys, k: nat, t: nat)
    requires Inv(c, s) && Enabled(c, s, Take(k)) && t <= 3
    ensures |DoTake(c, s, k).stages| == 4 && StageOk(c, DoTake(c, s, k), t)
  {
    assert StageOk(c, s, k) && StageOk(c, s, t);
    var g, m := s.stages[k], s.stages[k].input.live[0];
    var s', g' := DoTake(c, s, k), Took(c.net, k, g, s.mem);
    var next := if g'.hold.Some? then [g'.hold.value] else [];
    assert Fits(k, m.item);
    assert s'.mem == Handle(c.net, k, s.mem, m.item).0 && s'.stages[t] == if t == k then g' else s.stages[t];
    assert Upto(s', t) == if t == k + 1 then m.id + 1 else Upto(s, t);
    assert Held(s', t) == if t == k + 1 then next else Held(s, t);
    assert t == k + 1 ==> Held(s, t) == [] && Upto(s, t) == g.past;
    hide Inv, Enabled, Sane, Part, Handle, Fits, Upto, Held, DoTake, Took;
    if t == k {
      TakePart(c, k, g, s.mem, Held(s, k), Upto(s, k));
    } else if t == k + 1 {
      TakeNext(c, k, g, s.mem, Held(s, k), Upto(s, k), s.stages[t]);
    } else {
      TakeOther(c, k, s.mem, m.item, t, s.stages[t], Held(s, t), Upto(s, t));
    }
  }

  lemma StepTake(c: Config, s: Sys, k: nat)
    requires Inv(c, s) && Enabled(c, s, Take(k))
    ensures Inv(c, Apply(c, s, Take(k)))
  {
    forall t: nat | t <= 3
      ensures |DoTake(c, s, k).stages| == 4 && StageOk(c, DoTake(c, s, k), t)
    {
      TakeStage(c, s, k, t);
    }
    assert StageOk(c, s, k);
    var g, m := s.stages[k], s.stages[k].input.live[0];
    TakePart(c, k, g, s.mem, Held(s, k), Upto(s, k));
    if k == 3 { LastHolds(c.net, s.mem, m.item); }
    hide StageOk, Part, Handle, LastMark;
  }

  /** Markers and consumed events one command on. */
  lemma TakeAccount(c: Config, k: nat, j: nat, x: Item)
    requires k <= 3 && j < |c.program| && Arrive(c, k, j) == Some(x)
    ensures var out := Handle(c.net, k, Ref(c, j), x).1;
      Deaths(c, k, j + 1) == if out.None? && !x.Marker? then Deaths(c, k, j) + [j] else Deaths(c, k, j)
    ensures LastMark(c.program, j + 1) == if x.Marker? then x.seqNo else LastMark(c.program, j)
  {
    ArriveFacts(c, k, j);
    hide Ref, Arrive;
  }
}
