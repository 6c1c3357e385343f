/** The staged scheme is bit-identical to the sequential loop at markers, and does not get stuck. */
module S2Refinement {
  import opened Sequential
  import opened Commands
  import opened Rings
  import opened Chain
  import opened S2Pipeline

  function Start(c: Config): Sys {
    Sys(0, c.init, seq(4, _ => Stage(Ring(0, []), None, 0, [])), 0)
  }

  /** The steps, each enabled where it is taken, lead from s to t. */
  ghost predicate Leads(c: Config, s: Sys, steps: seq<Step>, t: Sys)
    decreases |steps|
  {
    if steps == [] then s == t
    else Sane(s) && Enabled(c, s, steps[0]) && Leads(c, Apply(c, s, steps[0]), steps[1..], t)
  }

  lemma StartInv(c: Config)
    ensures Inv(c, Start(c))
  {
    forall k: nat | k <= 3 ensures StageOk(c, Start(c), k) {}
  }

  lemma StepInv(c: Config, s: Sys, st: Step)
    requires Inv(c, s) && Enabled(c, s, st)
    ensures Inv(c, Apply(c, s, st))
  {
    hide Inv, Apply;
    match st
    case PushItem => StepPush(c, s);
    case PassWait => StepWait(c, s);
    case Take(k) => StepTake(c, s, k);
    case Give(k) => StepGive(c, s, k);
  }

  lemma {:induction false} RunInv(c: Config, s: Sys, steps: seq<Step>, t: Sys)
    requires Inv(c, s) && Leads(c, s, steps, t)
    ensures Inv(c, t)
    decreases |steps|
  {
    hide Inv, Enabled, Apply;
    if steps == [] {
    } else {
      StepInv(c, s, steps[0]);
      RunInv(c, Apply(c, s, steps[0]), steps[1..], t);
    }
  }

  lemma {:induction false} MarkCovers(program: seq<Cmd>, b: nat, i: nat)
    requires b <= i <= |program| && LastMark(program, b) >= SeqNo(program, i)
    ensures Pushed(program, b) == Pushed(program, i)
  {
    if b == 0 {
      SeqNoMonotone(program, 0, i);
    } else if program[b - 1].Mark? {
      SeqNoMonotone(program, b - 1, i);
      SeqNoMonotone(program, b, i);
    } else {
      MarkCovers(program, b - 1, i);
      PushedBetween(program, b - 1, b, i);
    }
  }

  /** No stage is ahead of the one before it. */
  lemma InOrder(c: Config, s: Sys)
    requires Inv(c, s)
    ensures s.stages[3].past <= s.stages[2].past <= s.stages[1].past <= s.stages[0].past <= s.pc <= |c.program|
  {
    assert StageOk(c, s, 0) && StageOk(c, s, 1) && StageOk(c, s, 2) && StageOk(c, s, 3);
  }

  /** Commands a .. b push nothing when they push nothing in all. */
  lemma PushedBetween(program: seq<Cmd>, a: nat, x: nat, b: nat)
    requires a <= x <= b <= |program| && Pushed(program, a) == Pushed(program, b)
    ensures Pushed(program, x) == Pushed(program, a)
  {
    PushedGrows(program, a, x);
    PushedGrows(program, x, b);
  }

  lemma {:induction false} PushedGrows(program: seq<Cmd>, a: nat, b: nat)
    requires a <= b <= |program|
    ensures Pushed(program, a) <= Pushed(program, b)
  {
    if a < b { PushedGrows(program, a, b - 1); }
  }

  /** Bit-identity at markers: in every run, when the last marker stage 3 reported is not older than
      the events pushed so far, the shared pipeline is in the very state of the sequential loop over
      these events. */
  lemma BitIdentical(c: Config, steps: seq<Step>, s: Sys)
    requires Leads(c, Start(c), steps, s)
    requires s.pc <= |c.program| && s.markerDone >= SeqNo(c.program, s.pc)
    ensures s.mem == Run(c.net, c.init, Pushed(c.program, s.pc))
  {
    StartInv(c);
    RunInv(c, Start(c), steps, s);
    Settled(c, s);
  }

  lemma Settled(c: Config, s: Sys)
    requires Inv(c, s) && s.markerDone >= SeqNo(c.program, s.pc)
    ensures s.mem == Ref(c, s.pc)
  {
    InOrder(c, s);
    MarkCovers(c.program, s.stages[3].past, s.pc);
    forall k: nat | k <= 3 ensures SamePart(k, s.mem, Ref(c, s.pc)) {
      PushedBetween(c.program, s.stages[3].past, s.stages[k].past, s.pc);
      assert StageOk(c, s, k);
    }
    AllParts(s.mem, Ref(c, s.pc));
  }

  lemma AllParts(a: State, b: State)
    requires forall k: nat :: k <= 3 ==> SamePart(k, a, b)
    ensures a == b
  {
    assert SamePart(0, a, b) && SamePart(1, a, b) && SamePart(2, a, b) && SamePart(3, a, b);
  }

  // ---- every event is consumed by exactly one stage ----

  lemma {:induction false} DeathsMember(c: Config, s: nat, b: nat, j: nat)
    requires b <= |c.program|
    ensures j in Deaths(c, s, b) <==> j < b && Dies(c, s, j)
  {
    hide Dies;
    if b == 0 {
    } else {
      DeathsMember(c, s, b - 1, j);
    }
  }

  predicate Ascending(ds: seq<nat>, b: nat) {
    && (forall t, u :: 0 <= t < u < |ds| ==> ds[t] < ds[u])
    && (forall t :: 0 <= t < |ds| ==> ds[t] < b)
  }

  lemma {:induction false} DeathsSorted(c: Config, s: nat, b: nat)
    requires b <= |c.program|
    ensures Ascending(Deaths(c, s, b), b)
  {
    hide Dies;
    if b == 0 {
    } else {
      DeathsSorted(c, s, b - 1);
      AscendingAppend(Deaths(c, s, b - 1), b - 1);
    }
  }

  lemma AscendingAppend(ds: seq<nat>, b: nat)
    requires Ascending(ds, b)
    ensures Ascending(ds, b + 1) && Ascending(ds + [b], b + 1)
  {
  }

  lemma PassedOn(c: Config, s: nat, j: nat)
    requires s <= 3 && j < |c.program| && c.program[j].Push?
    ensures Arrive(c, s, j).Some? ==> !Arrive(c, s, j).value.Marker?
    ensures s < 3 && Arrive(c, s + 1, j).Some? ==> Arrive(c, s, j).Some?
    ensures Dies(c, s, j) <==> Arrive(c, s, j).Some? && (s < 3 ==> Arrive(c, s + 1, j).None?)
  {
    hide Ref, Handle, Arrive;
    ArriveFacts(c, s, j);
  }

  lemma EntersFirst(c: Config, j: nat)
    requires j < |c.program| && c.program[j].Push?
    ensures Arrive(c, 0, j).Some?
  {
    hide Ref;
  }

  /** Past the stage where an event dies nothing arrives, before it every stage passed it on. */
  lemma DiesOnce(c: Config, j: nat)
    requires j < |c.program| && c.program[j].Push?
    ensures exists s: nat :: s <= 3 && Dies(c, s, j) && forall t: nat :: t <= 3 && Dies(c, t, j) ==> t == s
  {
    hide *;
    EntersFirst(c, j);
    PassedOn(c, 0, j);
    PassedOn(c, 1, j);
    PassedOn(c, 2, j);
    PassedOn(c, 3, j);
    var s: nat := if Arrive(c, 1, j).None? then 0 else if Arrive(c, 2, j).None? then 1
      else if Arrive(c, 3, j).None? then 2 else 3;
    forall t: nat | t <= 3 && Dies(c, t, j) ensures t == s { assert t == 0 || t == 1 || t == 2 || t == 3; }
    assert Dies(c, s, j);
  }

  /** At the same point every pushed event is in exactly one stage's account, once. */
  lemma ConsumedOnce(c: Config, steps: seq<Step>, s: Sys, j: nat)
    requires Leads(c, Start(c), steps, s)
    requires s.pc <= |c.program| && s.markerDone >= SeqNo(c.program, s.pc)
    requires j < s.pc && c.program[j].Push?
    ensures |s.stages| == 4
    ensures exists k: nat ::
      k <= 3 && j in s.stages[k].consumed && forall t: nat :: t <= 3 && j in s.stages[t].consumed ==> t == k
    ensures forall k: nat :: k <= 3 ==> Ascending(s.stages[k].consumed, |c.program|)
  {
    StartInv(c);
    RunInv(c, Start(c), steps, s);
    InOrder(c, s);
    MarkCovers(c.program, s.stages[3].past, s.pc);
    PushedBefore(c.program, s.stages[3].past, s.pc, j);
    DiesOnce(c, j);
    hide Dies, Leads, Ref, Arrive;
    forall k: nat | k <= 3
      ensures j in s.stages[k].consumed <==> Dies(c, k, j)
      ensures Ascending(s.stages[k].consumed, |c.program|)
    {
      assert StageOk(c, s, k);
      DeathsMember(c, k, s.stages[k].past, j);
      DeathsSorted(c, k, s.stages[k].past);
    }
    var k: nat :| k <= 3 && Dies(c, k, j) && forall t: nat :: t <= 3 && Dies(c, t, j) ==> t == k;
    assert j in s.stages[k].consumed;
  }

  lemma PushedBefore(program: seq<Cmd>, b: nat, i: nat, j: nat)
    requires b <= i <= |program| && Pushed(program, b) == Pushed(program, i) && j < i && program[j].Push?
    ensures j < b
  {
    if b <= j {
      PushedGrows(program, b, j);
      PushedGrows(program, j + 1, i);
      assert |Pushed(program, j + 1)| == |Pushed(program, j)| + 1;
    }
  }

  // ---- progress ----

  ghost predicate Stuck(c: Config, s: Sys)
    requires Sane(s)
  {
    forall st: Step :: !Enabled(c, s, st)
  }

  /** No deadlock: when no thread can take a step, the program has been run to its end, all rings
      are empty and the memory is that of the sequential loop over the whole program. */
  lemma StuckIsFinished(c: Config, steps: seq<Step>, s: Sys)
    requires c.cap >= 1 && WaitsMarked(c.program) && Leads(c, Start(c), steps, s)
    ensures Sane(s)
    ensures Stuck(c, s) ==>
      && s.pc == |c.program| && (forall k :: 0 <= k < 4 ==> s.stages[k].input.live == [] && s.stages[k].hold.None?)
      && s.mem == Run(c.net, c.init, Pushed(c.program, |c.program|))
  {
    StartInv(c);
    RunInv(c, Start(c), steps, s);
    if Stuck(c, s) {
      assert !Enabled(c, s, Take(3)) && !Enabled(c, s, Give(2)) && !Enabled(c, s, Take(2)) && !Enabled(c, s, Give(1));
      assert !Enabled(c, s, Take(1)) && !Enabled(c, s, Give(0)) && !Enabled(c, s, Take(0));
      Drained(c, s);
      assert !Enabled(c, s, PushItem) && !Enabled(c, s, PassWait);
      if s.pc < |c.program| { WaitPasses(c.program, s.pc); }
    }
  }

  lemma WaitPasses(program: seq<Cmd>, i: nat)
    requires i < |program| && WaitsMarked(program) && program[i].Wait?
    ensures LastMark(program, i) == SeqNo(program, i)
  {
  }

  lemma Drained(c: Config, s: Sys)
    requires Inv(c, s) && forall k :: 0 <= k < 4 ==> s.stages[k].input.live == [] && s.stages[k].hold.None?
    ensures s.markerDone == LastMark(c.program, s.pc) && s.mem == Ref(c, s.pc)
  {
    InOrder(c, s);
    forall k: nat | k <= 3 ensures Arrivals(c, k, s.stages[k].past, Upto(s, k)) == [] { assert StageOk(c, s, k); }
    var p0, p1, p2, p3 := s.stages[0].past, s.stages[1].past, s.stages[2].past, s.stages[3].past;
    assert Upto(s, 0) == s.pc && Upto(s, 1) == p0 && Upto(s, 2) == p1 && Upto(s, 3) == p2;
    DrainedChain(c, p0, p1, p2, p3, s.pc);
    DrainedParts(c, s);
  }

  lemma DrainedChain(c: Config, p0: nat, p1: nat, p2: nat, p3: nat, pc: nat)
    requires p3 <= p2 <= p1 <= p0 <= pc <= |c.program|
    requires Arrivals(c, 0, p0, pc) == [] && Arrivals(c, 1, p1, p0) == [] && Arrivals(c, 2, p2, p1) == []
      && Arrivals(c, 3, p3, p2) == []
    ensures SamePart(0, Ref(c, p0), Ref(c, pc)) && SamePart(1, Ref(c, p1), Ref(c, pc))
    ensures SamePart(2, Ref(c, p2), Ref(c, pc)) && SamePart(3, Ref(c, p3), Ref(c, pc))
    ensures LastMark(c.program, p3) == LastMark(c.program, pc)
  {
    hide Ref, Arrive, Arrivals, Deaths, SamePart, LastMark;
    NothingArrives(c, 0, p0, pc);
    EmptyBelow(c, 1, p1, p0, pc);
    NothingArrives(c, 1, p1, pc);
    EmptyBelow(c, 2, p2, p1, pc);
    NothingArrives(c, 2, p2, pc);
    EmptyBelow(c, 3, p3, p2, pc);
    NothingArrives(c, 3, p3, pc);
  }

  lemma EmptyBelow(c: Config, s: nat, a: nat, b: nat, d: nat)
    requires a <= b <= d <= |c.program| && Arrivals(c, s, a, b) == [] && Arrivals(c, s, b, d) == []
    ensures Arrivals(c, s, a, d) == []
  {
    ArrivalsJoin(c, s, a, b, d);
  }

  lemma DrainedParts(c: Config, s: Sys)
    requires Inv(c, s)
    requires s.stages[0].past <= |c.program| && s.stages[1].past <= |c.program| && s.stages[2].past <= |c.program|
      && s.stages[3].past <= |c.program|
    requires SamePart(0, Ref(c, s.stages[0].past), Ref(c, s.pc)) && SamePart(1, Ref(c, s.stages[1].past), Ref(c, s.pc))
    requires SamePart(2, Ref(c, s.stages[2].past), Ref(c, s.pc)) && SamePart(3, Ref(c, s.stages[3].past), Ref(c, s.pc))
    ensures s.mem == Ref(c, s.pc)
  {
    forall k: nat | k <= 3 ensures SamePart(k, s.mem, Ref(c, s.pc)) { assert StageOk(c, s, k); }
    AllParts(s.mem, Ref(c, s.pc));
  }

  // ---- every run ends ----

  function StageScore(g: Stage): int {
    2 * g.past - if g.hold.Some? then 1 else 0
  }

  /** Commands issued, and twice the commands behind each stage, less one for a message it holds. */
  function Score(s: Sys): int
    requires |s.stages| == 4
  {
    s.pc + StageScore(s.stages[0]) + StageScore(s.stages[1]) + StageScore(s.stages[2]) + StageScore(s.stages[3])
  }

  lemma TakeScore(c: Config, s: Sys, k: nat)
    requires Inv(c, s) && Enabled(c, s, Take(k))
    ensures |DoTake(c, s, k).stages| == 4 && Score(DoTake(c, s, k)) > Score(s)
  {
    assert StageOk(c, s, k);
    TakeOwn(c, k, s.stages[k], s.mem, Held(s, k), Upto(s, k));
    hide Inv, StageOk, Part, Handle, Fits;
  }

  lemma StepScore(c: Config, s: Sys, st: Step)
    requires Inv(c, s) && Enabled(c, s, st)
    ensures |Apply(c, s, st).stages| == 4 && Score(Apply(c, s, st)) > Score(s)
  {
    hide StageOk, Took, Handle;
    match st
    case PushItem =>
    case PassWait =>
    case Take(k) => TakeScore(c, s, k);
    case Give(k) =>
  }

  lemma ScoreBound(c: Config, s: Sys)
    requires Inv(c, s)
    ensures |s.stages| == 4 && Score(s) <= 9 * |c.program|
  {
    forall k: nat | k <= 3 ensures s.stages[k].past <= |c.program| { assert StageOk(c, s, k); }
    hide StageOk;
  }

  lemma {:induction false} RunScore(c: Config, s: Sys, steps: seq<Step>, t: Sys)
    requires Inv(c, s) && Leads(c, s, steps, t)
    ensures |s.stages| == |t.stages| == 4 && Score(t) >= Score(s) + |steps|
    decreases |steps|
  {
    ScoreBound(c, s);
    hide Inv, Enabled, Apply, Score;
    if steps == [] {
    } else {
      StepInv(c, s, steps[0]);
      StepScore(c, s, steps[0]);
      RunScore(c, Apply(c, s, steps[0]), steps[1..], t);
    }
  }

  /** Progress: no run has more than nine steps for each command, and a run that no thread can extend
      has finished with the sequential result.  Nothing is assumed of the schedule. */
  lemma RunsFinish(c: Config, steps: seq<Step>, s: Sys)
    requires c.cap >= 1 && WaitsMarked(c.program) && Leads(c, Start(c), steps, s)
    ensures |steps| <= 9 * |c.program| && Sane(s)
    ensures Stuck(c, s) ==>
      && s.pc == |c.program| && (forall k :: 0 <= k < 4 ==> s.stages[k].input.live == [] && s.stages[k].hold.None?)
      && s.mem == Run(c.net, c.init, Pushed(c.program, |c.program|))
  {
    StuckIsFinished(c, steps, s);
    StartInv(c);
    RunInv(c, Start(c), steps, s);
    RunScore(c, Start(c), steps, s);
    ScoreBound(c, s);
    hide Inv, Leads;
  }
}
