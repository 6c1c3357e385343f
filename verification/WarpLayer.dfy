/** One layer over a batch of events by nine warps, each the owner of every third row and column
    of hidden cells.  Between two barriers the warps run in any interleaving; a warp visits the
    events in order and reads and writes a hidden cell in separate steps. */
module WarpLayer {
  import opened Geometry
  import opened Network
  import opened Sums
  import opened Rings
  import opened Arith

  const WARPS := 9

  /** An event of the batch in this layer: does it enter, and is its output wanted? */
  datatype Visit = Visit(at: Cell, feat: Feat, enters: bool, wanted: bool)

  datatype Phase = Phase(net: Net, layer: Layer, grid: Size, visits: seq<Visit>, start: Plane)

  ghost predicate Fit(p: Phase) {
    p.layer.wide && forall e :: 0 <= e < |p.visits| ==> InGrid(p.grid, p.visits[e].at)
  }

  // ---- which cell a warp takes ----

  /** The code's ((own - ev) % 3 + 3) % 3 - 1, with the remainder of C. */
  function Offset(own: int, ev: int): int {
    (CRem(own - ev, 3) + 3) % 3 - 1
  }

  /** Remainder that takes the sign of the dividend. */
  function CRem(a: int, b: nat): int
    requires b > 0
  {
    if a >= 0 then a % b else -((-a) % b)
  }

  function Target(w: nat, ev: Cell): Cell {
    Cell(ev.x + Offset(w % 3, ev.x), ev.y + Offset(w / 3, ev.y))
  }

  /** The warp that owns a cell, whatever the event. */
  function OwnerOf(c: Cell): nat {
    ((c.y + 1) % 3) * 3 + (c.x + 1) % 3
  }

  lemma OffsetMeaning(own: int, ev: int)
    requires 0 <= own < 3
    ensures -1 <= Offset(own, ev) <= 1 && (ev + Offset(own, ev) + 1) % 3 == own
  {
  }

  /** And back: a coordinate next to the event is the one its owner comes to. */
  lemma OffsetBack(c: int, ev: int)
    requires -1 <= c - ev <= 1
    ensures ev + Offset((c + 1) % 3, ev) == c
  {
    OffsetMeaning((c + 1) % 3, ev);
    var x := ev + Offset((c + 1) % 3, ev);
    if x < c { Apart(x + 1, c + 1, 3); } else if c < x { Apart(c + 1, x + 1, 3); }
  }

  /** A warp's target lies in the window and is a cell it owns ... */
  lemma TargetMeaning(w: nat, ev: Cell)
    requires w < WARPS
    ensures Near(ev, Target(w, ev)) && OwnerOf(Target(w, ev)) == w
  {
    OffsetMeaning(w % 3, ev.x);
    OffsetMeaning(w / 3, ev.y);
    hide Offset;
  }

  /** ... and every window cell is the target of its owner: the nine warps share the window out. */
  lemma OwnerTargets(ev: Cell, c: Cell)
    ensures OwnerOf(c) < WARPS
    ensures Near(ev, c) <==> Target(OwnerOf(c), ev) == c
  {
    var a, b := (c.y + 1) % 3, (c.x + 1) % 3;
    assert OwnerOf(c) / 3 == a && OwnerOf(c) % 3 == b;
    if Near(ev, c) {
      OffsetBack(c.x, ev.x);
      OffsetBack(c.y, ev.y);
    } else {
      TargetMeaning(OwnerOf(c), ev);
    }
    hide Offset;
  }

  /** The patch position of a warp. */
  function PosOf(w: nat, ev: Cell): nat {
    Delta(ev, Target(w, ev))
  }

  // ---- the sequential layer ----

  /** The plane after the first k events, one at a time. */
  function PlaneAfter(p: Phase, k: nat): Plane
    requires k <= |p.visits|
  {
    if k == 0 then p.start
    else
      var v, h := p.visits[k - 1], PlaneAfter(p, k - 1);
      if v.enters then Refresh(p.layer, p.grid, v.at, v.feat, h) else h
  }

  function Out(p: Phase, e: nat): Feat
    requires e < |p.visits|
  {
    Forward(p.net, p.layer, p.grid, p.visits[e].at, p.visits[e].feat, PlaneAfter(p, e))
  }

  // ---- the warps ----

  datatype Slot = Slot(event: nat, warp: nat)

  /** Next event of each warp, and what it has read of the event's cell. */
  datatype Warp = Warp(next: nat, read: Option<Hid>)

  datatype Sys = Sys(hidden: Plane, contrib: Slot -> Feat, warps: seq<Warp>)

  datatype Step = Skip(w: nat) | Load(w: nat) | Store(w: nat)

  predicate Active(p: Phase, w: nat, e: nat)
    requires e < |p.visits|
  {
    p.visits[e].enters && InGrid(p.grid, Target(w, p.visits[e].at))
  }

  predicate Enabled(p: Phase, s: Sys, st: Step)
    requires |s.warps| == WARPS
  {
    && st.w < WARPS && s.warps[st.w].next < |p.visits|
    && match st
       case Skip(w) => s.warps[w].read.None? && !Active(p, w, s.warps[w].next)
       case Load(w) => s.warps[w].read.None? && Active(p, w, s.warps[w].next)
       case Store(w) => s.warps[w].read.Some?
  }

  function Apply(p: Phase, s: Sys, st: Step): Sys
    requires |s.warps| == WARPS && Enabled(p, s, st)
  {
    var w, e := st.w, s.warps[st.w].next;
    var v := p.visits[e];
    var c := Target(w, v.at);
    match st
    case Skip(_) => s.(warps := s.warps[w := Warp(e + 1, None)])
    case Load(_) => s.(warps := s.warps[w := Warp(e, Some(s.hidden(c)))])
    case Store(_) =>
      var pos := PosOf(w, v.at);
      var h := p.layer.lru(pos, v.feat, s.warps[w].read.value);
      Sys((k: Cell) => if k == c then h else s.hidden(k),
          if v.wanted then (k: Slot) => if k == Slot(e, w) then p.layer.emit(pos, v.feat, h) else s.contrib(k)
            else s.contrib,
          s.warps[w := Warp(e + 1, None)])
  }

  /** Hidden cells as the last barrier left them, contributions zeroed. */
  function Start(p: Phase): Sys {
    Sys(p.start, (k: Slot) => p.net.zero, seq(WARPS, _ => Warp(0, None)))
  }

  ghost predicate Leads(p: Phase, s: Sys, steps: seq<Step>, t: Sys)
    decreases |steps|
  {
    if steps == [] then s == t
    else |s.warps| == WARPS && Enabled(p, s, steps[0]) && Leads(p, Apply(p, s, steps[0]), steps[1..], t)
  }

  /** The barrier: every warp has been through the batch. */
  predicate Complete(p: Phase, s: Sys) {
    |s.warps| == WARPS && forall w :: 0 <= w < WARPS ==> s.warps[w].next == |p.visits| && s.warps[w].read.None?
  }

  /** The gather: contributions added up, warp by warp. */
  function Gathered(p: Phase, s: Sys, e: nat, k: nat): Feat {
    if k == 0 then p.net.zero else p.net.add(Gathered(p, s, e, k - 1), s.contrib(Slot(e, k - 1)))
  }

  function Output(p: Phase, s: Sys, e: nat): Feat
    requires e < |p.visits|
  {
    p.layer.finish(p.visits[e].feat, Gathered(p, s, e, WARPS))
  }

  // ---- the invariant ----

  /** What warp w contributes to event e. */
  function Due(p: Phase, e: nat, w: nat): Feat
    requires e < |p.visits|
  {
    var v := p.visits[e];
    if v.wanted && Active(p, w, e) then Share(p.layer, v.at, v.feat, PlaneAfter(p, e), PosOf(w, v.at)) else p.net.zero
  }

  ghost predicate CellOk(p: Phase, hidden: Plane, warps: seq<Warp>, c: Cell)
    requires |warps| == WARPS
  {
    var k := warps[OwnerOf(c)].next;
    k <= |p.visits| && hidden(c) == PlaneAfter(p, k)(c)
  }

  ghost predicate WarpOk(p: Phase, contrib: Slot -> Feat, warps: seq<Warp>, w: nat)
    requires |warps| == WARPS && w < WARPS
  {
    var k := warps[w].next;
    && k <= |p.visits|
    && (forall e: nat :: e < |p.visits| ==> contrib(Slot(e, w)) == if e < k then Due(p, e, w) else p.net.zero)
    && (warps[w].read.Some? ==>
          k < |p.visits| && Active(p, w, k) && warps[w].read.value == PlaneAfter(p, k)(Target(w, p.visits[k].at)))
  }

  ghost predicate Inv(p: Phase, s: Sys) {
    && |s.warps| == WARPS
    && (forall c :: CellOk(p, s.hidden, s.warps, c))
    && (forall w: nat :: w < WARPS ==> WarpOk(p, s.contrib, s.warps, w))
  }

  /** An event moves a cell only through the cell's owner. */
  lemma PlaneStep(p: Phase, e: nat, c: Cell)
    requires Fit(p) && e < |p.visits|
    ensures var v := p.visits[e];
      PlaneAfter(p, e + 1)(c) == if Active(p, OwnerOf(c), e) && Target(OwnerOf(c), v.at) == c
                                 then p.layer.lru(PosOf(OwnerOf(c), v.at), v.feat, PlaneAfter(p, e)(c))
                                   else PlaneAfter(p, e)(c)
  {
    var v := p.visits[e];
    OwnerTargets(v.at, c);
    hide Target, OwnerOf;
  }

  /** A step and a hidden cell: only the cell's owner stores into it. */
  lemma StepCell(p: Phase, s: Sys, st: Step, c: Cell)
    requires Fit(p) && |s.warps| == WARPS && Enabled(p, s, st)
    requires CellOk(p, s.hidden, s.warps, c) && WarpOk(p, s.contrib, s.warps, st.w) && OwnerOf(c) < WARPS
    ensures CellOk(p, Apply(p, s, st).hidden, Apply(p, s, st).warps, c)
  {
    hide Target, PosOf, OwnerOf, PlaneAfter, Due, Inv, Fit;
    var w := st.w;
    var e := s.warps[w].next;
    TargetMeaning(w, p.visits[e].at);
    PlaneStep(p, e, c);
  }

  /** A step and the warps: the one that steps has read what the sequential run holds there and
      contributes what it is due; the others keep what they had. */
  lemma StepWarp(p: Phase, s: Sys, st: Step)
    requires Fit(p) && |s.warps| == WARPS && Enabled(p, s, st) && WarpOk(p, s.contrib, s.warps, st.w)
    requires CellOk(p, s.hidden, s.warps, Target(st.w, p.visits[s.warps[st.w].next].at))
    ensures WarpOk(p, Apply(p, s, st).contrib, Apply(p, s, st).warps, st.w)
  {
    hide Target, PosOf, OwnerOf, PlaneAfter, Inv, Fit, Due, Active;
    var w := st.w;
    var e := s.warps[w].next;
    TargetMeaning(w, p.visits[e].at);
    match st
    case Skip(_) => DueIdle(p, e, w);
    case Load(_) =>
    case Store(_) => DueActive(p, e, w, s.warps[w].read.value);
  }

  lemma DueIdle(p: Phase, e: nat, w: nat)
    requires e < |p.visits| && !Active(p, w, e)
    ensures Due(p, e, w) == p.net.zero
  {
  }

  lemma DueActive(p: Phase, e: nat, w: nat, h: Hid)
    requires e < |p.visits| && Active(p, w, e) && w < WARPS && h == PlaneAfter(p, e)(Target(w, p.visits[e].at))
      && Fit(p)
    ensures var v, q := p.visits[e], PosOf(w, p.visits[e].at);
      Due(p, e, w) == if v.wanted then p.layer.emit(q, v.feat, p.layer.lru(q, v.feat, h)) else p.net.zero
  {
    TargetMeaning(w, p.visits[e].at);
    DeltaBijection(p.visits[e].at, Target(w, p.visits[e].at), 0);
    hide Target;
  }

  lemma StepOther(p: Phase, s: Sys, st: Step, u: nat)
    requires Fit(p) && |s.warps| == WARPS && Enabled(p, s, st) && u < WARPS && u != st.w
      && WarpOk(p, s.contrib, s.warps, u)
    ensures WarpOk(p, Apply(p, s, st).contrib, Apply(p, s, st).warps, u)
  {
    hide Target, PosOf, OwnerOf, PlaneAfter, Inv, Fit, Due, Active;
  }

  lemma StepInv(p: Phase, s: Sys, st: Step)
    requires Fit(p) && Inv(p, s) && Enabled(p, s, st)
    ensures Inv(p, Apply(p, s, st))
  {
    var s' := Apply(p, s, st);
    hide CellOk, WarpOk, Target, PosOf, Fit;
    forall c ensures CellOk(p, s'.hidden, s'.warps, c) {
      assert CellOk(p, s.hidden, s.warps, c) && WarpOk(p, s.contrib, s.warps, st.w);
      OwnerTargets(c, c);
      StepCell(p, s, st, c);
    }
    forall u: nat | u < WARPS ensures WarpOk(p, s'.contrib, s'.warps, u) {
      assert WarpOk(p, s.contrib, s.warps, u)
        && CellOk(p, s.hidden, s.warps, Target(st.w, p.visits[s.warps[st.w].next].at));
      if u == st.w { StepWarp(p, s, st); } else { StepOther(p, s, st, u); }
    }
  }

  lemma {:induction false} RunInv(p: Phase, s: Sys, steps: seq<Step>, t: Sys)
    requires Fit(p) && Inv(p, s) && Leads(p, s, steps, t)
    ensures Inv(p, t)
    decreases |steps|
  {
    hide Fit, Inv, Enabled, Apply;
    if steps == [] {
    } else {
      StepInv(p, s, steps[0]);
      RunInv(p, Apply(p, s, steps[0]), steps[1..], t);
    }
  }

  lemma StartInv(p: Phase)
    requires Fit(p)
    ensures Inv(p, Start(p))
  {
    forall c ensures CellOk(p, Start(p).hidden, Start(p).warps, c) { OwnerTargets(c, c); }
  }

  // ---- the nine contributions are the nine positions ----

  /** The position a warp takes care of, if it is on the grid. */
  function Part(p: Phase, at: Cell): nat -> set<nat> {
    (w: nat) => if InGrid(p.grid, Target(w, at)) then {PosOf(w, at)} else {}
  }

  function AllWarps(): set<nat> {
    {0, 1, 2, 3, 4, 5, 6, 7, 8}
  }

  function Contribs(s: Sys, e: nat): nat -> Feat {
    (w: nat) => s.contrib(Slot(e, w))
  }

  lemma {:induction false} GatheredIsPick(p: Phase, s: Sys, e: nat, k: nat)
    requires k <= WARPS
    ensures Gathered(p, s, e, k) == Pick(p.net, AllWarps(), Contribs(s, e), k)
  {
    if k == 0 {
    } else {
      GatheredIsPick(p, s, e, k - 1);
    }
  }

  lemma {:induction false} PickOne(n: Net, q: nat, f: nat -> Feat, k: nat)
    requires Exact(n)
    ensures Pick(n, {q}, f, k) == if q < k then f(q) else n.zero
  {
    if k == 0 {
    } else {
      PickOne(n, q, f, k - 1);
      assert n.add(n.zero, f(q)) == n.add(f(q), n.zero) == f(q);
    }
  }

  /** A warp's part is the position whose cell it owns. */
  lemma InPart(p: Phase, at: Cell, w: nat, q: nat)
    requires Fit(p) && w < WARPS
    ensures q in Part(p, at)(w) <==> q in Inside(p.layer, p.grid, at, 0) && OwnerOf(Spot(p.layer, at, q)) == w
  {
    hide Target, OwnerOf, InGrid, Delta, PatchCell;
    TargetMeaning(w, at);
    DeltaBijection(at, Target(w, at), 0);
    assert q in Part(p, at)(w) <==> InGrid(p.grid, Target(w, at)) && q == Delta(at, Target(w, at));
    if q < 9 {
      DeltaBijection(at, at, q);
      OwnerTargets(at, PatchCell(at, q));
      assert Positions(p.layer) == 9 && Spot(p.layer, at, q) == PatchCell(at, q);
      assert q in Inside(p.layer, p.grid, at, 0) <==> q < Positions(p.layer) && InGrid(p.grid, Spot(p.layer, at, q));
    } else {
      assert q !in Inside(p.layer, p.grid, at, 0);
    }
  }

  /** Distinct warps take distinct positions, and together all of them. */
  lemma PartsAreWindow(p: Phase, at: Cell)
    requires Fit(p)
    ensures forall u: nat, w: nat :: u < w < WARPS ==> Part(p, at)(u) !! Part(p, at)(w)
    ensures Parts(Part(p, at), AllWarps(), WARPS) == Inside(p.layer, p.grid, at, 0)
  {
    hide Part, OwnerOf, Inside, Parts, Spot;
    var all := Parts(Part(p, at), AllWarps(), WARPS);
    forall u: nat, w: nat | u < w < WARPS ensures Part(p, at)(u) !! Part(p, at)(w) {
      forall q: nat | q in Part(p, at)(u) ensures q !in Part(p, at)(w) {
        InPart(p, at, u, q);
        InPart(p, at, w, q);
      }
    }
    forall q: nat ensures q in all <==> q in Inside(p.layer, p.grid, at, 0) {
      PartsMember(Part(p, at), AllWarps(), WARPS, q);
      var c := Spot(p.layer, at, q);
      OwnerTargets(c, c);
      forall w: nat | w < WARPS
        ensures q in Part(p, at)(w) <==> q in Inside(p.layer, p.grid, at, 0) && OwnerOf(c) == w
      {
        InPart(p, at, w, q);
      }
      if q in Inside(p.layer, p.grid, at, 0) { assert OwnerOf(c) in AllWarps() && q in Part(p, at)(OwnerOf(c)); }
    }
    assert all == Inside(p.layer, p.grid, at, 0);
  }

  /** In exact arithmetic the gathered contributions of an event are the layer's sum for it. */
  lemma GatheredIsSum(p: Phase, s: Sys, e: nat)
    requires Fit(p) && Exact(p.net) && e < |p.visits| && p.visits[e].enters && p.visits[e].wanted
    requires forall w: nat :: w < WARPS ==> s.contrib(Slot(e, w)) == Due(p, e, w)
    ensures Gathered(p, s, e, WARPS)
      == Gather(p.net, p.layer, p.grid, p.visits[e].at, p.visits[e].feat, PlaneAfter(p, e), 0)
  {
    var v, h := p.visits[e], PlaneAfter(p, e);
    var who, part, f := AllWarps(), Part(p, v.at), Shares(p.layer, v.at, v.feat, h);
    GatheredIsPick(p, s, e, WARPS);
    PartsAreWindow(p, v.at);
    forall w: nat | w < WARPS && w in who ensures Contribs(s, e)(w) == Pick(p.net, part(w), f, 9) {
      TargetMeaning(w, v.at);
      DeltaBijection(v.at, Target(w, v.at), 0);
      if InGrid(p.grid, Target(w, v.at)) { PickOne(p.net, PosOf(w, v.at), f, 9); } else { PickEmpty(p.net, f, 9); }
    }
    PickParts(p.net, part, who, WARPS, f, Contribs(s, e), 9);
    GatherIsPick(p.net, p.layer, p.grid, v.at, v.feat, h, 0);
  }

  /** A layer by nine warps is the layer event by event: in every complete run, whatever the
      interleaving, the hidden cells are those after the last event and each wanted output is that
      of its event on the cells as the events before it left them. */
  lemma WarpsAreSequential(p: Phase, steps: seq<Step>, s: Sys)
    requires Fit(p) && Exact(p.net) && Leads(p, Start(p), steps, s) && Complete(p, s)
    ensures SamePlane(s.hidden, PlaneAfter(p, |p.visits|))
    ensures forall e :: 0 <= e < |p.visits| && p.visits[e].enters && p.visits[e].wanted ==> Output(p, s, e) == Out(p, e)
  {
    StartInv(p);
    RunInv(p, Start(p), steps, s);
    forall c ensures s.hidden(c) == PlaneAfter(p, |p.visits|)(c) {
      assert CellOk(p, s.hidden, s.warps, c);
      OwnerTargets(c, c);
    }
    forall e | 0 <= e < |p.visits| && p.visits[e].enters && p.visits[e].wanted ensures Output(p, s, e) == Out(p, e) {
      forall w: nat | w < WARPS
        ensures s.contrib(Slot(e, w)) == Due(p, e, w)
      {
        assert WarpOk(p, s.contrib, s.warps, w);
      }
      GatheredIsSum(p, s, e);
    }
  }

  /** The cell a warp has in hand. */
  predicate InHand(p: Phase, s: Sys, w: nat, c: Cell) {
    |s.warps| == WARPS && w < WARPS && s.warps[w].next < |p.visits| && Target(w, p.visits[s.warps[w].next].at) == c
  }

  /** No two warps ever have the same hidden cell in hand, wherever they are in the batch. */
  lemma WarpsNeverMeet(p: Phase, s: Sys, u: nat, w: nat, c: Cell)
    requires InHand(p, s, u, c) && InHand(p, s, w, c)
    ensures u == w
  {
    TargetMeaning(u, p.visits[s.warps[u].next].at);
    TargetMeaning(w, p.visits[s.warps[w].next].at);
  }

  // ---- the barrier is reached ----

  function WarpScore(w: Warp): nat {
    2 * w.next + if w.read.Some? then 1 else 0
  }

  function Score(ws: seq<Warp>): nat {
    if ws == [] then 0 else Score(ws[..|ws| - 1]) + WarpScore(ws[|ws| - 1])
  }

  lemma {:induction false} ScoreUpdate(ws: seq<Warp>, k: nat, w: Warp)
    requires k < |ws|
    ensures Score(ws[k := w]) == Score(ws) - WarpScore(ws[k]) + WarpScore(w)
  {
    hide WarpScore;
    var last := |ws| - 1;
    if k == last {
      assert ws[k := w][..last] == ws[..last];
    } else {
      assert ws[k := w][..last] == ws[..last][k := w];
      ScoreUpdate(ws[..last], k, w);
    }
  }

  lemma StepScore(p: Phase, s: Sys, st: Step)
    requires |s.warps| == WARPS && Enabled(p, s, st)
    ensures |Apply(p, s, st).warps| == WARPS && Score(Apply(p, s, st).warps) > Score(s.warps)
  {
    hide Score, Active, Target, PosOf;
    ScoreUpdate(s.warps, st.w, Apply(p, s, st).warps[st.w]);
  }

  lemma {:induction false} ScoreBound(ws: seq<Warp>, m: nat)
    requires forall w :: 0 <= w < |ws| ==> WarpScore(ws[w]) <= m
    ensures Score(ws) <= |ws| * m
  {
    hide WarpScore;
    if ws == [] {
    } else {
      ScoreBound(ws[..|ws| - 1], m);
      Distribute(|ws|, 1, m);
    }
  }

  lemma {:induction false} StartScore(ws: seq<Warp>)
    requires forall w :: 0 <= w < |ws| ==> ws[w] == Warp(0, None)
    ensures Score(ws) == 0
  {
    if ws == [] {
    } else {
      StartScore(ws[..|ws| - 1]);
    }
  }

  lemma {:induction false} RunScore(p: Phase, s: Sys, steps: seq<Step>, t: Sys)
    requires |s.warps| == WARPS && Leads(p, s, steps, t)
    ensures |t.warps| == WARPS && Score(t.warps) >= Score(s.warps) + |steps|
    decreases |steps|
  {
    hide Enabled, Apply, Score;
    if steps == [] {
    } else {
      StepScore(p, s, steps[0]);
      RunScore(p, Apply(p, s, steps[0]), steps[1..], t);
    }
  }

  /** No schedule of a batch has more than eighteen steps for each event and nine more. */
  lemma RunsEnd(p: Phase, steps: seq<Step>, s: Sys)
    requires Fit(p) && Leads(p, Start(p), steps, s)
    ensures Inv(p, s) && |steps| <= WARPS * (2 * |p.visits| + 1)
  {
    StartInv(p);
    RunInv(p, Start(p), steps, s);
    StartScore(Start(p).warps);
    RunScore(p, Start(p), steps, s);
    forall w | 0 <= w < WARPS
      ensures WarpScore(s.warps[w]) <= 2 * |p.visits| + 1
    {
      assert WarpOk(p, s.contrib, s.warps, w);
    }
    ScoreBound(s.warps, 2 * |p.visits| + 1);
    hide Score, Inv, Leads;
  }

  /** A warp that is not through can take a step, whatever the others do. */
  lemma WarpMoves(p: Phase, s: Sys)
    requires Inv(p, s) && !Complete(p, s)
    ensures exists st: Step :: Enabled(p, s, st)
  {
    var w: nat :| w < WARPS && !(s.warps[w].next == |p.visits| && s.warps[w].read.None?);
    assert WarpOk(p, s.contrib, s.warps, w);
    hide Active;
    assert Enabled(p, s, if s.warps[w].read.Some? then Store(w) else if Active(p, w, s.warps[w].next) then Load(w)
      else Skip(w));
  }

  lemma {:induction false} LeadsOn(p: Phase, a: Sys, steps: seq<Step>, b: Sys, st: Step)
    requires Leads(p, a, steps, b) && |b.warps| == WARPS && Enabled(p, b, st)
    ensures Leads(p, a, steps + [st], Apply(p, b, st))
    decreases |steps|
  {
    hide Enabled, Apply;
    if steps == [] {
      assert steps + [st] == [st];
    } else {
      LeadsOn(p, Apply(p, a, steps[0]), steps[1..], b, st);
      assert (steps + [st])[1..] == steps[1..] + [st];
    }
  }

  /** Every schedule can be carried on to the barrier. */
  lemma {:induction false} BarrierReached(p: Phase, steps: seq<Step>, s: Sys) returns (all: seq<Step>, t: Sys)
    requires Fit(p) && Leads(p, Start(p), steps, s)
    ensures steps <= all && Leads(p, Start(p), all, t) && Complete(p, t)
    decreases WARPS * (2 * |p.visits| + 1) - |steps|
  {
    RunsEnd(p, steps, s);
    if Complete(p, s) {
      all, t := steps, s;
    } else {
      hide Leads, Complete, Enabled, Apply, Fit;
      WarpMoves(p, s);
      var st: Step :| Enabled(p, s, st);
      LeadsOn(p, Start(p), steps, s, st);
      RunsEnd(p, steps + [st], Apply(p, s, st));
      all, t := BarrierReached(p, steps + [st], Apply(p, s, st));
    }
  }
}
