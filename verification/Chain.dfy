/** The sequential loop taken apart: what one item means to each of the four stages. */
module Chain {
  import opened Geometry
  import opened Network
  import opened Sequential
  import opened Rings

  /** What travels between stages. */
  datatype Item = Raw(e: Event) | Staged(at: Cell, feat: Feat) | Marker(seqNo: nat)

  /** One stage's share of an event that reaches it. */
  function Go(n: Net, s: nat, st: State, at: Cell, f: Feat): (State, Option<Item>) {
    var out, st1 := StageFeat(n, s, st.Mem(s), at, f), Ran(n, s, st, at, f);
    if s >= 3 then (st1.(pred := Decode(n, st.pred, at, out)), None)
    else (Checked(s, st1, Pool(at)), if Passes(n.window, st.Mem(s).drop(Pool(at))) then Some(Staged(Pool(at), out))
      else None)
  }

  /** A stage thread on one message: the new memory and what it sends on. */
  function Handle(n: Net, s: nat, st: State, x: Item): (State, Option<Item>) {
    match x
    case Marker(_) => (st, if s >= 3 then None else Some(x))
    case Staged(at, f) => Go(n, s, st, at, f)
    case Raw(e) =>
      if !InGrid(n.grid, At(e)) then (st, None)
      else Go(n, 0, st.(lastT := Stamp(st.lastT, e)), At(e), InputFeat(n, st.lastT, e))
  }

  /** The memory of stage s. */
  ghost predicate SamePart(s: nat, a: State, b: State) {
    if s == 0 then a.lastT == b.lastT && a.m0 == b.m0
    else if s == 1 then a.m1 == b.m1
    else if s == 2 then a.m2 == b.m2
    else a.m3 == b.m3 && a.pred == b.pred
  }

  /** Raw events are for stage 0 only. */
  predicate Fits(s: nat, x: Item) {
    s <= 3 && (x.Raw? ==> s == 0)
  }

  /** A stage reads and writes its own memory and nothing else. */
  lemma HandleLocal(n: Net, s: nat, a: State, b: State, x: Item)
    requires Fits(s, x) && SamePart(s, a, b)
    ensures Handle(n, s, a, x).1 == Handle(n, s, b, x).1 && SamePart(s, Handle(n, s, a, x).0, Handle(n, s, b, x).0)
  {
    assert a.Mem(s) == b.Mem(s);
  }

  lemma HandleFrame(n: Net, s: nat, a: State, x: Item, t: nat)
    requires Fits(s, x) && t <= 3 && t != s
    ensures SamePart(t, Handle(n, s, a, x).0, a)
  {
  }

  /** The item as it reaches stage t when it stands before stage s; every stage reads the memory st. */
  function Reach(n: Net, s: nat, st: State, x: Item, t: nat): Option<Item>
    requires s <= t
    decreases t - s
  {
    if s == t then Some(x)
    else
      var y := Handle(n, s, st, x).1;
      if y.None? then None else Reach(n, s + 1, st, y.value, t)
  }

  /** The last stage of the way. */
  lemma {:induction false} ReachNext(n: Net, s: nat, st: State, x: Item, t: nat)
    requires s <= t <= 2
    ensures Reach(n, s, st, x, t + 1) == if Reach(n, s, st, x, t).None? then None
      else Handle(n, t, st, Reach(n, s, st, x, t).value).1
    decreases t - s
  {
    hide Handle;
    if s < t {
      var y := Handle(n, s, st, x).1;
      if y.Some? { ReachNext(n, s + 1, st, y.value, t); }
    } else {
      assert Reach(n, s + 1, st, x, t + 1) == Some(x);
    }
  }

  /** And what it does to stage t's memory. */
  function Effect(n: Net, t: nat, st: State, x: Option<Item>): State {
    if x.None? then st else Handle(n, t, st, x.value).0
  }

  lemma {:induction false} ReachLocal(n: Net, s: nat, a: State, b: State, x: Item, t: nat)
    requires s <= t <= 3 && Fits(s, x) && forall u: nat :: s <= u <= 3 ==> SamePart(u, a, b)
    ensures Reach(n, s, a, x, t) == Reach(n, s, b, x, t)
      && (Reach(n, s, a, x, t).Some? ==> Fits(t, Reach(n, s, a, x, t).value))
    decreases t - s
  {
    if s < t {
      assert SamePart(s, a, b);
      HandleLocal(n, s, a, b, x);
      var y := Handle(n, s, a, x).1;
      if y.Some? { ReachLocal(n, s + 1, a, b, y.value, t); }
    }
  }

  /** The recursion of the sequential step, stage by stage. */
  lemma {:induction false} EnterReach(n: Net, s: nat, st: State, at: Cell, f: Feat, t: nat)
    requires s <= 3 && t <= 3
    ensures s <= t ==> SamePart(t, Enter(n, s, st, at, f), Effect(n, t, st, Reach(n, s, st, Staged(at, f), t)))
    ensures t < s ==> SamePart(t, Enter(n, s, st, at, f), st)
    decreases 3 - s
  {
    var x := Staged(at, f);
    var st', y := Handle(n, s, st, x).0, Handle(n, s, st, x).1;
    if s < 3 {
      if y.Some? {
        var z := y.value;
        assert Enter(n, s, st, at, f) == Enter(n, s + 1, st', z.at, z.feat);
        EnterReach(n, s + 1, st', z.at, z.feat, t);
        forall u: nat | u <= 3 && u != s ensures SamePart(u, st', st) { HandleFrame(n, s, st, x, u); }
        if s < t {
          ReachLocal(n, s + 1, st', st, z, t);
          var w := Reach(n, s + 1, st, z, t);
          if w.Some? { HandleLocal(n, t, st', st, w.value); }
        }
      } else {
        assert Enter(n, s, st, at, f) == st';
        if t != s { HandleFrame(n, s, st, x, t); }
      }
    } else if t != s {
      HandleFrame(n, s, st, x, t);
    }
  }

  /** One event of the sequential loop is one message through the chain of stages. */
  lemma ProcessReach(n: Net, st: State, e: Event, t: nat)
    requires t <= 3
    ensures SamePart(t, ProcessOne(n, st, e), Effect(n, t, st, Reach(n, 0, st, Raw(e), t)))
  {
    if InGrid(n.grid, At(e)) {
      var st0, f := st.(lastT := Stamp(st.lastT, e)), InputFeat(n, st.lastT, e);
      EnterReach(n, 0, st0, At(e), f, t);
      if t > 0 {
        var y := Handle(n, 0, st, Raw(e)).1;
        assert y == Handle(n, 0, st0, Staged(At(e), f)).1;
        if y.Some? {
          ReachLocal(n, 1, st0, st, y.value, t);
          var w := Reach(n, 1, st, y.value, t);
          if w.Some? { HandleLocal(n, t, st0, st, w.value); }
        }
      }
    } else if t > 0 {
      assert Reach(n, 0, st, Raw(e), t) == None;
    }
  }
}
