/** The sum thread's bookkeeping for one layer: its pending list, its deferred partials and the
    number of partials it has popped from each shard. */
module S3Layers {
  import opened Sums
  import opened ShardedLayer
  import opened S3Machine
  import opened S3Invariant

  /** A shard's partials have distinct ranks. */
  lemma RankInjective(d: Feed, k: nat, a: nat, b: nat)
    requires Fit(d) && a < |d.jobs| && b < |d.jobs| && k in Routed(d, a) && k in Routed(d, b)
    requires |Route(d, k, a)| == |Route(d, k, b)|
    ensures a == b
  {
    hide Fit, Routed;
    RouteRank(d, k, a);
    RouteRank(d, k, b);
  }

  /** Popping the partial of event id from shard k changes nothing for anybody else. */
  lemma PopCounts(d: Feed, got: seq<nat>, k: nat, id: nat, other: nat, j: nat)
    requires Fit(d) && |got| == d.n && k < d.n && j < d.n && id < |d.jobs| && other < |d.jobs|
    requires k in Routed(d, id) && |Route(d, k, id)| == got[k] && j in Routed(d, other)
    requires other != id || j != k
    ensures |Route(d, j, other)| < got[j] <==> |Route(d, j, other)| < got[k := got[k] + 1][j]
  {
    hide Fit, Routed, Route;
    if j == k && |Route(d, k, other)| == got[k] { RankInjective(d, k, id, other); }
  }

  lemma EntryKeeps(d: Feed, l: nat, got: seq<nat>, got': seq<nat>, deferred: set<Partial>, deferred': set<Partial>,
      e: Entry, q: Pending)
    requires Fit(d) && l <= 1 && |got| == |got'| == d.n && EntryOk(d, l, got, deferred, e, q)
    requires e.EventEntry? ==> forall k: nat :: k < d.n && k in Routed(d, e.id) ==>
      (Counted(d, got, deferred, k, e.id) <==> Counted(d, got', deferred', k, e.id))
    ensures EntryOk(d, l, got', deferred', e, q)
  {
    hide Fit, Routed, Counted, Pieces, Feature, Pick;
  }

  lemma EntryAdds(d: Feed, l: nat, got: seq<nat>, got': seq<nat>, deferred: set<Partial>, deferred': set<Partial>,
      e: Entry, q: Pending,
                  part: Partial)
    requires Fit(d) && Additive(d) && l <= 1 && |got| == |got'| == d.n && EntryOk(d, l, got, deferred, e, q)
    requires e.EventEntry? && part.id == e.id && part.shard < d.n && part.shard in Routed(d, e.id)
    requires part.value == Piece(d, l, e.id, part.shard)
    requires !Counted(d, got, deferred, part.shard, e.id) && Counted(d, got', deferred', part.shard, e.id)
    requires forall k: nat :: k < d.n && k in Routed(d, e.id) && k != part.shard ==>
      (Counted(d, got, deferred, k, e.id) <==> Counted(d, got', deferred', k, e.id))
    ensures EntryOk(d, l, got', deferred', e, AddPartial(d.net, q, part))
  {
    hide Fit, Routed, Counted, Pieces, Feature, Pick, Piece;
    assert part.shard !in q.from;
    assert |q.from + {part.shard}| == |q.from| + 1;
  }

  predicate Fresh(d: Feed, l: nat, e: Entry, q: Pending)
    requires Fit(d) && l <= 1
  {
    match e
    case MarkerEntry(m) => q == PendingMarker(m)
    case EventEntry(id, _) =>
      id < |d.jobs| && q == PendingEvent(id, d.jobs[id].at, |Routed(d, id)|, 0, Feature(d, l, id), d.net.zero, {})
  }

  /** A new entry at the back. */
  lemma LayerAppend(p: Plan, l: nat, base: int, ps: seq<Pending>, deferred: set<Partial>, got: seq<nat>, q: Pending)
    requires Fit(p.d) && Numbered(p) && l <= 1 && LayerOk(p, l, base, ps, deferred, got)
    requires base + |ps| < |p.es| && Fresh(p.d, l, p.es[base + |ps|], q)
    ensures LayerOk(p, l, base, ps + [q], deferred, got)
  {
    hide Fit, Routed, Counted, Pieces, Feature;
    var e := p.es[base + |ps|];
    if e.EventEntry? {
      PickEmpty(p.d.net, Pieces(p.d, l, e.id), p.d.n);
      assert Events(p.es, base + |ps| + 1) == Events(p.es, base + |ps|) + 1;
    }
    assert EntryOk(p.d, l, got, deferred, e, q);
  }

  /** The front entry leaves complete: its sum is finalised to the output of the unsharded run. */
  lemma LayerPop(p: Plan, l: nat, base: int, ps: seq<Pending>, deferred: set<Partial>, got: seq<nat>)
    requires Fit(p.d) && Additive(p.d) && Numbered(p) && l <= 1 && LayerOk(p, l, base, ps, deferred, got)
    requires ps != [] && (ps[0].PendingEvent? ==> ps[0].received >= ps[0].expected)
    ensures LayerOk(p, l, base + 1, ps[1..], deferred, got)
    ensures p.es[base].EventEntry? ==>
      && ps[0].PendingEvent? && p.es[base].id == ps[0].id == Events(p.es, base) < |p.d.jobs|
        && ps[0].at == p.d.jobs[ps[0].id].at
      && p.d.net.layers(l).finish(ps[0].residual, ps[0].sum) == Output(p.d, l, ps[0].id)
    ensures p.es[base].MarkerEntry? ==> ps[0] == PendingMarker(p.es[base].seqNo)
  {
    hide Fit, Routed, Counted, Pieces, Feature, Output, Pick;
    var e := p.es[base];
    assert EntryOk(p.d, l, got, deferred, e, ps[0]);
    if e.EventEntry? { PopEntry(p.d, l, Events(p.es, base), deferred, got, e, ps[0]); }
    forall t | 0 <= t < |ps| - 1 ensures EntryOk(p.d, l, got, deferred, p.es[base + 1 + t], ps[1..][t]) {
      assert EntryOk(p.d, l, got, deferred, p.es[base + (t + 1)], ps[t + 1]);
    }
  }

  lemma PopEntry(d: Feed, l: nat, finals: nat, deferred: set<Partial>, got: seq<nat>, e: Entry, q: Pending)
    requires Fit(d) && Additive(d) && l <= 1 && |got| == d.n && EntryOk(d, l, got, deferred, e, q)
    requires e.EventEntry? && e.id == finals && q.received >= q.expected
    requires FinalOk(d, finals, got) && DeferredOk(d, l, finals, deferred, got)
    ensures FinalOk(d, finals + 1, got) && DeferredOk(d, l, finals + 1, deferred, got)
    ensures d.net.layers(l).finish(q.residual, q.sum) == Output(d, l, e.id)
  {
    hide Fit, Routed, Pieces, Feature, Output, Pick, Piece, Route;
    SubsetOfSize(q.from, Routed(d, e.id));
    RoutedBound(d, e.id);
  }

  lemma SubsetOfSize(a: set<nat>, b: set<nat>)
    requires a <= b && |a| >= |b|
    ensures a == b
  {
    if x :| x in b && x !in a {
      assert a <= b - {x};
      SubsetCard(a, b - {x});
    }
  }

  lemma {:induction false} SubsetCard(a: set<nat>, b: set<nat>)
    requires a <= b
    ensures |a| <= |b|
  {
    if x :| x in a { SubsetCard(a - {x}, b - {x}); }
  }

  /** A partial that is due: the next one of its shard. */
  ghost predicate Due(d: Feed, l: nat, got: seq<nat>, part: Partial)
    requires Fit(d) && l <= 1 && |got| == d.n
  {
    && part.shard < d.n && part.id < |d.jobs| && part.shard in Routed(d, part.id)
    && |Route(d, part.shard, part.id)| == got[part.shard]
    && part.value == Piece(d, l, part.id, part.shard)
  }

  /** Across a move only the account of this partial changes. */
  ghost predicate OnlyAccount(d: Feed, got: seq<nat>, got': seq<nat>, deferred: set<Partial>, deferred': set<Partial>,
      part: Partial)
    requires Fit(d) && |got| == |got'| == d.n
  {
    forall id: nat, k: nat :: id < |d.jobs| && k < d.n && k in Routed(d, id) && (id != part.id || k != part.shard) ==>
      (Counted(d, got, deferred, k, id) <==> Counted(d, got', deferred', k, id))
  }

  /** Popping a partial keeps what is known of finalised events and of the deferred set. */
  lemma PopPartial(d: Feed, l: nat, finals: int, deferred: set<Partial>, got: seq<nat>, part: Partial)
    requires Fit(d) && l <= 1 && |got| == d.n && Due(d, l, got, part)
    requires FinalOk(d, finals, got) && DeferredOk(d, l, finals, deferred, got)
    ensures finals <= part.id && !Waits(deferred, part.shard, part.id)
    ensures var got' := got[part.shard := got[part.shard] + 1];
      && FinalOk(d, finals, got') && DeferredOk(d, l, finals, deferred, got')
        && DeferredOk(d, l, finals, deferred + {part}, got')
      && OnlyAccount(d, got, got', deferred, deferred, part)
        && OnlyAccount(d, got, got', deferred, deferred + {part}, part)
  {
    hide Fit, Routed, Piece, Route;
    var got' := got[part.shard := got[part.shard] + 1];
    forall id: nat, k: nat | id < |d.jobs| && k < d.n && k in Routed(d, id) && (id != part.id || k != part.shard)
      ensures |Route(d, k, id)| < got[k] <==> |Route(d, k, id)| < got'[k]
      ensures Waits(deferred, k, id) <==> Waits(deferred + {part}, k, id)
    {
      PopCounts(d, got, part.shard, part.id, id, k);
    }
  }

  /** An event entry carries its rank, and is one of the events before the next entry. */
  lemma EntryRank(p: Plan, t: nat)
    requires Fit(p.d) && Numbered(p) && t < |p.es| && p.es[t].EventEntry?
    ensures p.es[t].id == Events(p.es, t) < |p.d.jobs| && Events(p.es, t + 1) == Events(p.es, t) + 1
  {
    hide Fit;
  }

  /** The event of a pending entry stands nowhere else, and not behind the list. */
  lemma OnePlace(p: Plan, t: nat, u: nat)
    requires Fit(p.d) && Numbered(p) && t < |p.es| && p.es[t].EventEntry? && u < |p.es| && u != t && p.es[u].EventEntry?
    ensures p.es[u].id != p.es[t].id
  {
    hide *;
    EntryRank(p, t);
    EntryRank(p, u);
    if t < u { EventsMonotone(p.es, t + 1, u); } else { EventsMonotone(p.es, u + 1, t); }
  }

  /** A partial is added to its pending entry. */
  lemma LayerAdd(p: Plan, l: nat, base: int, ps: seq<Pending>, got: seq<nat>, got': seq<nat>, deferred: set<Partial>,
      deferred': set<Partial>,
                 part: Partial)
    requires Fit(p.d) && Additive(p.d) && Numbered(p) && l <= 1 && LayerOk(p, l, base, ps, deferred, got)
      && |got'| == p.d.n
    requires Find(ps, part.id) < |ps|
    requires part.shard < p.d.n && part.id < |p.d.jobs| && part.shard in Routed(p.d, part.id)
    requires part.value == Piece(p.d, l, part.id, part.shard)
    requires !Counted(p.d, got, deferred, part.shard, part.id) && Counted(p.d, got', deferred', part.shard, part.id)
    requires OnlyAccount(p.d, got, got', deferred, deferred', part)
    requires FinalOk(p.d, Events(p.es, base), got') && DeferredOk(p.d, l, Events(p.es, base), deferred', got')
    ensures var t := Find(ps, part.id);
      LayerOk(p, l, base, ps[t := AddPartial(p.d.net, ps[t], part)], deferred', got')
  {
    hide Fit, Routed, Piece, Pieces, Route, Additive, FinalOk, DeferredOk, EarlyOk, EntryOk, OnlyAccount, Numbered,
      Counted, AddPartial, Events;
    var t := Find(ps, part.id);
    PendingIsEvent(p, l, base, ps, got, deferred, t);
    var q := AddPartial(p.d.net, ps[t], part);
    assert EntryOk(p.d, l, got', deferred', p.es[base + t], q) by {
      assert EntryOk(p.d, l, got, deferred, p.es[base + t], ps[t]);
      MovesOnly(p.d, got, got', deferred, deferred', part, part.id);
      EntryAdds(p.d, l, got, got', deferred, deferred', p.es[base + t], ps[t], part);
    }
    Replaced(p, l, base, ps, got, got', deferred, deferred', part, t, q);
    Behind(p, base, |ps|, t);
    EarlyKeeps(p.d, Events(p.es, base + |ps|), got, got', deferred, deferred', part);
  }

  lemma Replaced(p: Plan, l: nat, base: int, ps: seq<Pending>, got: seq<nat>, got': seq<nat>, deferred: set<Partial>,
      deferred': set<Partial>,
                 part: Partial, t: nat, q: Pending)
    requires Fit(p.d) && Numbered(p) && l <= 1 && |got| == |got'| == p.d.n && PendingOk(p, l, base, ps, got, deferred)
      && t < |ps|
    requires p.es[base + t].EventEntry? && p.es[base + t].id == part.id
      && EntryOk(p.d, l, got', deferred', p.es[base + t], q)
    requires OnlyAccount(p.d, got, got', deferred, deferred', part)
    ensures PendingOk(p, l, base, ps[t := q], got', deferred')
  {
    hide Fit, Numbered, EntryOk, OnlyAccount;
    var ps' := ps[t := q];
    forall u | 0 <= u < |ps| ensures EntryOk(p.d, l, got', deferred', p.es[base + u], ps'[u]) {
      assert EntryOk(p.d, l, got, deferred, p.es[base + u], ps[u]);
      if u != t { OtherEntry(p, l, base + t, base + u, got, got', deferred, deferred', part, ps[u]); }
    }
  }

  lemma OtherEntry(p: Plan, l: nat, t: nat, u: nat, got: seq<nat>, got': seq<nat>, deferred: set<Partial>,
      deferred': set<Partial>,
                   part: Partial, q: Pending)
    requires Fit(p.d) && Numbered(p) && l <= 1 && |got| == |got'| == p.d.n && t < |p.es| && u < |p.es| && u != t
    requires p.es[t].EventEntry? && p.es[t].id == part.id && EntryOk(p.d, l, got, deferred, p.es[u], q)
    requires OnlyAccount(p.d, got, got', deferred, deferred', part)
    ensures EntryOk(p.d, l, got', deferred', p.es[u], q)
  {
    hide *;
    if p.es[u].EventEntry? {
      OnePlace(p, t, u);
      EntryRank(p, u);
      MovesOnly(p.d, got, got', deferred, deferred', part, p.es[u].id);
    }
    EntryKeeps(p.d, l, got, got', deferred, deferred', p.es[u], q);
  }

  /** The entry found for an event is that event's. */
  lemma PendingIsEvent(p: Plan, l: nat, base: int, ps: seq<Pending>, got: seq<nat>, deferred: set<Partial>, t: nat)
    requires Fit(p.d) && l <= 1 && |got| == p.d.n && PendingOk(p, l, base, ps, got, deferred) && t < |ps|
      && ps[t].PendingEvent?
    ensures p.es[base + t].EventEntry? && p.es[base + t].id == ps[t].id < |p.d.jobs|
  {
    hide Fit, Routed, Counted, Pieces, Feature, Pick;
    assert EntryOk(p.d, l, got, deferred, p.es[base + t], ps[t]);
  }

  /** Of one event, only the account of this partial changes. */
  lemma MovesOnly(d: Feed, got: seq<nat>, got': seq<nat>, deferred: set<Partial>, deferred': set<Partial>,
      part: Partial, id: nat)
    requires Fit(d) && |got| == |got'| == d.n && OnlyAccount(d, got, got', deferred, deferred', part) && id < |d.jobs|
    ensures forall k: nat :: k < d.n && k in Routed(d, id) && (id != part.id || k != part.shard) ==>
      (Counted(d, got, deferred, k, id) <==> Counted(d, got', deferred', k, id))
  {
    hide Fit, Routed, Counted;
  }

  lemma EarlyKeeps(d: Feed, known: nat, got: seq<nat>, got': seq<nat>, deferred: set<Partial>, deferred': set<Partial>,
      part: Partial)
    requires Fit(d) && |got| == |got'| == d.n && OnlyAccount(d, got, got', deferred, deferred', part) && part.id < known
    requires EarlyOk(d, known, deferred, got)
    ensures EarlyOk(d, known, deferred', got')
  {
    hide Fit, Routed, Counted;
  }

  lemma Behind(p: Plan, base: int, len: nat, t: nat)
    requires Fit(p.d) && Numbered(p) && 0 <= base && base + len <= |p.es| && t < len && p.es[base + t].EventEntry?
    ensures p.es[base + t].id < Events(p.es, base + len)
  {
    hide *;
    EntryRank(p, base + t);
    EventsMonotone(p.es, base + t + 1, base + len);
  }

  /** A popped partial is added at once ... */
  lemma LayerMatch(p: Plan, l: nat, base: int, ps: seq<Pending>, deferred: set<Partial>, got: seq<nat>, part: Partial)
    requires Fit(p.d) && Additive(p.d) && Numbered(p) && l <= 1 && LayerOk(p, l, base, ps, deferred, got)
    requires Due(p.d, l, got, part) && Find(ps, part.id) < |ps|
    ensures var t := Find(ps, part.id);
      LayerOk(p, l, base, ps[t := AddPartial(p.d.net, ps[t], part)], deferred, got[part.shard := got[part.shard] + 1])
  {
    hide Fit, Routed, Piece, Pieces, Route, Additive, FinalOk, DeferredOk, OnlyAccount, Numbered;
    PopPartial(p.d, l, Events(p.es, base), deferred, got, part);
    LayerAdd(p, l, base, ps, got, got[part.shard := got[part.shard] + 1], deferred, deferred, part);
  }

  /** ... or deferred when its entry is not there yet ... */
  lemma LayerDefer(p: Plan, l: nat, base: int, ps: seq<Pending>, deferred: set<Partial>, got: seq<nat>, part: Partial)
    requires Fit(p.d) && Numbered(p) && l <= 1 && LayerOk(p, l, base, ps, deferred, got)
    requires Due(p.d, l, got, part) && Find(ps, part.id) == |ps|
    ensures LayerOk(p, l, base, ps, deferred + {part}, got[part.shard := got[part.shard] + 1])
  {
    hide Fit, Routed, Piece, Pieces, Route, FinalOk, DeferredOk, Numbered, Counted;
    PopPartial(p.d, l, Events(p.es, base), deferred, got, part);
    var got', deferred' := got[part.shard := got[part.shard] + 1], deferred + {part};
    assert !Counted(p.d, got', deferred', part.shard, part.id) by { WaitsNow(p.d, got', deferred, part); }
    forall u | 0 <= u < |ps| ensures EntryOk(p.d, l, got', deferred', p.es[base + u], ps[u]) {
      assert EntryOk(p.d, l, got, deferred, p.es[base + u], ps[u]);
      EntryKeeps(p.d, l, got, got', deferred, deferred', p.es[base + u], ps[u]);
    }
  }

  lemma WaitsNow(d: Feed, got: seq<nat>, deferred: set<Partial>, part: Partial)
    requires Fit(d) && |got| == d.n && part.shard < d.n && part.id < |d.jobs|
    ensures !Counted(d, got, deferred + {part}, part.shard, part.id)
  {
    assert part in deferred + {part};
  }

  /** ... and added later. */
  lemma LayerRetry(p: Plan, l: nat, base: int, ps: seq<Pending>, deferred: set<Partial>, got: seq<nat>, part: Partial)
    requires Fit(p.d) && Additive(p.d) && Numbered(p) && l <= 1 && LayerOk(p, l, base, ps, deferred, got)
    requires part in deferred && Find(ps, part.id) < |ps|
    ensures var t := Find(ps, part.id);
      LayerOk(p, l, base, ps[t := AddPartial(p.d.net, ps[t], part)], deferred - {part}, got)
  {
    hide Fit, Routed, Piece, Pieces, Route, Additive, Numbered, PendingOk;
    var deferred' := deferred - {part};
    assert Waits(deferred, part.shard, part.id);
    forall q | q in deferred && q.shard == part.shard && q.id == part.id ensures q == part {}
    assert !Waits(deferred', part.shard, part.id);
    forall id: nat, k: nat | id != part.id || k != part.shard
      ensures Waits(deferred, k, id) <==> Waits(deferred', k, id)
    {
      if q :| q in deferred && q.shard == k && q.id == id { assert q in deferred'; }
    }
    LayerAdd(p, l, base, ps, got, got, deferred, deferred', part);
  }
}
