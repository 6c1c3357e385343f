/** Runs of the sharded scheme: any interleaving, from the start. */
module S3Runs {
  import opened Geometry
  import opened Ownership
  import opened ShardedLayer
  import opened Rings
  import opened S3Machine
  import opened S3Invariant
  import opened S3Steps
  import opened S3SumSteps

  /** The steps, each enabled where it is taken, lead from s to t. */
  ghost predicate Leads(c: Config, s: Sys, steps: seq<Step>, t: Sys)
    decreases |steps|
  {
    if steps == [] then s == t
    else Sane(c, s) && Enabled(c, s, steps[0]) && Leads(c, Apply(c, s, steps[0]), steps[1..], t)
  }

  lemma StartRow(d: Feed, l: nat, shards: seq<Shard>, sent: seq<int>)
    requires Fit(d) && l <= 1 && |shards| == |sent| == d.n
    requires forall k :: 0 <= k < d.n ==> shards[k] == EmptyShard() && sent[k] == 0
    ensures RowOk(d, l, shards, sent)
  {
    hide Fit;
    forall k | 0 <= k < d.n ensures ShardOk(d, l, k, shards[k], sent[k]) {
      assert Route(d, k, 0) == [];
    }
  }

  lemma StartPlane(d: Feed, l: nat, shards: seq<Shard>)
    requires Fit(d) && l <= 1 && |shards| == d.n
    requires forall k :: 0 <= k < d.n ==> shards[k] == EmptyShard()
    ensures PlaneOk(d, l, d.start.Get(l), Done(shards, l))
  {
    var h := d.start.Get(l);
    forall cell: Cell ensures CellOk(d, l, h, Done(shards, l), cell) {
      var col := if d.net.layers(l).wide then cell.x else cell.x + 1;
      ShardMonotone(col, col, d.net.grid.w, d.n);
    }
  }

  lemma StartInv(c: Config, p: Plan)
    requires Ready(c, p)
    ensures Inv(c, p, Start(c))
  {
    var s := Start(c);
    StartRow(p.d, 0, s.shards, Sent0(c.n, 0, None));
    StartRow(p.d, 1, s.shards, Sent1(c.n, 0, []));
    StartPlane(p.d, 0, s.shards);
    StartPlane(p.d, 1, s.shards);
    hide Additive, PlaneOk, RowOk, Routed;
  }

  /** Every step of every thread keeps the invariant. */
  lemma StepInv(c: Config, p: Plan, s: Sys, st: Step)
    requires Ready(c, p) && Inv(c, p, s) && Enabled(c, s, st)
    ensures Inv(c, p, Apply(c, s, st))
  {
    hide Fit, Numbered, Additive, PlanOf, Inv, Apply;
    match st
    case SkipEvent => StepSkip(c, p, s);
    case PushEvent => StepPushEvent(c, p, s);
    case PushMarker => StepPushMarker(c, p, s);
    case PushWork => StepPushWork(c, p, s);
    case PassWait => StepWait(c, p, s);
    case Compute(k, l) => StepCompute(c, p, s, k, l);
    case Emit(k) => StepEmit(c, p, s, k);
    case DrainMeta => StepDrainMeta(c, p, s);
    case DrainPartial(k, l) => StepDrainPartial(c, p, s, k, l);
    case Retry(l, part) => StepRetry(c, p, s, l, part);
    case Cascade(l) => if l == 0 { StepCascade0(c, p, s); } else { StepCascade1(c, p, s); }
    case Deliver(k) => StepDeliver(c, p, s, k);
    case Retire => StepRetire(c, p, s);
    case Ship => StepShip(c, p, s);
    case Consume => StepConsume(c, p, s);
  }

  lemma {:induction false} RunInv(c: Config, p: Plan, s: Sys, steps: seq<Step>, t: Sys)
    requires Ready(c, p) && Inv(c, p, s) && Leads(c, s, steps, t)
    ensures Inv(c, p, t)
    decreases |steps|
  {
    hide Ready, Inv, Enabled, Apply;
    if steps == [] {
    } else {
      StepInv(c, p, s, steps[0]);
      RunInv(c, p, Apply(c, s, steps[0]), steps[1..], t);
    }
  }

  /** A run and one more step. */
  lemma {:induction false} LeadsAppend(c: Config, a: Sys, steps: seq<Step>, b: Sys, st: Step)
    requires Leads(c, a, steps, b) && Sane(c, b) && Enabled(c, b, st)
    ensures Leads(c, a, steps + [st], Apply(c, b, st))
    decreases |steps|
  {
    hide Enabled, Apply, Sane;
    if steps == [] {
      assert steps + [st] == [st];
    } else {
      LeadsAppend(c, Apply(c, a, steps[0]), steps[1..], b, st);
      assert (steps + [st])[1..] == steps[1..] + [st];
    }
  }
}
