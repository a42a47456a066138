/** How far a mismatch reaches: the stale items are those that depend, step by step,
    on what was affected, and a comparison of a claim stays within its own reach. */
module Reach {
  import opened Wrappers
  import opened Records
  import opened Staleness
  import opened Claims
  import opened Harness
  import opened Grounding

  /** A named step of the plan rests directly on an item. */
  predicate RestsOn(plan: seq<Step>, id: ItemId, on: ItemId) {
    id != "" && exists step :: step in plan && step.id == id && on in step.dependsOn
  }

  /** Each item of the chain rests on the one before it. */
  ghost predicate Chain(plan: seq<Step>, chain: seq<ItemId>) {
    && chain != []
    && forall k :: 0 <= k < |chain| - 1 ==> RestsOn(plan, chain[k + 1], chain[k])
  }

  /** Some chain of dependencies leads from one of `affected` to the item. */
  ghost predicate Reaches(plan: seq<Step>, affected: set<ItemId>, id: ItemId) {
    exists chain :: Chain(plan, chain) && chain[0] in affected && chain[|chain| - 1] == id
  }

  lemma {:induction false} ChainWithin(plan: seq<Step>, stale: set<ItemId>, chain: seq<ItemId>)
    requires Staleness.Closed(plan, stale) && Chain(plan, chain) && chain[0] in stale
    ensures chain[|chain| - 1] in stale
  {
    if |chain| > 1 {
      var n := |chain| - 1;
      var rest := chain[..n];
      assert Chain(plan, rest) by {
        forall k | 0 <= k < |rest| - 1 ensures RestsOn(plan, rest[k + 1], rest[k]) {
          assert RestsOn(plan, chain[k + 1], chain[k]);
        }
      }
      ChainWithin(plan, stale, rest);
      assert RestsOn(plan, chain[n - 1 + 1], chain[n - 1]);
      var step :| step in plan && step.id == chain[n] && chain[n - 1] in step.dependsOn;
      var k :| 0 <= k < |plan| && plan[k] == step;
      assert DependsOn(plan[k], stale);
    }
  }

  lemma ReachGrows(plan: seq<Step>, affected: set<ItemId>, on: ItemId, id: ItemId)
    requires Reaches(plan, affected, on) && RestsOn(plan, id, on)
    ensures Reaches(plan, affected, id)
  {
    hide RestsOn;
    var chain :| Chain(plan, chain) && chain[0] in affected && chain[|chain| - 1] == on;
    var more := chain + [id];
    forall k | 0 <= k < |more| - 1 ensures RestsOn(plan, more[k + 1], more[k]) {
      if k < |chain| - 1 {
        assert RestsOn(plan, chain[k + 1], chain[k]);
      }
    }
    assert Chain(plan, more) && more[0] in affected && more[|more| - 1] == id;
  }

  lemma ReachStarts(plan: seq<Step>, affected: set<ItemId>, id: ItemId)
    requires id in affected
    ensures Reaches(plan, affected, id)
  {
    assert Chain(plan, [id]);
  }

  lemma ReachedIsStale(plan: seq<Step>, affected: set<ItemId>, stale: set<ItemId>, id: ItemId)
    requires Staleness.Closed(plan, stale) && affected <= stale && Reaches(plan, affected, id)
    ensures id in stale
  {
    var chain :| Chain(plan, chain) && chain[0] in affected && chain[|chain| - 1] == id;
    ChainWithin(plan, stale, chain);
  }

  lemma {:induction false} StaleIsReached(plan: seq<Step>, affected: set<ItemId>, id: ItemId)
    requires id in StaleClosure(plan, affected)
    ensures Reaches(plan, affected, id)
  {
    hide Reaches;
    var stale := StaleClosure(plan, affected);
    var reached := set x | x in stale && Reaches(plan, affected, x);
    forall x | x in affected ensures x in reached {
      ReachStarts(plan, affected, x);
    }
    forall k | 0 <= k < |plan| && plan[k].id != "" && DependsOn(plan[k], reached) ensures plan[k].id in reached {
      var on :| on in plan[k].dependsOn && on in reached;
      assert RestsOn(plan, plan[k].id, on);
      ReachGrows(plan, affected, on, plan[k].id);
      assert DependsOn(plan[k], stale);
    }
    assert Staleness.Closed(plan, reached);
  }

  /** The expansion of what a mismatch affects is what chains of dependencies reach. */
  lemma {:induction false} ClosureIsReach(plan: seq<Step>, affected: set<ItemId>)
    ensures forall id :: id in StaleClosure(plan, affected) <==> Reaches(plan, affected, id)
  {
    hide Reaches, StaleClosure;
    forall id ensures id in StaleClosure(plan, affected) <==> Reaches(plan, affected, id) {
      if id in StaleClosure(plan, affected) {
        StaleIsReached(plan, affected, id);
      }
      if Reaches(plan, affected, id) {
        ReachedIsStale(plan, affected, StaleClosure(plan, affected), id);
      }
    }
  }

  /** What is named within the reach of an item reaches no further than the item. */
  lemma {:induction false} WithinReach(plan: seq<Step>, g: ItemId, affected: set<ItemId>)
    requires g in affected && forall id :: id in affected ==> Reaches(plan, {g}, id)
    ensures StaleClosure(plan, affected) == StaleClosure(plan, {g})
  {
    hide Reaches;
    ClosureIsReach(plan, {g});
    assert affected <= StaleClosure(plan, {g});
    assert {g} <= StaleClosure(plan, affected);
  }

  // ------------------------------------------------------------- comparison

  lemma {:induction false} StepKnown(plan: seq<Step>, id: ItemId)
    ensures StepNamed(plan, id).Some? <==> id in StepIds(plan)
  {
    if plan != [] {
      var n := |plan| - 1;
      StepKnown(plan[..n], id);
      assert StepIds(plan) == StepIds(plan[..n]) + [plan[n].id];
    }
  }

  lemma {:induction false} ClaimKnown(claims: seq<Claim>, id: ItemId)
    ensures ClaimNamed(claims, id).Some? <==> id in ClaimIds(claims)
  {
    if claims != [] {
      var n := |claims| - 1;
      ClaimKnown(claims[..n], id);
      assert ClaimIds(claims) == ClaimIds(claims[..n]) + [claims[n].id];
    }
  }

  /** An item is found exactly if some claim or step bears the id. */
  lemma ItemKnown(m: Model, id: ItemId)
    ensures ItemOf(m, id).Some? <==> id in ItemIds(m)
  {
    StepKnown(m.plan, id);
    ClaimKnown(Sections(m), id);
  }

  /** What a comparison says it affects: what it names, or else the claim probed. */
  predicate Affects(probe: Probe, named: Option<seq<ItemId>>, id: ItemId) {
    match named
    case Some(ids) => id in ids
    case None => probe.claim == Some(id)
  }

  /** The descriptor goes with the probe: there is one for a success of an external
      source, of an external source too, and always of the probe's own group. */
  predicate DescriptorGoes(probe: Probe, d: Option<Descriptor>) {
    && (probe.authority.ExternalSource? && probe.shown.Success? ==> d.Some?)
    && (d.Some? && probe.authority.ExternalSource? ==> d.value.authority.ExternalSource?)
    && (d.Some? ==> External(d.value.authority) == External(probe.authority))
  }

  /** Exactly when a comparison is accepted. One of a probe bound to a claim names that
      claim, and beside it only what rests on it. */
  lemma ComparisonExactly(c: Case, session: Session, verdict: Verdict, material: bool, named: Option<seq<ItemId>>,
                          d: Option<Descriptor>)
    ensures PlanCompare(c, session, verdict, material, named, d).Some? <==>
              && c.status.Active? && c.session == session && session != ""
              && c.probe.Some? && c.probe.value.status.Observed?
              && (forall id :: Affects(c.probe.value, named, id) ==> id in ItemIds(c.model))
              && (c.probe.value.claim.Some? ==>
                    && Affects(c.probe.value, named, c.probe.value.claim.value)
                    && forall id :: Affects(c.probe.value, named, id) ==>
                         Reaches(c.model.plan, {c.probe.value.claim.value}, id))
              && (verdict.Mismatch? && material ==> exists id :: Affects(c.probe.value, named, id))
              && DescriptorGoes(c.probe.value, d)
  {
    hide ItemIds, ItemOf, Reaches, StaleClosure, LeastClosed;
    if c.probe.Some? {
      var probe := c.probe.value;
      var affected := AffectedOf(probe, named);
      forall id ensures Affects(probe, named, id) <==> id in affected {
      }
      forall id ensures ItemOf(c.model, id).Some? <==> id in ItemIds(c.model) {
        ItemKnown(c.model, id);
      }
      if probe.claim.Some? {
        ClosureIsReach(c.model.plan, {probe.claim.value});
      }
      GoesWith(probe, d);
      assert affected != [] <==> exists id :: Affects(probe, named, id) by {
        if affected != [] {
          assert Affects(probe, named, affected[0]);
        }
      }
    }
  }

  lemma GoesWith(probe: Probe, d: Option<Descriptor>)
    ensures DescriptorOk(probe, d) <==> DescriptorGoes(probe, d)
  {
  }

  /** What it leaves: a material mismatch makes stale exactly what rests on what it
      affects, and of a claim probed exactly what rests on that claim; any other
      comparison leaves the case as it was, but for the probe. */
  lemma ComparisonLeaves(c: Case, session: Session, verdict: Verdict, material: bool, named: Option<seq<ItemId>>,
                         d: Option<Descriptor>)
    requires PlanCompare(c, session, verdict, material, named, d).Some?
    ensures var n := PlanCompare(c, session, verdict, material, named, d).value.state;
            && c.probe.Some?
            && (!(verdict.Mismatch? && material) ==> n == c.(probe := None))
            && (verdict.Mismatch? && material ==> n == c.(probe := None, stale := true, staleIds := n.staleIds))
            && (verdict.Mismatch? && material ==>
                  forall id :: id in n.staleIds <==>
                    Reaches(c.model.plan, if c.probe.value.claim.Some? then {c.probe.value.claim.value}
                                          else SetOf(AffectedOf(c.probe.value, named)), id))
  {
    hide ItemOf, Reaches, StaleClosure, LeastClosed, DescriptorOk;
    var plan, probe := c.model.plan, c.probe.value;
    var affected := SetOf(AffectedOf(probe, named));
    ClosureIsReach(plan, affected);
    if probe.claim.Some? {
      ClosureIsReach(plan, {probe.claim.value});
      WithinReach(plan, probe.claim.value, affected);
    }
  }
}
