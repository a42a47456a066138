/** Which model items a material mismatch makes stale, and when a revision has
    really changed one of them. */
module Staleness {
  import opened Wrappers
  import opened Records
  import opened Characters

  predicate DependsOn(step: Step, stale: set<ItemId>) {
    exists d :: d in step.dependsOn && d in stale
  }

  /** Every named plan step that depends on a stale item is stale. */
  ghost predicate Closed(plan: seq<Step>, stale: set<ItemId>) {
    forall k :: 0 <= k < |plan| && plan[k].id != "" && DependsOn(plan[k], stale) ==> plan[k].id in stale
  }

  /** The least set that holds `affected` and is closed under plan dependency. */
  ghost predicate LeastClosed(plan: seq<Step>, affected: set<ItemId>, stale: set<ItemId>) {
    && affected <= stale && Closed(plan, stale)
    && forall other :: affected <= other && Closed(plan, other) ==> stale <= other
  }

  lemma LeastUnique(plan: seq<Step>, affected: set<ItemId>, a: set<ItemId>, b: set<ItemId>)
    requires LeastClosed(plan, affected, a) && LeastClosed(plan, affected, b)
    ensures a == b
  {
  }

  function PlanIds(plan: seq<Step>): set<ItemId> {
    set k | 0 <= k < |plan| :: plan[k].id
  }

  /** The expansion by fixpoint iteration, for any plan order and for cyclic
      plans: a pass that changes nothing ends it, every other pass uses up at
      least one plan step. */
  method ExpandStale(plan: seq<Step>, affected: set<ItemId>) returns (stale: set<ItemId>)
    ensures LeastClosed(plan, affected, stale)
    ensures stale == StaleClosure(plan, affected)
  {
    stale := affected;
    var changed := true;
    while changed
      invariant affected <= stale
      invariant forall other :: affected <= other && Closed(plan, other) ==> stale <= other
      invariant !changed ==> Closed(plan, stale)
      decreases |PlanIds(plan) - stale|, changed
    {
      changed := false;
      ghost var before := stale;
      for k := 0 to |plan|
        invariant before <= stale
        invariant forall other :: affected <= other && Closed(plan, other) ==> stale <= other
        invariant !changed ==> stale == before
        invariant !changed ==>
                    forall i :: 0 <= i < k && plan[i].id != "" && DependsOn(plan[i], stale) ==> plan[i].id in stale
        invariant changed ==> |PlanIds(plan) - stale| < |PlanIds(plan) - before|
      {
        var step := plan[k];
        if step.id != "" && step.id !in stale && DependsOn(step, stale) {
          forall other | affected <= other && Closed(plan, other) ensures stale + {step.id} <= other {
            assert DependsOn(step, other) by {
              var d :| d in step.dependsOn && d in stale;
              assert d in other;
            }
          }
          Shrinks(PlanIds(plan), stale, step.id);
          stale := stale + {step.id};
          changed := true;
        }
      }
    }
    LeastUnique(plan, affected, stale, StaleClosure(plan, affected));
  }

  lemma Shrinks(ids: set<ItemId>, stale: set<ItemId>, id: ItemId)
    requires id in ids && id !in stale
    ensures |ids - (stale + {id})| < |ids - stale|
  {
    assert ids - stale == (ids - (stale + {id})) + {id};
  }

  /** The expansion as a function, for specifications. */
  ghost function StaleClosure(plan: seq<Step>, affected: set<ItemId>): (stale: set<ItemId>)
    ensures LeastClosed(plan, affected, stale)
    decreases |PlanIds(plan) - affected|
  {
    if k: nat :| k < |plan| && plan[k].id != "" && plan[k].id !in affected && DependsOn(plan[k], affected) then
      Shrinks(PlanIds(plan), affected, plan[k].id);
      var stale := StaleClosure(plan, affected + {plan[k].id});
      ClosureStep(plan, affected, plan[k], stale);
      stale
    else affected
  }

  lemma ClosureStep(plan: seq<Step>, affected: set<ItemId>, step: Step, stale: set<ItemId>)
    requires step in plan && step.id != "" && DependsOn(step, affected)
    requires LeastClosed(plan, affected + {step.id}, stale)
    ensures LeastClosed(plan, affected, stale)
  {
    forall other | affected <= other && Closed(plan, other) ensures stale <= other {
      assert DependsOn(step, other) by {
        var d :| d in step.dependsOn && d in affected;
        assert d in other;
      }
      assert affected + {step.id} <= other;
    }
  }

  // ------------------------------------------------------ substantive change

  datatype Item = ClaimItem(claim: Claim) | StepItem(step: Step)

  function Sections(m: Model): seq<Claim> {
    m.grounding + m.mechanisms + m.alternatives
  }

  /** The words of a text; joined by single blanks they are its normalised wording. */
  function Words(text: string, word: string := ""): seq<string> {
    var done := if word == "" then [] else [word];
    if text == "" then done
    else if IsSpace(text[0]) then done + Words(text[1..], "")
    else Words(text[1..], word + [text[0]])
  }

  /** What a revision of an item must change to count: wording, and for a step
      also what it depends on. */
  predicate SameSubstance(a: Item, b: Item) {
    match (a, b)
    case (ClaimItem(x), ClaimItem(y)) => Words(x.text) == Words(y.text)
    case (StepItem(x), StepItem(y)) => Words(x.action) == Words(y.action)
                                       && multiset(x.dependsOn) == multiset(y.dependsOn)
    case _ => false
  }

  predicate TowardUncertainty(before: Standing, after: Standing) {
    (before.Grounded? && (after.Hypothesis? || after.Undecided?)) || (before.Hypothesis? && after.Undecided?)
  }

  predicate Substantive(a: Item, b: Item) {
    || !SameSubstance(a, b)
    || (a.ClaimItem? && b.ClaimItem? && TowardUncertainty(a.claim.standing, b.claim.standing))
  }

  /** The item that bears `id`; plan steps come last and win. */
  function ItemOf(m: Model, id: ItemId): Option<Item> {
    match StepNamed(m.plan, id)
    case Some(step) => Some(StepItem(step))
    case None =>
      match ClaimNamed(Sections(m), id)
      case Some(claim) => Some(ClaimItem(claim))
      case None => None
  }

  function StepNamed(plan: seq<Step>, id: ItemId): (r: Option<Step>)
    ensures r.Some? ==> r.value in plan && r.value.id == id
  {
    if plan == [] then None
    else if plan[|plan| - 1].id == id then Some(plan[|plan| - 1])
    else StepNamed(plan[..|plan| - 1], id)
  }

  function ClaimNamed(claims: seq<Claim>, id: ItemId): (r: Option<Claim>)
    ensures r.Some? ==> r.value in claims && r.value.id == id
  {
    if claims == [] then None
    else if claims[|claims| - 1].id == id then Some(claims[|claims| - 1])
    else ClaimNamed(claims[..|claims| - 1], id)
  }

  /** Every stale item is gone from the new model or really changed in it. */
  ghost predicate Repairs(before: Model, after: Model, stale: set<ItemId>) {
    forall id :: id in stale && ItemOf(before, id).Some? && ItemOf(after, id).Some? ==>
      Substantive(ItemOf(before, id).value, ItemOf(after, id).value)
  }
}
