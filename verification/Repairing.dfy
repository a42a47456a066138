/** Which changes of a stale item repair it: other words, other dependencies, or a
    claim held with less certainty than before. */
module Repairing {
  import opened Records
  import opened Characters
  import opened Staleness
  import opened Claims
  import opened Harness
  import opened Past

  // ------------------------------------------------------------------ words

  predicate Wordlike(word: string) {
    word != "" && forall i :: 0 <= i < |word| ==> !IsSpace(word[i])
  }

  /** Three facts that leave no other way to read a text: no text has no words, a
      word is itself, and any blank parts what is before it from what is after. */
  lemma NoWords()
    ensures Words("") == []
  {
  }

  lemma {:induction false} WordsFrom(text: string, word: string)
    requires forall i :: 0 <= i < |text| ==> !IsSpace(text[i])
    ensures Words(text, word) == if word + text == "" then [] else [word + text]
  {
    if text != "" {
      WordsFrom(text[1..], word + [text[0]]);
      assert word + [text[0]] + text[1..] == word + text;
    } else {
      assert word + text == word;
    }
  }

  lemma {:induction false} OneWord(word: string)
    requires Wordlike(word)
    ensures Words(word) == [word]
  {
    WordsFrom(word, "");
    assert "" + word == word;
  }

  lemma {:induction false} BlankParts(before: string, blank: char, after: string, word: string := "")
    requires IsSpace(blank)
    ensures Words(before + [blank] + after, word) == Words(before, word) + Words(after)
  {
    var text := before + [blank] + after;
    if before == "" {
      assert text[0] == blank && text[1..] == after;
    } else {
      assert text[0] == before[0] && text[1..] == before[1..] + [blank] + after;
      BlankParts(before[1..], blank, after, if IsSpace(before[0]) then "" else word + [before[0]]);
    }
  }

  // ----------------------------------------------------------------- change

  /** grounded > hypothesis > unresolved */
  function Strength(s: Standing): nat {
    match s
    case Grounded => 2
    case Hypothesis => 1
    case _ => 0
  }

  /** Both are claims, and the later is held with less certainty. */
  predicate Lowered(a: Item, b: Item) {
    a.ClaimItem? && b.ClaimItem? && Strength(b.claim.standing) < Strength(a.claim.standing)
  }

  function WordingOf(x: Item): seq<string> {
    match x
    case ClaimItem(c) => Words(c.text)
    case StepItem(s) => Words(s.action)
  }

  /** Another wording, other dependencies, or another kind of item. */
  predicate Rewritten(a: Item, b: Item) {
    || WordingOf(a) != WordingOf(b)
    || a.ClaimItem? != b.ClaimItem?
    || (a.StepItem? && b.StepItem? && multiset(a.step.dependsOn) != multiset(b.step.dependsOn))
  }

  predicate Standing3(x: Item) {
    x.ClaimItem? ==> ClaimSound(x.claim)
  }

  /** What counts as a repair of an item is that it is rewritten, or lowered. */
  lemma SubstantiveExactly(a: Item, b: Item)
    requires Standing3(a) && Standing3(b)
    ensures Substantive(a, b) <==> Rewritten(a, b) || Lowered(a, b)
  {
    hide Words;
  }

  /** A status kept or raised never repairs a claim that says the same. */
  lemma RaisingNeverRepairs(a: Claim, b: Claim)
    requires Words(a.text) == Words(b.text) && Strength(a.standing) <= Strength(b.standing)
    ensures !Substantive(ClaimItem(a), ClaimItem(b))
  {
    hide Words;
  }

  /** Each of the three ways down does, whatever the wording. */
  lemma LoweringRepairs(a: Claim, b: Claim)
    requires || (a.standing.Grounded? && b.standing.Hypothesis?)
             || (a.standing.Grounded? && b.standing.Undecided?)
             || (a.standing.Hypothesis? && b.standing.Undecided?)
    ensures Substantive(ClaimItem(a), ClaimItem(b))
  {
    hide Words;
  }

  /** The stale items are gone, rewritten or lowered. */
  ghost predicate Mends(before: Model, after: Model, stale: set<ItemId>) {
    forall id :: id in stale && ItemOf(before, id).Some? && ItemOf(after, id).Some? ==>
      Rewritten(ItemOf(before, id).value, ItemOf(after, id).value)
      || Lowered(ItemOf(before, id).value, ItemOf(after, id).value)
  }

  lemma SoundItem(m: Model, id: ItemId)
    requires ModelSound(m) && ItemOf(m, id).Some?
    ensures Standing3(ItemOf(m, id).value)
  {
    hide ClaimSound, StepSound;
  }

  lemma MendsExactly(before: Model, after: Model, stale: set<ItemId>)
    requires ModelSound(before) && ModelSound(after)
    ensures Repairs(before, after, stale) <==> Mends(before, after, stale)
  {
    hide ItemOf, Substantive, Rewritten, Lowered, ModelSound;
    forall id | id in stale && ItemOf(before, id).Some? && ItemOf(after, id).Some?
      ensures Substantive(ItemOf(before, id).value, ItemOf(after, id).value) <==>
              Rewritten(ItemOf(before, id).value, ItemOf(after, id).value)
              || Lowered(ItemOf(before, id).value, ItemOf(after, id).value)
    {
      SoundItem(before, id);
      SoundItem(after, id);
      SubstantiveExactly(ItemOf(before, id).value, ItemOf(after, id).value);
    }
  }

  /** When a revision of a stale case is accepted: the mismatch is addressed, the
      change is owned to be consequential, and every stale item is gone, rewritten or
      lowered. Of a case that is not stale nothing of the kind is asked. */
  lemma RevisionMendsExactly(c: Case, events: seq<Event>, session: Session, m: Model, addresses: set<nat>,
                             consequential: bool)
    requires c.status.Active? && c.session == session && session != "" && c.probe.None? && ModelSound(c.model)
    requires AcceptsModel(PreserveAuthorities(c.model, m), RevisionContext(events))
    ensures var next := NormalModel(PreserveAuthorities(c.model, m), RevisionContext(events));
            PlanRevise(c, events, session, m, addresses, consequential).Some? <==>
              && next != c.model
              && (c.stale ==> && c.mismatch.Some? && c.mismatch.value in addresses && consequential
                              && Mends(c.model, next, c.staleIds))
  {
    hide AcceptsModel, NormalModel, PreserveAuthorities, RevisionContext, ModelSound, Repairs, Mends;
    var kept, ctx := PreserveAuthorities(c.model, m), RevisionContext(events);
    AcceptedSound(kept, ctx);
    MendsExactly(c.model, NormalModel(kept, ctx), c.staleIds);
  }
}
