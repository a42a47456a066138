/** What each grade of a case means, in terms of its claims and of what they cite. */
module Grading {
  import opened Wrappers
  import opened Records
  import opened Staleness
  import opened Provenance
  import opened Claims
  import opened Calibration
  import opened Observations

  // ------------------------------------------------------------ one citation

  predicate SearchAt(tool: string, i: nat) {
    i + 6 <= |tool| && Lower(tool[i..i + 6]) == "search"
  }

  /** Somewhere the tool's name has the word, in any case. */
  predicate NamesSearch(tool: string) {
    exists i :: 0 <= i <= |tool| && SearchAt(tool, i)
  }

  lemma {:induction false} MentionsIsNames(tool: string)
    ensures MentionsSearch(tool) <==> NamesSearch(tool)
  {
    if |tool| >= 6 {
      MentionsIsNames(tool[1..]);
      assert tool[0..6] == tool[..6];
      assert SearchAt(tool, 0) <==> Lower(tool[..6]) == "search";
      forall i: nat | i < |tool| ensures SearchAt(tool[1..], i) <==> SearchAt(tool, i + 1) {
        if i + 7 <= |tool| {
          assert tool[1..][i..i + 6] == tool[i + 1..i + 1 + 6];
        }
      }
      if i :| 0 <= i <= |tool| && SearchAt(tool, i) && i > 0 {
        assert SearchAt(tool[1..], i - 1);
      }
    }
  }

  lemma {:induction false} LowerIs(text: string, i: nat)
    requires i < |text|
    ensures |Lower(text)| == |text|
    ensures Lower(text)[i] == if 'A' <= text[i] <= 'Z' then 'a' + (text[i] - 'A') else text[i]
  {
    if i > 0 {
      LowerIs(text[1..], i - 1);
    } else {
      LowerLength(text);
    }
  }

  lemma {:induction false} LowerLength(text: string)
    ensures |Lower(text)| == |text|
  {
    if text != "" {
      LowerLength(text[1..]);
    }
  }

  /** The source was seen in part only: its summary, or a passage out of it. */
  predicate SeenInPart(d: Descriptor) {
    d.scope == Some(Snippet) || d.scope == Some(Abstract)
  }

  /** The event with this number is an observation by a tool that searches. */
  predicate Searched(events: seq<Event>, n: nat) {
    1 <= n <= |events| && IsObservation(events[n - 1].body.entry) && NamesSearch(events[n - 1].body.entry.tool)
  }

  /** The evidence was really obtained: declared or recorded, or a probe's whose
      observation is good along its recorded links. */
  predicate Obtained(events: seq<Event>, n: nat)
    requires 1 <= n <= |events|
  {
    match events[n - 1].body.entry
    case InitialObservation(_) => true
    case EvidenceRecorded(_) => true
    case ProbeObserved(_, _, _, _, _) => RecordedVerdict(events, n - 1).Good?
    case ProbeExposed(_, _, _, _, _) => RecordedVerdict(events, n - 1).Good?
    case ProbeCompared(_, o, _, _, _, _, _) =>
      o.Some? && 1 <= o.value <= |events| && RecordedVerdict(events, o.value - 1).Good?
    case _ => false
  }

  /** It says only where to look: the source was seen in part, or just searched for. */
  predicate LeadOnly(events: seq<Event>, n: nat)
    requires 1 <= n <= |events|
  {
    match events[n - 1].body.entry
    case InitialObservation(d) => SeenInPart(d)
    case EvidenceRecorded(d) => SeenInPart(d)
    case ProbeObserved(_, _, _, _, _) => Searched(events, n)
    case ProbeExposed(_, _, _, _, _) => Searched(events, n)
    case ProbeCompared(_, o, _, _, _, _, d) => (o.Some? && Searched(events, o.value))
                                               || (d.Some? && SeenInPart(d.value))
    case _ => false
  }

  lemma {:induction false} ObtainedExactly(events: seq<Event>, n: nat)
    requires Recorded(events) && (forall k :: 0 <= k < |events| ==> events[k].body.id == k + 1)
    requires 1 <= n <= |events| && IsProbeEvidence(events[n - 1].body.entry)
    ensures n in EventsById(events) && EventsById(events)[n] == events[n - 1].body.entry
    ensures WorthOf(n, EventsById(events)).Good? <==> Obtained(events, n)
  {
    EventsByIdAt(events);
    hide EventsById, Resolve, ProbeAuthorities;
    assert RecordAt(events, n - 1);
    var e := events[n - 1].body.entry;
    if e.ProbeCompared? {
      ResolveFollowsRecord(events, e.observation.value - 1, ProbeNamed(e.probe), {});
    } else {
      ResolveFollowsRecord(events, n - 1, ProbeNamed(e.probe), {});
    }
  }

  lemma {:induction false} LeadExactly(events: seq<Event>, n: nat)
    requires forall k :: 0 <= k < |events| ==> events[k].body.id == k + 1
    requires 1 <= n <= |events| && IsEvidence(events[n - 1].body.entry)
    ensures var m := EventsById(events);
            && n in m && m[n] == events[n - 1].body.entry
            && ((FromSearch(n, m) || ScopeOf(m[n]) == Some(Snippet) || ScopeOf(m[n]) == Some(Abstract))
                <==> LeadOnly(events, n))
  {
    EventsByIdAt(events);
    hide EventsById, NamesSearch, MentionsSearch;
    var e := events[n - 1].body.entry;
    if e.ProbeCompared? && e.observation.Some? && 1 <= e.observation.value <= |events|
       && IsObservation(events[e.observation.value - 1].body.entry) {
      MentionsIsNames(events[e.observation.value - 1].body.entry.tool);
    } else if IsObservation(e) {
      MentionsIsNames(e.tool);
    }
  }

  /** What a citation of evidence contributes. */
  lemma {:induction false} SupportIs(events: seq<Event>, n: nat)
    requires Recorded(events) && (forall k :: 0 <= k < |events| ==> events[k].body.id == k + 1)
    requires 1 <= n <= |events| && IsEvidence(events[n - 1].body.entry)
    ensures var s := SupportOf(n, EventsById(events));
            && (s.Direct? <==> Obtained(events, n) && !LeadOnly(events, n))
            && (s.Lead? <==> Obtained(events, n) && LeadOnly(events, n))
  {
    hide EventsById, FromSearch, LeadOnly, WorthOf, Recorded;
    LeadExactly(events, n);
    if IsProbeEvidence(events[n - 1].body.entry) {
      ObtainedExactly(events, n);
    }
  }

  // --------------------------------------------------------------- one claim

  /** The claim cites evidence obtained at its source ... */
  ghost predicate HasDirect(c: Claim, events: seq<Event>) {
    exists n :: 1 <= n <= |events| && EventRef(n) in c.refs && Obtained(events, n) && !LeadOnly(events, n)
  }

  /** ... or evidence obtained that only leads there. */
  ghost predicate HasLead(c: Claim, events: seq<Event>) {
    exists n :: 1 <= n <= |events| && EventRef(n) in c.refs && Obtained(events, n) && LeadOnly(events, n)
  }

  lemma {:induction false} CitesEvidence(model: Model, events: seq<Event>, c: Claim, id: nat)
    requires ModelInv(model, events) && (forall k :: 0 <= k < |events| ==> events[k].body.id == k + 1)
    requires c in Sections(model) && id in Cited(c)
    ensures EventRef(id) in c.refs && 1 <= id <= |events| && IsEvidence(events[id - 1].body.entry)
  {
    hide EventAuthorities, ModelInv;
    ModelClaims(model, events, c);
    var r :| r in c.refs && r.EventRef? && r.id == id;
    CitedIsEvidence(events, id);
  }

  lemma {:induction false} ClaimGraded(model: Model, events: seq<Event>, c: Claim)
    requires ModelInv(model, events) && Recorded(events)
    requires forall k :: 0 <= k < |events| ==> events[k].body.id == k + 1
    requires c in Sections(model)
    ensures IsGrounded(c) <==> c.standing.Grounded?
    ensures c.standing.Grounded? ==>
              ClaimLabel(c, EventsById(events))
              == if HasDirect(c, events) then Supported else if HasLead(c, events) then Provisional
                 else HypothesisLabel
  {
    hide EventsById, SupportOf, Obtained, LeadOnly, ModelInv, EventAuthorities, Recorded;
    var m := EventsById(events);
    ModelClaims(model, events, c);
    if c.standing.Grounded? {
      assert c.refs[0] in c.refs && c.refs[0].id in Cited(c);
    }
    forall id | id in Cited(c)
      ensures EventRef(id) in c.refs && 1 <= id <= |events|
      ensures SupportOf(id, m).Direct? <==> Obtained(events, id) && !LeadOnly(events, id)
      ensures SupportOf(id, m).Lead? <==> Obtained(events, id) && LeadOnly(events, id)
    {
      CitesEvidence(model, events, c, id);
      SupportIs(events, id);
    }
    forall n | EventRef(n) in c.refs ensures n in Cited(c) {
    }
  }

  // ---------------------------------------------------------------- the case

  /** Every claim the model asserts, which leaves out the alternatives, is grounded. */
  predicate AllAsserted(model: Model) {
    forall c :: c in model.grounding + model.mechanisms ==> c.standing.Grounded?
  }

  predicate SomeGrounded(model: Model) {
    exists c :: c in Sections(model) && c.standing.Grounded?
  }

  /** Some claim is grounded, each of those has direct support, and nothing asserted
      is left a hypothesis. */
  ghost predicate SupportedCase(model: Model, events: seq<Event>) {
    && SomeGrounded(model) && AllAsserted(model)
    && forall c :: c in Sections(model) && c.standing.Grounded? ==> HasDirect(c, events)
  }

  /** The same with leads in the place of direct support. */
  ghost predicate ProvisionalCase(model: Model, events: seq<Event>) {
    && SomeGrounded(model) && AllAsserted(model)
    && forall c :: c in Sections(model) && c.standing.Grounded? ==> HasLead(c, events) && !HasDirect(c, events)
  }

  /** No grounded claim cites anything that was obtained. */
  ghost predicate HypotheticalCase(model: Model, events: seq<Event>) {
    forall c :: c in Sections(model) && c.standing.Grounded? ==> !HasLead(c, events) && !HasDirect(c, events)
  }

  ghost predicate Graded(model: Model, events: seq<Event>, grade: Label) {
    match grade
    case Supported => SupportedCase(model, events)
    case Provisional => ProvisionalCase(model, events)
    case HypothesisLabel => HypotheticalCase(model, events)
    case Mixed =>
      !SupportedCase(model, events) && !ProvisionalCase(model, events) && !HypotheticalCase(model, events)
  }

  /** A case has one grade only. */
  lemma GradesExclude(model: Model, events: seq<Event>, a: Label, b: Label)
    requires Graded(model, events, a) && Graded(model, events, b)
    ensures a == b
  {
    hide HasDirect, HasLead, AllAsserted;
  }

  lemma LabelsAre(model: Model, m: EventMap, k: nat)
    requires Distinct(ClaimIds(Sections(model))) && k < |Sections(model)| && IsGrounded(Sections(model)[k])
    ensures ClaimLabel(Sections(model)[k], m) in GroundedLabels(Sections(model), m)
  {
    hide ClaimLabel, IsGrounded, GroundedLabels;
    DistinctLabels(Sections(model), m);
  }

  lemma LabelFromSome(model: Model, m: EventMap, grade: Label) returns (c: Claim)
    requires Distinct(ClaimIds(Sections(model))) && grade in GroundedLabels(Sections(model), m)
    ensures c in Sections(model) && IsGrounded(c) && ClaimLabel(c, m) == grade
  {
    hide ClaimLabel, IsGrounded, GroundedLabels;
    DistinctLabels(Sections(model), m);
    var i :| 0 <= i < |Sections(model)| && IsGrounded(Sections(model)[i]) && ClaimLabel(Sections(model)[i], m) == grade;
    c := Sections(model)[i];
  }

  lemma AssertsExactly(model: Model)
    requires Distinct(ClaimIds(Sections(model)))
    ensures AssertsHypothesis(model) <==> exists c :: c in model.grounding + model.mechanisms && !IsGrounded(c)
  {
    hide IsGrounded, GroundedIds;
    DistinctLabels(Sections(model), map[]);
    var claims, asserted := Sections(model), model.grounding + model.mechanisms;
    assert forall i :: 0 <= i < |asserted| ==> claims[i] == asserted[i];
    if c :| c in asserted && !IsGrounded(c) {
      var i :| 0 <= i < |asserted| && asserted[i] == c;
      assert claims[i].id !in GroundedIds(claims);
    }
  }

  lemma SectionIdsDistinct(model: Model, events: seq<Event>)
    requires ModelInv(model, events)
    ensures Distinct(ClaimIds(Sections(model)))
  {
    hide EventAuthorities, ClaimGrounded;
    DistinctPrefix(ClaimIds(Sections(model)), StepIds(model.plan));
  }

  /** The labels of the grounded claims are what each of them cites. */
  lemma {:induction false} LabelsGraded(model: Model, events: seq<Event>)
    requires ModelInv(model, events) && Recorded(events)
    requires forall k :: 0 <= k < |events| ==> events[k].body.id == k + 1
    ensures var labels := GroundedLabels(Sections(model), EventsById(events));
            && (labels == {} <==> !SomeGrounded(model))
            && (Supported in labels <==>
                  exists c :: c in Sections(model) && c.standing.Grounded? && HasDirect(c, events))
            && (Provisional in labels <==>
                  exists c :: c in Sections(model) && c.standing.Grounded? && !HasDirect(c, events)
                              && HasLead(c, events))
            && (HypothesisLabel in labels <==>
                  exists c :: c in Sections(model) && c.standing.Grounded? && !HasDirect(c, events)
                              && !HasLead(c, events))
            && Mixed !in labels
  {
    hide EventsById, ClaimLabel, HasDirect, HasLead, ModelInv, GroundedLabels, IsGrounded, Recorded, Sections;
    var m, claims := EventsById(events), Sections(model);
    var labels := GroundedLabels(claims, m);
    SectionIdsDistinct(model, events);
    forall c | c in claims
      ensures IsGrounded(c) <==> c.standing.Grounded?
      ensures c.standing.Grounded? ==>
                ClaimLabel(c, m) in labels
                && ClaimLabel(c, m) == if HasDirect(c, events) then Supported
                                       else if HasLead(c, events) then Provisional else HypothesisLabel
    {
      ClaimGraded(model, events, c);
      if c.standing.Grounded? {
        var k :| 0 <= k < |claims| && claims[k] == c;
        LabelsAre(model, m, k);
      }
    }
    forall grade | grade in labels
      ensures exists c :: c in claims && c.standing.Grounded? && ClaimLabel(c, m) == grade
    {
      var c := LabelFromSome(model, m, grade);
    }
  }

  /** The calibration grades a case exactly so, whenever its model is clean and its
      Timeline records its observations well. */
  lemma {:induction false} GradeExactly(model: Model, events: seq<Event>)
    requires ModelInv(model, events) && Recorded(events)
    requires forall k :: 0 <= k < |events| ==> events[k].body.id == k + 1
    ensures Graded(model, events, CaseLabel(model, EventsById(events)))
  {
    hide EventsById, HasDirect, HasLead, ModelInv, GroundedLabels, IsGrounded, Recorded, Sections, AssertsHypothesis;
    var labels := GroundedLabels(Sections(model), EventsById(events));
    LabelsGraded(model, events);
    AssertedGraded(model, events);
    OneLabel(labels);
  }

  lemma OneLabel(labels: set<Label>)
    requires Mixed !in labels
    ensures labels == {Supported} <==> Supported in labels && Provisional !in labels && HypothesisLabel !in labels
    ensures labels == {Provisional} <==> Provisional in labels && Supported !in labels && HypothesisLabel !in labels
    ensures labels == {HypothesisLabel} <==>
              HypothesisLabel in labels && Supported !in labels && Provisional !in labels
    ensures labels == {} <==> HypothesisLabel !in labels && Supported !in labels && Provisional !in labels
  {
    forall x | x in labels ensures x == Supported || x == Provisional || x == HypothesisLabel {
      assert !x.Mixed?;
    }
  }

  lemma {:induction false} AssertedGraded(model: Model, events: seq<Event>)
    requires ModelInv(model, events) && Recorded(events)
    requires forall k :: 0 <= k < |events| ==> events[k].body.id == k + 1
    ensures AssertsHypothesis(model) <==> !AllAsserted(model)
  {
    hide EventsById, HasDirect, HasLead, ModelInv, IsGrounded, Recorded, AssertsHypothesis, ClaimLabel;
    SectionIdsDistinct(model, events);
    AssertsExactly(model);
    forall c | c in model.grounding + model.mechanisms ensures IsGrounded(c) <==> c.standing.Grounded? {
      assert c in Sections(model);
      ClaimGraded(model, events, c);
    }
  }

  /** One asserted claim without grounds, of any model and whatever the rest cites,
      keeps the case from being called supported or provisional. */
  lemma AssertedHypothesisCaps(model: Model, m: EventMap, c: Claim)
    requires Distinct(ClaimIds(Sections(model)))
    requires c in model.grounding + model.mechanisms && !c.standing.Grounded?
    ensures CaseLabel(model, m) == Mixed || CaseLabel(model, m) == HypothesisLabel
  {
    hide GroundedLabels, AssertsHypothesis;
    AssertsExactly(model);
  }
}
