/** The calibration label of a case: what its grounded claims rest on. */
module Calibration {
  import opened Wrappers
  import opened Records
  import opened Staleness
  import opened Provenance
  import opened Claims

  function EventsById(events: seq<Event>): EventMap {
    if events == [] then map[]
    else EventsById(events[..|events| - 1])[events[|events| - 1].body.id := events[|events| - 1].body.entry]
  }

  lemma {:induction false} EventsByIdAt(events: seq<Event>)
    requires forall k :: 0 <= k < |events| ==> events[k].body.id == k + 1
    ensures forall n :: n in EventsById(events) <==> 1 <= n <= |events|
    ensures forall n :: 1 <= n <= |events| ==> EventsById(events)[n] == events[n - 1].body.entry
  {
    if events != [] {
      EventsByIdAt(events[..|events| - 1]);
    }
  }

  // ------------------------------------------------------------ one citation

  datatype Support = Direct | Lead | NoSupport

  function LowerChar(c: char): char {
    if 'A' <= c <= 'Z' then 'a' + (c - 'A') else c
  }

  function Lower(text: string): string {
    if text == "" then "" else [LowerChar(text[0])] + Lower(text[1..])
  }

  predicate MentionsSearch(tool: string) {
    |tool| >= 6 && (Lower(tool[..6]) == "search" || MentionsSearch(tool[1..]))
  }

  predicate IsProbeEvidence(e: Entry) {
    e.ProbeObserved? || e.ProbeExposed? || e.ProbeCompared?
  }

  function ScopeOf(e: Entry): Option<Scope> {
    match e
    case InitialObservation(d) => d.scope
    case EvidenceRecorded(d) => d.scope
    case ProbeCompared(_, _, _, _, _, _, d) => if d.Some? then d.value.scope else None
    case _ => None
  }

  /** The observation a citation stands for: a comparison stands for the one it compared. */
  function ObservationOf(id: nat, m: EventMap): Option<nat>
    requires id in m
  {
    if m[id].ProbeCompared? then m[id].observation else Some(id)
  }

  function ProbeNamed(p: nat): Option<nat> {
    if p == 0 then None else Some(p)
  }

  function WorthOf(id: nat, m: EventMap): Worth
    requires id in m && IsProbeEvidence(m[id])
  {
    match ObservationOf(id, m)
    case None => Unknown
    case Some(o) => Resolve(o, m, ProbeNamed(m[id].probe), {})
  }

  predicate FromSearch(id: nat, m: EventMap)
    requires id in m
  {
    match ObservationOf(id, m)
    case None => false
    case Some(o) => o in m && IsObservation(m[o]) && MentionsSearch(m[o].tool)
  }

  /** What one cited event contributes. An event that is not in the Timeline, or
      is no evidence at all, falls through to direct support. */
  function SupportOf(id: nat, m: EventMap): Support {
    if id !in m then Direct
    else if IsProbeEvidence(m[id]) && !WorthOf(id, m).Good? then NoSupport
    else if FromSearch(id, m) then Lead
    else match ScopeOf(m[id])
      case Some(Snippet) => Lead
      case Some(Abstract) => Lead
      case _ => Direct
  }

  // --------------------------------------------------------------- one claim

  function Cited(c: Claim): set<nat> {
    set r | r in c.refs && r.EventRef? :: r.id
  }

  predicate IsGrounded(c: Claim) {
    c.standing.Grounded? && Cited(c) != {}
  }

  function ClaimLabel(c: Claim, m: EventMap): Label {
    if !IsGrounded(c) then HypothesisLabel
    else if exists id :: id in Cited(c) && SupportOf(id, m).Direct? then Supported
    else if exists id :: id in Cited(c) && SupportOf(id, m).Lead? then Provisional
    else HypothesisLabel
  }

  // ---------------------------------------------------------------- the case

  function GroundedIds(claims: seq<Claim>): set<ItemId> {
    set c | c in claims && IsGrounded(c) :: c.id
  }

  function GroundedLabels(claims: seq<Claim>, m: EventMap): set<Label> {
    set c | c in claims && c.id in GroundedIds(claims) :: ClaimLabel(c, m)
  }

  /** An asserted claim (not an alternative) that is still an ungrounded hypothesis. */
  predicate AssertsHypothesis(model: Model) {
    var claims := Sections(model);
    exists i :: 0 <= i < |model.grounding| + |model.mechanisms| && claims[i].id !in GroundedIds(claims)
  }

  function LabelFrom(labels: set<Label>, asserted: bool): Label {
    if labels == {Supported} && !asserted then Supported
    else if labels == {Provisional} && !asserted then Provisional
    else if labels != {} && labels != {HypothesisLabel} then Mixed
    else HypothesisLabel
  }

  function CaseLabel(model: Model, m: EventMap): Label {
    LabelFrom(GroundedLabels(Sections(model), m), AssertsHypothesis(model))
  }

  method LabelClaim(c: Claim, m: EventMap) returns (grade: Label)
    ensures grade == ClaimLabel(c, m)
  {
    if !IsGrounded(c) {
      return HypothesisLabel;
    }
    var leads, direct: set<nat> := {}, {};
    var todo := Cited(c);
    while todo != {}
      invariant todo <= Cited(c)
      invariant direct == set id | id in Cited(c) && id !in todo && SupportOf(id, m).Direct?
      invariant leads == set id | id in Cited(c) && id !in todo && SupportOf(id, m).Lead?
      decreases todo
    {
      var id :| id in todo;
      match SupportOf(id, m) {
        case Direct => direct := direct + {id};
        case Lead => leads := leads + {id};
        case NoSupport =>
      }
      todo := todo - {id};
    }
    if direct != {} {
      var id :| id in direct;
      return Supported;
    }
    if leads != {} {
      var id :| id in leads;
      assert forall other :: other in Cited(c) ==> other !in direct;
      return Provisional;
    }
    assert forall id :: id in Cited(c) ==> id !in direct && id !in leads;
    return HypothesisLabel;
  }

  /** The source's loops over sections, claims and citations. */
  method ClosureCalibration(model: Model, events: seq<Event>) returns (grade: Label)
    ensures grade == CaseLabel(model, EventsById(events))
  {
    hide ClaimLabel, EventsById;
    var m := EventsById(events);
    var claims := Sections(model);
    var assessed: seq<Label> := [];
    var grounded: set<ItemId> := {};
    for k := 0 to |claims|
      invariant |assessed| == k
      invariant forall i :: 0 <= i < k ==> assessed[i] == ClaimLabel(claims[i], m)
      invariant grounded == set i | 0 <= i < k && IsGrounded(claims[i]) :: claims[i].id
    {
      var one := LabelClaim(claims[k], m);
      assessed := assessed + [one];
      if IsGrounded(claims[k]) {
        grounded := grounded + {claims[k].id};
      }
    }
    assert grounded == GroundedIds(claims);
    var labels := set i | 0 <= i < |claims| && claims[i].id in grounded :: assessed[i];
    assert labels == GroundedLabels(claims, m);
    var asserted := exists i :: 0 <= i < |model.grounding| + |model.mechanisms| && claims[i].id !in grounded;
    grade := LabelFrom(labels, asserted);
  }

  // ------------------------------------------------------------- the ceiling

  /** hypothesis < provisional = mixed < supported */
  function Rank(grade: Label): nat {
    match grade
    case HypothesisLabel => 0
    case Provisional => 1
    case Mixed => 1
    case Supported => 2
  }

  /** `after` is `before` with one more citation on claim `k`. A claim without
      citations may become grounded by it. */
  ghost predicate CitesOneMore(before: seq<Claim>, after: seq<Claim>, k: nat, id: nat) {
    && |before| == |after| && k < |before|
    && after == before[k := after[k]]
    && after[k].id == before[k].id && after[k].refs == before[k].refs + [EventRef(id)]
    && (after[k].standing == before[k].standing || (after[k].standing.Grounded? && before[k].refs == []))
  }

  lemma ClaimCitesOneMore(c: Claim, d: Claim, id: nat, m: EventMap)
    requires d.refs == c.refs + [EventRef(id)] && SupportOf(id, m).NoSupport?
    ensures Cited(d) == Cited(c) + {id}
    ensures IsGrounded(c) && d.standing == c.standing ==> IsGrounded(d) && ClaimLabel(d, m) == ClaimLabel(c, m)
    ensures !IsGrounded(c) && Cited(c) == {} ==> ClaimLabel(d, m) == HypothesisLabel
  {
    hide SupportOf;
    assert Cited(d) == Cited(c) + {id} by {
      forall x ensures x in Cited(d) <==> x in Cited(c) + {id} {
        if x in Cited(d) {
          var r :| r in d.refs && r.EventRef? && r.id == x;
        }
        if x == id {
          assert EventRef(id) in d.refs;
        }
      }
    }
  }

  /** Adding a hypothesis among the grounded labels never raises the case label. */
  lemma HypothesisNeverRaises(labels: set<Label>, asserted: bool, later: bool)
    ensures Rank(LabelFrom(labels + {HypothesisLabel}, later)) <= Rank(LabelFrom(labels, asserted))
  {
    if labels == {} {
      assert labels + {HypothesisLabel} == {HypothesisLabel};
    } else {
      assert HypothesisLabel in labels + {HypothesisLabel};
      assert labels + {HypothesisLabel} != {Supported} && labels + {HypothesisLabel} != {Provisional};
      if labels == {HypothesisLabel} {
        assert labels + {HypothesisLabel} == labels;
      }
    }
  }

  lemma DistinctLabels(claims: seq<Claim>, m: EventMap)
    requires Distinct(ClaimIds(claims))
    ensures forall i :: 0 <= i < |claims| ==> (claims[i].id in GroundedIds(claims) <==> IsGrounded(claims[i]))
    ensures GroundedLabels(claims, m) == set i | 0 <= i < |claims| && IsGrounded(claims[i]) :: ClaimLabel(claims[i], m)
  {
    hide ClaimLabel, IsGrounded;
    forall i | 0 <= i < |claims| ensures claims[i].id in GroundedIds(claims) <==> IsGrounded(claims[i]) {
      if claims[i].id in GroundedIds(claims) {
        var j :| 0 <= j < |claims| && IsGrounded(claims[j]) && claims[j].id == claims[i].id;
        assert ClaimIds(claims)[i] == ClaimIds(claims)[j];
      }
    }
  }

  lemma GroundedAfter(before: seq<Claim>, after: seq<Claim>, k: nat, id: nat, m: EventMap)
    requires CitesOneMore(before, after, k, id) && SupportOf(id, m).NoSupport?
    requires Distinct(ClaimIds(before))
    ensures (GroundedIds(after) == GroundedIds(before) && GroundedLabels(after, m) == GroundedLabels(before, m))
         || GroundedLabels(after, m) == GroundedLabels(before, m) + {HypothesisLabel}
  {
    hide ClaimLabel, IsGrounded, SupportOf, Cited;
    var c, d := before[k], after[k];
    OneMoreCitation(c, d, id, m);
    assert ClaimIds(after) == ClaimIds(before);
    DistinctLabels(before, m);
    DistinctLabels(after, m);
    if IsGrounded(c) == IsGrounded(d) {
      forall i | 0 <= i < |before|
        ensures IsGrounded(before[i]) == IsGrounded(after[i]) && before[i].id == after[i].id
                && ClaimLabel(before[i], m) == ClaimLabel(after[i], m)
      {
      }
      assert GroundedIds(after) == GroundedIds(before) by {
        forall x | x in GroundedIds(before) ensures x in GroundedIds(after) {
          var i :| 0 <= i < |before| && IsGrounded(before[i]) && before[i].id == x;
          assert IsGrounded(after[i]);
        }
        forall x | x in GroundedIds(after) ensures x in GroundedIds(before) {
          var i :| 0 <= i < |after| && IsGrounded(after[i]) && after[i].id == x;
          assert IsGrounded(before[i]);
        }
      }
      LabelsEqual(before, after, m);
    } else {
      NewHypothesis(before, after, k, m);
    }
  }

  lemma LabelsEqual(before: seq<Claim>, after: seq<Claim>, m: EventMap)
    requires |before| == |after|
    requires forall i :: 0 <= i < |before| ==>
               IsGrounded(before[i]) == IsGrounded(after[i]) && ClaimLabel(before[i], m) == ClaimLabel(after[i], m)
    requires GroundedLabels(before, m) == set i | 0 <= i < |before| && IsGrounded(before[i]) :: ClaimLabel(before[i], m)
    requires GroundedLabels(after, m) == set i | 0 <= i < |after| && IsGrounded(after[i]) :: ClaimLabel(after[i], m)
    ensures GroundedLabels(after, m) == GroundedLabels(before, m)
  {
    hide ClaimLabel, IsGrounded, GroundedLabels;
  }

  lemma NewHypothesis(before: seq<Claim>, after: seq<Claim>, k: nat, m: EventMap)
    requires k < |before| && |before| == |after| && after == before[k := after[k]]
    requires !IsGrounded(before[k]) && IsGrounded(after[k]) && ClaimLabel(after[k], m) == HypothesisLabel
    requires GroundedLabels(before, m) == set i | 0 <= i < |before| && IsGrounded(before[i]) :: ClaimLabel(before[i], m)
    requires GroundedLabels(after, m) == set i | 0 <= i < |after| && IsGrounded(after[i]) :: ClaimLabel(after[i], m)
    ensures GroundedLabels(after, m) == GroundedLabels(before, m) + {HypothesisLabel}
  {
    hide ClaimLabel, IsGrounded, GroundedLabels;
    var old_, new_ := GroundedLabels(before, m), GroundedLabels(after, m);
    forall x | x in new_ ensures x in old_ + {HypothesisLabel} {
      var i :| 0 <= i < |after| && IsGrounded(after[i]) && ClaimLabel(after[i], m) == x;
      if i != k {
        assert IsGrounded(before[i]);
      }
    }
    forall x | x in old_ ensures x in new_ {
      var i :| 0 <= i < |before| && IsGrounded(before[i]) && ClaimLabel(before[i], m) == x;
      assert i != k && after[i] == before[i];
    }
  }

  /** What the new citation does to its own claim. */
  lemma OneMoreCitation(c: Claim, d: Claim, id: nat, m: EventMap)
    requires d.refs == c.refs + [EventRef(id)] && SupportOf(id, m).NoSupport?
    requires d.standing == c.standing || (d.standing.Grounded? && c.refs == [])
    ensures IsGrounded(c) ==> IsGrounded(d)
    ensures IsGrounded(c) == IsGrounded(d) ==> ClaimLabel(c, m) == ClaimLabel(d, m)
    ensures !IsGrounded(c) && IsGrounded(d) ==> ClaimLabel(d, m) == HypothesisLabel
  {
    ClaimCitesOneMore(c, d, id, m);
  }

  /** Citing a failed observation, or one of unknown worth, never raises the
      label of the case. */
  lemma BadCitationNeverRaises(before: Model, after: Model, k: nat, id: nat, m: EventMap)
    requires CitesOneMore(Sections(before), Sections(after), k, id)
    requires |before.grounding| == |after.grounding| && |before.mechanisms| == |after.mechanisms|
    requires Distinct(ClaimIds(Sections(before)))
    requires SupportOf(id, m).NoSupport?
    ensures Rank(CaseLabel(after, m)) <= Rank(CaseLabel(before, m))
  {
    hide SupportOf, ClaimLabel, IsGrounded, Rank, LabelFrom;
    var x, y := Sections(before), Sections(after);
    GroundedAfter(x, y, k, id, m);
    if GroundedLabels(y, m) == GroundedLabels(x, m) + {HypothesisLabel} {
      HypothesisNeverRaises(GroundedLabels(x, m), AssertsHypothesis(before), AssertsHypothesis(after));
    } else {
      assert forall i :: 0 <= i < |x| ==> x[i].id == y[i].id;
      assert AssertsHypothesis(after) == AssertsHypothesis(before);
    }
  }

  /** A comparison that names the observation of another probe supports nothing. */
  lemma OtherProbeGivesNothing(id: nat, o: nat, m: EventMap)
    requires id in m && m[id].ProbeCompared? && m[id].observation == Some(o) && m[id].probe != 0
    requires o in m && IsObservation(m[o]) && m[o].probe != m[id].probe
    ensures SupportOf(id, m).NoSupport?
  {
  }

  // ---------------------------------------------------- grounded resolution

  /** A citation of evidence that was really obtained: initial or recorded
      evidence, or a probe event whose provenance chain resolves to ok. */
  predicate CitesObtained(id: nat, events: seq<Event>) {
    && 1 <= id <= |events|
    && var e := events[id - 1].body.entry;
    e.InitialObservation? || e.EvidenceRecorded? || (IsProbeEvidence(e) && RecordedWorthOf(id, events).Good?)
  }

  function RecordedWorthOf(id: nat, events: seq<Event>): Worth {
    var m := EventsById(events);
    if id in m && IsProbeEvidence(m[id]) then WorthOf(id, m) else Unknown
  }

  /** Some grounded claim of the model cites evidence that was really obtained. */
  ghost predicate RestsOnEvidence(model: Model, events: seq<Event>) {
    exists c, id :: c in Sections(model) && c.standing.Grounded? && EventRef(id) in c.refs && CitesObtained(id, events)
  }

  lemma {:induction false} BetterRests(model: Model, events: seq<Event>)
    requires ModelInv(model, events)
    requires forall k :: 0 <= k < |events| ==> events[k].body.id == k + 1
    requires CaseLabel(model, EventsById(events)) != HypothesisLabel
    ensures RestsOnEvidence(model, events)
  {
    hide EventAuthorities, EventsById, ModelInv, SupportOf, CitesObtained, CaseLabel;
    var m := EventsById(events);
    var c := BetterClaim(model, m);
    var id :| id in Cited(c) && !SupportOf(id, m).NoSupport?;
    var r :| r in c.refs && r.EventRef? && r.id == id;
    assert ClaimGrounded(c, |events|, EventAuthorities(events)) by {
      ModelClaims(model, events, c);
    }
    CitedIsEvidence(events, id);
    SupportedIsObtained(events, id);
  }

  lemma {:induction false} ObtainedIsSupported(events: seq<Event>, id: nat)
    requires CitesObtained(id, events)
    requires forall k :: 0 <= k < |events| ==> events[k].body.id == k + 1
    ensures !SupportOf(id, EventsById(events)).NoSupport?
  {
    EventsByIdAt(events);
    hide EventsById, WorthOf, FromSearch;
  }

  lemma SupportRaises(model: Model, m: EventMap, c: Claim, id: nat)
    requires c in Sections(model) && c.standing.Grounded? && EventRef(id) in c.refs && !SupportOf(id, m).NoSupport?
    ensures CaseLabel(model, m) != HypothesisLabel
  {
    hide SupportOf, Sections;
    assert id in Cited(c);
    assert c.id in GroundedIds(Sections(model)) && ClaimLabel(c, m) in GroundedLabels(Sections(model), m);
  }

  /** A case may be called better than a hypothesis exactly when a grounded claim
      cites evidence that was really obtained. */
  lemma {:induction false} BetterThanHypothesis(model: Model, events: seq<Event>)
    requires ModelInv(model, events)
    requires forall k :: 0 <= k < |events| ==> events[k].body.id == k + 1
    ensures CaseLabel(model, EventsById(events)) != HypothesisLabel <==> RestsOnEvidence(model, events)
  {
    hide ModelInv, EventsById, CaseLabel, CitesObtained, SupportOf;
    if CaseLabel(model, EventsById(events)) != HypothesisLabel {
      BetterRests(model, events);
    }
    if RestsOnEvidence(model, events) {
      var c, id :| c in Sections(model) && c.standing.Grounded? && EventRef(id) in c.refs && CitesObtained(id, events);
      ObtainedIsSupported(events, id);
      SupportRaises(model, EventsById(events), c, id);
    }
  }

  lemma {:induction false} SupportedIsObtained(events: seq<Event>, id: nat)
    requires 1 <= id <= |events| && !SupportOf(id, EventsById(events)).NoSupport?
    requires forall k :: 0 <= k < |events| ==> events[k].body.id == k + 1
    requires var e := events[id - 1].body.entry; e.InitialObservation? || e.EvidenceRecorded? || IsProbeEvidence(e)
    ensures CitesObtained(id, events)
  {
    EventsByIdAt(events);
    hide EventsById, WorthOf, FromSearch;
  }

  lemma ModelClaims(model: Model, events: seq<Event>, c: Claim)
    requires ModelInv(model, events) && c in Sections(model)
    ensures ClaimGrounded(c, |events|, EventAuthorities(events))
  {
  }

  lemma BetterClaim(model: Model, m: EventMap) returns (c: Claim)
    requires CaseLabel(model, m) != HypothesisLabel
    ensures c in Sections(model) && c.standing.Grounded?
    ensures exists id :: id in Cited(c) && !SupportOf(id, m).NoSupport?
  {
    hide SupportOf;
    var labels := GroundedLabels(Sections(model), m);
    assert labels != {} && labels != {HypothesisLabel};
    var grade :| grade in labels && grade != HypothesisLabel;
    c :| c in Sections(model) && c.id in GroundedIds(Sections(model)) && ClaimLabel(c, m) == grade;
  }

  /** An event with an authority is evidence of one of the five kinds. */
  lemma CitedIsEvidence(events: seq<Event>, id: nat)
    requires 1 <= id <= |events| && id in EventAuthorities(events)
    requires forall k :: 0 <= k < |events| ==> events[k].body.id == k + 1
    ensures var e := events[id - 1].body.entry; e.InitialObservation? || e.EvidenceRecorded? || IsProbeEvidence(e)
  {
    AuthorityAt(events, ProbeAuthorities(events), id);
  }

  predicate IsEvidence(e: Entry) {
    e.InitialObservation? || e.EvidenceRecorded? || IsProbeEvidence(e)
  }

  /** What the calibration itself takes for support, whatever the model: obtained
      evidence, but also any id that is no evidence event of the Timeline. */
  predicate PassesForSupport(id: nat, events: seq<Event>) {
    CitesObtained(id, events) || !(1 <= id <= |events|) || !IsEvidence(events[id - 1].body.entry)
  }

  lemma {:induction false} SupportExact(events: seq<Event>, id: nat)
    requires forall k :: 0 <= k < |events| ==> events[k].body.id == k + 1
    ensures !SupportOf(id, EventsById(events)).NoSupport? <==> PassesForSupport(id, events)
  {
    EventsByIdAt(events);
    hide EventsById, WorthOf, FromSearch;
  }

  /** Exactly which models are labelled above a hypothesis: those with a grounded
      claim that cites obtained evidence or something that is no evidence at all.
      Only a check that every citation is of evidence makes that the right answer. */
  lemma {:induction false} LabelExact(model: Model, events: seq<Event>)
    requires forall k :: 0 <= k < |events| ==> events[k].body.id == k + 1
    ensures CaseLabel(model, EventsById(events)) != HypothesisLabel <==>
            exists c, id :: c in Sections(model) && c.standing.Grounded? && EventRef(id) in c.refs
                            && PassesForSupport(id, events)
  {
    hide EventsById, CaseLabel, PassesForSupport, SupportOf;
    var m := EventsById(events);
    if CaseLabel(model, m) != HypothesisLabel {
      var c := BetterClaim(model, m);
      var id :| id in Cited(c) && !SupportOf(id, m).NoSupport?;
      var r :| r in c.refs && r.EventRef? && r.id == id;
      assert r == EventRef(id);
      SupportExact(events, id);
    }
    if c, id :| c in Sections(model) && c.standing.Grounded? && EventRef(id) in c.refs && PassesForSupport(id, events) {
      SupportExact(events, id);
      SupportRaises(model, m, c, id);
    }
  }

  /** Without the authority check a citation of an event nobody recorded would
      count as direct support, so the check is what keeps resolved cases grounded. */
  lemma UnknownCitationWouldCount(c: Claim, id: nat)
    requires c.standing.Grounded? && c.refs == [EventRef(id)]
    ensures ClaimLabel(c, map[]) == Supported
  {
    assert EventRef(id) in c.refs;
    assert id in Cited(c) && SupportOf(id, map[]).Direct?;
  }
}
