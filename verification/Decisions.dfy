/** When each operation on a reachable case goes ahead, and what it then records: in
    terms of what the case shows, not of the checks that are run. */
module Decisions {
  import opened Wrappers
  import opened Records
  import opened Journal
  import opened Staleness
  import opened Provenance
  import opened Claims
  import opened Calibration
  import opened Observations
  import opened Grading
  import opened Consultation
  import opened Replay
  import opened Harness
  import opened Invariants
  import opened Reach

  /** Operations on the active case of a session. A capture goes to the case whose
      probe runs, and a failed call is recorded wherever its case stands. */
  predicate NeedsOwner(a: Action) {
    !IsLifecycle(a) && !a.Observe? && !a.FailOffer?
  }

  /** No session operates on the case of another, or on one that is not active. */
  lemma StrangersAreRefused(config: Config, now: int, session: Session, c: Case, events: seq<Event>, a: Action)
    requires NeedsOwner(a)
    requires session == "" || c.session != session || !c.status.Active?
    ensures Perform(config, now, session, c, events, a).None?
  {
    hide Usable, ConsultedAtTip, CaseLabel, EventsById, BudgetLeft, FreshOffer, ValidOffer, WaiverDue, CooldownActive,
         PreviousMethod, AcceptsModel, NormalModel, RevisionContext, PreserveAuthorities, Repairs, StaleClosure,
         AffectedOk, DescriptorOk, OwnStart;
  }

  predicate GoesOn(a: Action) {
    a.CommitProbe? || a.Pause? || a.Close? || a.StartOffer? || a.ExcuseProbe? || a.ExcuseClose?
  }

  /** Nothing goes on while a probe is pending, the model is stale, or replay finds an
      observation unsettled, a mismatch unrepaired or a fault in the model. */
  lemma FaultsStop(config: Config, now: int, session: Session, c: Case, events: seq<Event>, a: Action)
    requires GoesOn(a) && Perform(config, now, session, c, events, a).Some?
    ensures c.probe.None? && !c.stale && Account(events) == Accounting({}, {}, {}) && ModelClean(c.model, events)
  {
    hide Account, ModelClean, ConsultedAtTip, CaseLabel, EventsById, BudgetLeft, FreshOffer, ValidOffer, WaiverDue,
         CooldownActive, ClaimNamed;
  }

  // ----------------------------------------------------------------- a probe

  /** The decision was just consulted on, or needs no consultation. */
  predicate Advised(config: Config, events: seq<Event>, point: Point) {
    config.enabled ==>
      && !config.misconfigured && events != []
      && var e := events[|events| - 1].body.entry;
         (e.Chosen? || e.Excused? || ServiceFailure(e)) && e.point == point
  }

  lemma AdvisedExactly(config: Config, events: seq<Event>, point: Point)
    ensures Consulted(config, events, point) <==> Advised(config, events, point)
  {
  }

  lemma CommitExactly(config: Config, s: Slot, session: Session, tool: string, authority: Domain, claim: Option<ItemId>)
    requires CaseInv(config, s)
    ensures var c := s.file.value.state;
            var p := PlanCommit(config, c, s.events, session, tool, authority, claim);
            && (p.Some? <==>
                  && Owns(c, session) && Unencumbered(c) && ToolFits(tool, authority)
                  && (claim.Some? ==> exists x :: x in Sections(c.model) && x.id == claim.value)
                  && Advised(config, s.events, ProbePoint))
            && (p.Some? ==>
                  p == Some(Change(c.(probe := Some(Probe(Commits(s.events) + 1, Committed, tool, authority, claim,
                                                          None,
                                                          None, None, "", None, Absent))),
                                   ProbeCommitted(Commits(s.events) + 1, Some(authority)), false, CommitTarget)))
  {
    hide CaseInv, Usable, Consulted, Advised, ClaimNamed;
    UsableIsFlags(config, s);
    AdvisedExactly(config, s.events, ProbePoint);
    assert s.file.Some? by { HasFile(config, s); }
    if claim.Some? {
      ClaimBears(Sections(s.file.value.state.model), claim.value);
    }
  }

  lemma HasFile(config: Config, s: Slot)
    requires CaseInv(config, s)
    ensures s.file.Some?
  {
    hide ReplayInv, OrderOk, GateInv, ModelOk, VersionOk, StaleOk, RepairsOk, CloseOk, ClaimKept, RecordsOk;
  }

  lemma {:induction false} ClaimBears(claims: seq<Claim>, id: ItemId)
    ensures ClaimNamed(claims, id).Some? <==> exists x :: x in claims && x.id == id
  {
    ClaimKnown(claims, id);
    assert forall i :: 0 <= i < |claims| ==> ClaimIds(claims)[i] == claims[i].id;
    if x :| x in claims && x.id == id {
      var i :| 0 <= i < |claims| && claims[i] == x;
      assert ClaimIds(claims)[i] in ClaimIds(claims);
    }
  }

  /** A probe starts for the tool it was committed to and only then executes under a
      call; its capture, and what is shown of it, go to the probe that executes or was
      captured; discarding it leaves nothing of it. */
  lemma ProbeStepsExactly(c: Case, session: Session, tool: string, callId: string, status: Reported, unknown: bool,
                          live: bool)
    ensures var p := PlanStart(c, session, tool, callId);
            && (p.Some? <==> Owns(c, session) && c.probe.Some? && c.probe.value.status.Committed?
                             && c.probe.value.tool == tool)
            && (p.Some? ==> p == Some(Change(c.(probe := Some(c.probe.value.(status := Executing, callId := callId))),
                                             ProbeStarted(c.probe.value.id), false, StartTarget)))
    ensures var p := PlanObserve(c, status, unknown);
            && (p.Some? <==> c.status.Active? && c.probe.Some? && c.probe.value.status.Executing?)
            && (p.Some? ==> p.value.entry.probe == c.probe.value.id && p.value.entry.tool == c.probe.value.tool
                            && p.value.entry.authority == Some(c.probe.value.authority))
    ensures var p := PlanExpose(c, session, status);
            && (p.Some? <==> Owns(c, session) && c.probe.Some? && c.probe.value.status.Observed?)
            && (p.Some? ==> p.value.entry.probe == c.probe.value.id && p.value.entry.tool == c.probe.value.tool
                            && p.value.entry.authority == Some(c.probe.value.authority)
                            && p.value.entry.supersedes == c.probe.value.observation
                            && p.value.state.probe.value.shown == status)
    ensures PlanRecover(c, session, live).Some? <==>
              Owns(c, session) && !live && c.probe.Some? && c.probe.value.status.Executing?
    ensures var p := PlanDiscard(c, session, live);
            && (p.Some? <==> Owns(c, session) && c.probe.Some? && !(live && c.probe.value.status.Executing?))
            && (p.Some? ==> p == Some(Change(c.(probe := None),
                                             ProbeDiscarded(c.probe.value.id, c.probe.value.observation), false,
                                             NoTarget)))
  {
  }

  /** What a status pair says: a failure in either field wins, and else success in
      either counts; what was displayed is read with the same care. */
  lemma StatusesSay(s: Statuses)
    ensures Executed(s).Failed? <==> s.result.Failure? || s.execution == Some(Failure)
    ensures Executed(s).Good? <==> !Executed(s).Failed? && (s.result.Success? || s.execution == Some(Success))
    ensures Displayed(s).Failed? <==> s.result.Failure? && s.display.None?
    ensures Displayed(s).Good? <==>
              !s.result.Failure? && s.display != Some(Failure) && (s.result.Success? || s.display == Some(Success))
  {
  }

  /** A failure is the service's, and excuses, unless the caller changed the state, sent
      bad input, or could not write the outcome down. */
  lemma FailuresPart(r: FailureReason)
    ensures Excusable(r) <==> !r.StateChanged? && !r.StateWriteFailed? && !r.CallerInput?
  {
  }

  // ---------------------------------------------------- evidence and comparison

  lemma EvidenceExactly(c: Case, session: Session, d: Descriptor)
    ensures var p := PlanEvidence(c, session, d);
            && (p.Some? <==> Owns(c, session) && c.probe.None? && d.authority.ExternalSource?)
            && (p.Some? ==> p == Some(Change(c, EvidenceRecorded(d), false, NoTarget)))
  {
  }

  /** What a comparison records is what was compared and found. */
  lemma ComparisonRecords(c: Case, session: Session, verdict: Verdict, material: bool, named: Option<seq<ItemId>>,
                          d: Option<Descriptor>)
    requires PlanCompare(c, session, verdict, material, named, d).Some?
    ensures var e := PlanCompare(c, session, verdict, material, named, d).value.entry;
            && c.probe.Some? && e.ProbeCompared? && e.probe == c.probe.value.id
            && e.observation == c.probe.value.observation && e.authority == Some(c.probe.value.authority)
            && e.verdict == verdict && e.material == material && e.descriptor == d
            && forall id :: id in e.affected <==> Affects(c.probe.value, named, id)
  {
    hide StaleClosure, AffectedOk, DescriptorOk;
  }

  // --------------------------------------------------------- pause and close

  /** A case is set aside by its owner once it owes nothing; for a subagent at once. */
  lemma PauseExactly(config: Config, s: Slot, session: Session)
    requires CaseInv(config, s)
    ensures var c := s.file.value.state;
            var set_aside := Some(Change(c.(status := Paused), CasePaused, false, NoTarget));
            && PlanPause(c, s.events, session) == (if Owns(c, session) && Unencumbered(c) then set_aside else None)
            && PlanSubagentPause(c, session) == (if Owns(c, session) then set_aside else None)
  {
    hide CaseInv, Usable;
    UsableIsFlags(config, s);
    HasFile(config, s);
  }

  /** A case closes once it owes nothing and was consulted on, and as resolved only if
      it rests on evidence; what is recorded is the outcome asked for and the grade its
      claims and citations make. */
  lemma CloseExactly(config: Config, s: Slot, session: Session, outcome: Outcome)
    requires CaseInv(config, s)
    ensures var c := s.file.value.state;
            var p := PlanClose(config, c, s.events, session, outcome);
            && (p.Some? <==>
                  && Owns(c, session) && Unencumbered(c) && Advised(config, s.events, ClosePoint)
                  && (outcome.Resolved? ==> RestsOnEvidence(c.model, s.events)))
            && (p.Some? ==>
                  && p.value.entry.CaseClosed? && p.value.entry.outcome == outcome
                  && Graded(c.model, s.events, p.value.entry.grade)
                  && p.value.state == c.(status := Closed,
                                         closure := Some(Closure(outcome, p.value.entry.grade, None))))
  {
    hide CaseInv, Usable, Consulted, Advised, RestsOnEvidence, CaseLabel, EventsById, Graded;
    UsableIsFlags(config, s);
    HasFile(config, s);
    AdvisedExactly(config, s.events, ClosePoint);
    GradedSlot(config, s);
  }

  lemma GradedSlot(config: Config, s: Slot)
    requires CaseInv(config, s)
    ensures s.file.Some?
    ensures var grade := CaseLabel(s.file.value.state.model, EventsById(s.events));
            && Graded(s.file.value.state.model, s.events, grade)
            && (grade != HypothesisLabel <==> RestsOnEvidence(s.file.value.state.model, s.events))
  {
    hide ReplayInv, OrderOk, GateInv, VersionOk, StaleOk, RepairsOk, CloseOk, ClaimKept, ModelInv, Recorded, Graded,
         RestsOnEvidence, CaseLabel, EventsById, ProbeAuthorities, Mirrored;
    GradeExactly(s.file.value.state.model, s.events);
    BetterThanHypothesis(s.file.value.state.model, s.events);
  }

  // ---------------------------------------------------------------- advice

  /** The Timeline ends in an offer that can still be answered. */
  predicate OfferWaits(events: seq<Event>, now: int) {
    && events != []
    && var e := events[|events| - 1].body.entry;
    && e.Offered? && e.offer != "" && e.expires.Some? && now <= e.expires.value
    && forall x :: x in events && x.body.entry.Chosen? ==> x.body.entry.offer != e.offer
  }

  lemma {:induction false} WaitingExactly(events: seq<Event>, now: int)
    requires Sequential(events)
    ensures ValidOffer(events, now).Some? <==> OfferWaits(events, now)
    ensures OfferWaits(events, now) ==> ValidOffer(events, now).value == events[|events| - 1]
  {
    var i := NewestOpenIsLast(events, AnsweredIds(events));
    if ValidOffer(events, now).Some? {
      ValidOfferIsTip(events, now);
    }
  }

  /** The present run of service failures keeps further calls back for a while. */
  ghost predicate Cooling(config: Config, events: seq<Event>, now: int) {
    config.cooldown > 0
    && exists start: nat, i: nat :: RunFrom(events, start) && NewestFailure(events, start, i)
                          && |FailuresFrom(events, start)| >= config.maxFailures
                          && now - events[i].body.at < config.cooldown
  }

  /** A call for advice starts for a case that owes nothing, where advice is to be had,
      within the limits on calls and tokens, when no offer waits and nothing cools. */
  lemma StartExactly(config: Config, s: Slot, session: Session, offer: string, point: Point, now: int)
    requires CaseInv(config, s)
    ensures var c := s.file.value.state;
            PlanStartOffer(config, c, s.events, session, offer, point, now)
            == if && Owns(c, session) && Unencumbered(c) && config.enabled && !config.misconfigured && config.hasKey
                  && |OfferedIds(s.events) + FailedIds(s.events)| < config.maxCalls
                  && Tokens(s.events) < config.maxTokens
                  && !OfferWaits(s.events, now) && !Cooling(config, s.events, now) && FreshOffer(s.events, offer)
               then Some(Change(c, OfferStarted(offer, point), false, NoTarget)) else None
  {
    hide CaseInv, Usable, ValidOffer, OfferWaits, CooldownActive, FailuresFrom, RunFrom, Tokens, OfferedIds, FailedIds,
         FreshOffer;
    UsableIsFlags(config, s);
    InSequence(config, s);
    WaitingExactly(s.events, now);
    CooldownExact(config, s.events, now);
  }

  lemma InSequence(config: Config, s: Slot)
    requires CaseInv(config, s)
    ensures s.file.Some? && Sequential(s.events) && GateInv(config, s.events)
  {
    hide ReplayInv, OrderOk, GateInv, ModelOk, VersionOk, StaleOk, RepairsOk, CloseOk, ClaimKept, RecordsOk, Sequential;
  }

  /** An offer is recorded right after the start of its own call, as it came: with its
      tokens, its expiry and its candidates. A failure is recorded once for a call that
      was started, and after its offer only if that could not be written. */
  lemma OutcomesExactly(c: Case, events: seq<Event>, session: Session, offer: string, point: Point, started: nat,
                        tokens: int, expires: Option<int>, candidates: set<string>, reason: FailureReason)
    requires Sequential(events)
    ensures PlanRecordOffer(c, events, session, RecordOffer(offer, point, started, tokens, expires, candidates))
            == if && Owns(c, session) && events != [] && started == |events|
                  && events[|events| - 1].body.entry == OfferStarted(offer, point)
               then Some(Change(c, Offered(offer, point, started, tokens, expires, candidates), false, NoTarget))
               else None
    ensures PlanFailOffer(c, events, offer, point, reason)
            == if && (exists e :: e in events && e.body.entry == OfferStarted(offer, point))
                  && (forall e :: e in events && e.body.entry.OfferFailed? ==> e.body.entry.offer != offer)
                  && ((exists e :: e in events && e.body.entry.Offered? && e.body.entry.offer == offer) ==>
                        reason.StateWriteFailed?)
               then Some(Change(c, OfferFailed(offer, point, reason), false, NoTarget)) else None
  {
  }

  /** What the answer to an offer records as its method: at a close none, and the choice
      is to stop; before a probe the method last chosen if it is to go on the same, and
      another candidate if it is to go on differently. */
  function AnswerTo(point: Point, choice: Choice, methodId: string, candidates: set<string>,
                    previous: Option<string>): Answer
  {
    if point.ClosePoint? then if choice.Stop? && methodId == "" then Accepted(None) else BadAnswer
    else if choice.ContinueSame? && methodId == "" && previous.Some? && previous.value in candidates
    then Accepted(previous)
    else if choice.ContinueDifferent? && methodId in candidates && methodId != "" && previous != Some(methodId)
    then Accepted(Some(methodId))
    else BadAnswer
  }

  /** The method of the newest answer that named one. */
  lemma {:induction false} PreviousIsNewest(events: seq<Event>) returns (i: nat)
    ensures PreviousMethod(events).None? ==>
              forall k :: 0 <= k < |events| ==> !NamesMethod(events[k].body.entry)
    ensures PreviousMethod(events).Some? ==>
              && i < |events| && NamesMethod(events[i].body.entry)
              && events[i].body.entry.methodId == PreviousMethod(events)
              && forall k :: i < k < |events| ==> !NamesMethod(events[k].body.entry)
  {
    i := 0;
    if events != [] {
      var n := |events| - 1;
      if NamesMethod(events[n].body.entry) {
        i := n;
      } else {
        i := PreviousIsNewest(events[..n]);
        assert forall k :: 0 <= k < n ==> events[..n][k] == events[k];
      }
    }
  }

  predicate NamesMethod(e: Entry) {
    e.Chosen? && e.methodId.Some? && e.methodId.value != ""
  }

  lemma {:induction false} ChoiceExactly(c: Case, events: seq<Event>, session: Session, choice: Choice,
                                         methodId: string, now: int)
    requires Sequential(events)
    ensures PlanChoose(c, events, session, choice, methodId, now)
            == if !Owns(c, session) || !OfferWaits(events, now) then None
               else
                 var o := events[|events| - 1].body.entry;
                 match AnswerTo(o.point, choice, methodId, o.candidates, PreviousMethod(events))
                 case BadAnswer => None
                 case Accepted(m) => Some(Change(c, Chosen(o.offer, o.point, choice, m), false, NoTarget))
  {
    hide ValidOffer, PreviousMethod;
    WaitingExactly(events, now);
  }

  /** A decision goes ahead without advice where it would stand with advice switched
      off, advice is required and set up, it was not just consulted on, no offer waits,
      and the failures used the calls up or the cooldown holds with tokens left. */
  ghost predicate Waived(config: Config, events: seq<Event>, point: Point, now: int) {
    && config.enabled && !config.misconfigured && config.hasKey
    && !Advised(config, events, point) && !OfferWaits(events, now)
    && (|| config.maxCalls <= 0 || |FailedIds(events)| >= config.maxCalls
        || (Tokens(events) < config.maxTokens && Cooling(config, events, now)))
  }

  lemma WaiverExactly(config: Config, s: Slot, session: Session, tool: string, authority: Domain, claim: Option<ItemId>,
                      outcome: Outcome, now: int)
    requires CaseInv(config, s)
    ensures var c := s.file.value.state;
            && PlanExcuseProbe(config, c, s.events, session, tool, authority, claim, now)
               == (if PlanCommit(config.(enabled := false), c, s.events, session, tool, authority, claim).Some?
                      && Waived(config, s.events, ProbePoint, now)
                   then Some(Change(c, Excused(ProbePoint), false, NoTarget)) else None)
            && PlanExcuseClose(config, c, s.events, session, outcome, now)
               == (if PlanClose(config.(enabled := false), c, s.events, session, outcome).Some?
                      && Waived(config, s.events, ClosePoint, now)
                   then Some(Change(c, Excused(ClosePoint), false, NoTarget)) else None)
  {
    hide CaseInv, PlanCommit, PlanClose, ValidOffer, OfferWaits, CooldownActive, FailuresFrom, RunFrom, Tokens,
         FailedIds, Advised, ConsultedAtTip;
    InSequence(config, s);
    WaitingExactly(s.events, now);
    CooldownExact(config, s.events, now);
    AdvisedExactly(config, s.events, ProbePoint);
    AdvisedExactly(config, s.events, ClosePoint);
  }
}
