/** What every operation keeps true of a case, its Timeline and its archive. */
module Invariants {
  import opened Wrappers
  import opened Records
  import opened Journal
  import opened Transactions
  import opened Staleness
  import opened Claims
  import opened Calibration
  import opened Consultation
  import opened Replay
  import opened ProbeOrder
  import opened Observations
  import opened Grading
  import opened Harness

  /** `t` is the slot `s` after the store has committed `ch`. */
  predicate Lands(s: Slot, ch: Change, number: Option<nat>, t: Slot) {
    && s.file.Some? && t.file.Some?
    && |t.events| == |s.events| + 1
    && t.events == s.events + [t.events[|s.events|]]
    && t.events[|s.events|].body.id == |s.events| + 1
    && t.events[|s.events|].body.entry == ch.entry
    && t.events[|s.events|].body.session == ch.state.session
    && t.file.value.state == Landed(ch.state, number, |s.events| + 1, ch.target)
    && t.archive == (if ch.archive then s.archive[ch.state.version := t.file.value] else s.archive)
  }

  /** The case took one step that fits what was checked. */
  ghost predicate Moved(config: Config, s: Slot, ch: Change, number: Option<nat>, t: Slot) {
    Lands(s, ch, number, t) && Fits(config, s.file.value.state, s.events, ch)
  }

  // ------------------------------------------------------ replay and snapshot

  ghost predicate ReplayOk(s: Slot) {
    s.file.Some? && ReplayInv(FlagsOf(s.file.value.state), s.events)
  }

  lemma FlagsConsistent(f: Flags, events: seq<Event>)
    requires ReplayInv(f, events)
    ensures f.stale <==> f.mismatch.Some?
  {
  }

  /** The snapshot flags and the replayed Timeline move together. */
  lemma KeepsReplay(config: Config, s: Slot, ch: Change, number: Option<nat>, t: Slot)
    requires Moved(config, s, ch, number, t) && ReplayOk(s)
    ensures ReplayOk(t)
  {
    hide ReplayInv, ToolFits, MayFail, Mirrored, ItemOf, AcceptsModel, NormalModel, RevisionContext, StaleClosure,
         Repairs, Consulted, CaseLabel, EventsById, BudgetLeft, FreshOffer, OwnStart, Filled;
    var f, g, e := FlagsOf(s.file.value.state), FlagsOf(t.file.value.state), t.events[|s.events|];
    match ch.entry
    case ProbeCommitted(_, _) => CommitStep(f, s.events, e, g);
    case ProbeObserved(_, _, _, _, _) => ObserveStep(f, s.events, e, g);
    case ProbeExposed(_, _, _, _, _) => ObserveStep(f, s.events, e, g);
    case ProbeCompared(_, _, _, _, _, _, _) => CompareStep(f, s.events, e, g);
    case ProbeDiscarded(_, _) => DiscardStep(f, s.events, e, g);
    case ModelRevised(_, _) =>
      FlagsConsistent(f, s.events);
      RepairStep(f, s.events, e, g);
    case _ => NeutralStep(f, s.events, e, g);
  }

  // ------------------------------------------------------------- probe order

  ghost predicate OrderOk(s: Slot) {
    && s.file.Some? && Orderly(s.events)
    && Track(s.events) == Shown(s.file.value.state.probe)
  }

  /** Every event is one the Timeline so far allows, and the Timeline alone
      tells which probe the snapshot shows as pending and how far it has got. */
  lemma KeepsOrder(config: Config, s: Slot, ch: Change, number: Option<nat>, t: Slot)
    requires Moved(config, s, ch, number, t) && OrderOk(s)
    ensures OrderOk(t)
  {
    hide Orderly, Track, AcceptsModel, NormalModel, RevisionContext, StaleClosure, Repairs, Consulted, CaseLabel,
         EventsById, BudgetLeft, FreshOffer, OwnStart, Filled;
    OrderlyGrows(s.events, t.events[|s.events|]);
  }

  // -------------------------------------------------------- consultation gate

  predicate Sequential(events: seq<Event>) {
    forall k :: 0 <= k < |events| ==> events[k].body.id == k + 1
  }

  lemma ChosenFollowsFit(config: Config, s: Slot, ch: Change)
    requires s.file.Some? && Fits(config, s.file.value.state, s.events, ch) && ch.entry.Chosen? && Sequential(s.events)
    ensures s.events != [] && s.events[|s.events| - 1].body.entry.Offered?
    ensures AnswerFits(ch.entry, s.events[|s.events| - 1].body.entry, PreviousMethod(s.events))
    ensures ChoiceFits(ch.entry)
  {
    hide ChosenFrom, PreviousMethod;
    var now, methodId :| ChosenFrom(s.events, now, methodId, ch.entry);
    ChosenFollows(s.events, now, methodId, ch.entry);
  }

  lemma KeepsGate(config: Config, s: Slot, ch: Change, number: Option<nat>, t: Slot)
    requires Moved(config, s, ch, number, t) && Sequential(s.events) && GateInv(config, s.events)
    ensures GateInv(config, t.events)
  {
    hide GateInv, AcceptsModel, NormalModel, RevisionContext, StaleClosure, Repairs, CaseLabel, EventsById, BudgetLeft,
         FreshOffer, Landed;
    hide ChosenFrom, AnswerFits, PreviousMethod;
    if ch.entry.Chosen? {
      ChosenFollowsFit(config, s, ch);
    }
    assert t.events[..|s.events|] == s.events;
    GateGrows(config, s.events, t.events[|s.events|]);
  }

  // ------------------------------------------------------------------- model

  lemma ModelStays(config: Config, s: Slot, ch: Change, number: Option<nat>, t: Slot)
    requires Moved(config, s, ch, number, t) && !ch.entry.ModelRevised?
    ensures t.file.value.state.model == s.file.value.state.model
            && t.file.value.state.version == s.file.value.state.version
    ensures t.archive == s.archive
  {
    hide StaleClosure, Repairs, CaseLabel, EventsById, BudgetLeft, FreshOffer, OwnStart, Filled, Consulted;
  }

  lemma RevisedModel(config: Config, s: Slot, ch: Change, number: Option<nat>, t: Slot) returns (m: Model)
    requires Moved(config, s, ch, number, t) && ch.entry.ModelRevised?
    ensures AcceptsModel(m, RevisionContext(s.events))
            && t.file.value.state.model == NormalModel(m, RevisionContext(s.events))
  {
    hide AcceptsModel, NormalModel, RevisionContext, Repairs, Filled;
    m :| AcceptsModel(m, RevisionContext(s.events)) && ch.state.model == NormalModel(m, RevisionContext(s.events));
  }

  ghost predicate ModelOk(s: Slot) {
    s.file.Some? && ModelInv(s.file.value.state.model, s.events)
  }

  /** After every revision and every other append the model stays clean. */
  lemma KeepsModel(config: Config, s: Slot, ch: Change, number: Option<nat>, t: Slot)
    requires Moved(config, s, ch, number, t) && OrderOk(s) && OrderOk(t) && ModelOk(s)
    ensures ModelOk(t)
  {
    hide ModelInv, Fits, AcceptsModel, NormalModel, Landed, EventAuthorities, Track;
    var e := t.events[|s.events|];
    if e.body.entry.ProbeCommitted? {
      forall i | 0 <= i < |s.events| ensures ProbeOf(s.events[i].body.entry) != e.body.entry.probe {
        MentionsCommitted(s.events, i);
        assert LegalAt(t.events, |s.events|);
        assert t.events[..|s.events|] == s.events;
      }
    }
    if ch.entry.ModelRevised? {
      var m := RevisedModel(config, s, ch, number, t);
      AuthoritiesStable(s.events, e);
      AcceptedModelInv(m, RevisionContext(s.events), t.events);
    } else {
      ModelStays(config, s, ch, number, t);
      ModelInvStable(s.file.value.state.model, s.events, e);
    }
  }

  // ----------------------------------------------- versions, revision, archive

  /** The model version a Timeline leaves behind. */
  function Version(events: seq<Event>): nat {
    if events == [] then 1
    else Version(events[..|events| - 1]) + if events[|events| - 1].body.entry.ModelRevised? then 1 else 0
  }

  lemma {:induction false} VersionGrows(events: seq<Event>, e: Event)
    ensures Version(events + [e]) == Version(events) + if e.body.entry.ModelRevised? then 1 else 0
  {
    assert (events + [e])[..|events|] == events;
  }

  /** Initial evidence stands before the opening event and nowhere else. */
  predicate OpenedAt(events: seq<Event>, p: int) {
    && 0 <= p < |events| && events[p].body.entry.CaseOpened?
    && forall i :: 0 <= i < |events| && i != p ==>
      (events[i].body.entry.InitialObservation? <==> i < p) && !events[i].body.entry.CaseOpened?
  }

  ghost predicate VersionOk(s: Slot) {
    && s.file.Some?
    && var c := s.file.value.state;
    && c.version == Version(s.events) >= 1
    && OpenedAt(s.events, |s.events| - c.revision)
    && c.lastEvent == |s.events|
    && (forall k :: k in s.archive <==> 1 <= k <= c.version)
    && (forall k :: k in s.archive ==> s.archive[k].state.version == k)
    && s.archive[c.version].state.model == c.model
  }

  /** The version counts the revisions, the distance between Timeline length and
      write token never changes, and the archive holds every version. */
  lemma KeepsVersion(config: Config, s: Slot, ch: Change, number: Option<nat>, t: Slot)
    requires Moved(config, s, ch, number, t) && VersionOk(s)
    requires ch.state.revision == s.file.value.state.revision
    ensures VersionOk(t)
  {
    hide Version, AcceptsModel, NormalModel, RevisionContext, StaleClosure, Repairs, Consulted, CaseLabel, EventsById,
         BudgetLeft, FreshOffer, OwnStart, Filled;
    VersionGrows(s.events, t.events[|s.events|]);
    if !ch.entry.ModelRevised? {
      ModelStays(config, s, ch, number, t);
    }
  }

  lemma TokenKept(config: Config, c: Case, events: seq<Event>, ch: Change)
    requires Fits(config, c, events, ch)
    ensures ch.state.revision == c.revision && ch.state.id == c.id
  {
    hide AcceptsModel, NormalModel, RevisionContext, StaleClosure, Repairs, Consulted, CaseLabel, EventsById,
         BudgetLeft, FreshOffer, OwnStart;
  }

  // --------------------------------------------------------------- staleness

  predicate IsBreak(e: Entry) {
    e.ProbeCompared? && e.verdict.Mismatch? && e.material
  }

  /** A material mismatch affects something, and only items the model has. */
  predicate Touches(m: Model, e: Entry)
    requires e.ProbeCompared?
  {
    e.affected != [] && forall id :: id in e.affected ==> ItemOf(m, id).Some?
  }

  /** A stale case names the material mismatch that made it stale, and its stale
      items are the expansion, in the model that was compared, of what that
      comparison affected. */
  ghost predicate StaleOk(s: Slot) {
    && s.file.Some?
    && var c := s.file.value.state;
    && (c.stale <==> c.mismatch.Some?)
    && (c.stale ==>
          && 1 <= c.mismatch.value <= |s.events|
          && IsBreak(s.events[c.mismatch.value - 1].body.entry)
          && Touches(c.model, s.events[c.mismatch.value - 1].body.entry)
          && c.staleIds == StaleClosure(c.model.plan, SetOf(s.events[c.mismatch.value - 1].body.entry.affected))
          && Version(s.events[..c.mismatch.value]) == c.version)
  }

  lemma KeepsStale(config: Config, s: Slot, ch: Change, number: Option<nat>, t: Slot)
    requires Moved(config, s, ch, number, t) && StaleOk(s) && VersionOk(s) && VersionOk(t) && ReplayOk(s)
    ensures StaleOk(t)
  {
    hide Version, AcceptsModel, NormalModel, RevisionContext, StaleClosure, Repairs, Consulted, CaseLabel, EventsById,
         BudgetLeft, FreshOffer, OwnStart, Filled, ReplayInv;
    var c, d := s.file.value.state, t.file.value.state;
    if IsBreak(ch.entry) {
      assert t.events[..|t.events|] == t.events;
    } else if c.stale && !ch.entry.ModelRevised? {
      ModelStays(config, s, ch, number, t);
      StaleStays(config, s, ch, number, t);
      assert t.events[..c.mismatch.value] == s.events[..c.mismatch.value];
    } else if !c.stale && !ch.entry.ModelRevised? {
      StaleStays(config, s, ch, number, t);
    }
  }

  lemma StaleStays(config: Config, s: Slot, ch: Change, number: Option<nat>, t: Slot)
    requires Moved(config, s, ch, number, t) && !ch.entry.ModelRevised? && !IsBreak(ch.entry)
    ensures var c, d := s.file.value.state, t.file.value.state;
            d.stale == c.stale && d.mismatch == c.mismatch && d.staleIds == c.staleIds
  {
    hide StaleClosure, Consulted, CaseLabel, EventsById, BudgetLeft, FreshOffer, OwnStart, Filled;
  }

  /** The revision at `i` repaired what it says it repaired: the named event is a
      material mismatch compared under the model just before the revision, and
      every item that mismatch made stale is gone from the new model or changed
      in substance. */
  ghost predicate RepairsAt(s: Slot, i: nat)
    requires i < |s.events|
  {
    var e := s.events[i].body.entry;
    e.ModelRevised? && e.repaired.Some? ==>
      && 1 <= e.repaired.value <= i
      && IsBreak(s.events[e.repaired.value - 1].body.entry)
      && e.version > 1 && Version(s.events[..e.repaired.value]) == e.version - 1
      && e.version - 1 in s.archive && e.version in s.archive
      && var before, after := s.archive[e.version - 1].state.model, s.archive[e.version].state.model;
         && Touches(before, s.events[e.repaired.value - 1].body.entry)
         && Repairs(before, after, StaleClosure(before.plan, SetOf(s.events[e.repaired.value - 1].body.entry.affected)))
  }

  ghost predicate RepairsOk(s: Slot) {
    forall i :: 0 <= i < |s.events| ==> RepairsAt(s, i)
  }

  lemma KeepsRepairs(config: Config, s: Slot, ch: Change, number: Option<nat>, t: Slot)
    requires Moved(config, s, ch, number, t) && VersionOk(s) && StaleOk(s) && RepairsOk(s)
    ensures RepairsOk(t)
  {
    hide Fits, Version, Repairs, StaleClosure;
    if !ch.entry.ModelRevised? {
      ModelStays(config, s, ch, number, t);
    } else {
      RevisionRepairs(config, s, ch, number, t);
    }
    forall i | 0 <= i < |t.events| ensures RepairsAt(t, i) {
      if i < |s.events| {
        assert RepairsAt(s, i);
        var e := s.events[i].body.entry;
        if e.ModelRevised? && e.repaired.Some? {
          assert t.events[..e.repaired.value] == s.events[..e.repaired.value];
        }
      }
    }
  }

  lemma RevisionRepairs(config: Config, s: Slot, ch: Change, number: Option<nat>, t: Slot)
    requires Moved(config, s, ch, number, t) && ch.entry.ModelRevised? && VersionOk(s) && StaleOk(s)
    ensures RepairsAt(t, |s.events|)
    ensures forall k :: k in s.archive ==> k in t.archive && t.archive[k] == s.archive[k]
  {
    hide Version, AcceptsModel, NormalModel, RevisionContext, Repairs, StaleClosure, Filled;
    var c := s.file.value.state;
    if c.mismatch.Some? {
      assert t.events[..c.mismatch.value] == s.events[..c.mismatch.value];
    }
  }

  // ----------------------------------------------------------------- closing

  /** The close at `i` left no obligation open. It graded the case above a hypothesis
      exactly when a grounded claim cited evidence really obtained by then, it called no
      other case resolved, and its grade is the one the claims and citations make. */
  ghost predicate CloseAt(s: Slot, i: nat)
    requires s.file.Some? && i < |s.events|
  {
    var e := s.events[i].body.entry;
    e.CaseClosed? ==>
      && s.file.value.state.status.Closed?
      && s.file.value.state.closure == Some(Closure(e.outcome, e.grade, Some(i + 1)))
      && Account(s.events[..i]) == Accounting({}, {}, {})
      && (e.grade != HypothesisLabel <==> RestsOnEvidence(s.file.value.state.model, s.events[..i]))
      && (e.outcome.Resolved? ==> e.grade != HypothesisLabel)
      && Graded(s.file.value.state.model, s.events[..i], e.grade)
      && forall k :: i < k < |s.events| ==> s.events[k].body.entry.OfferFailed?
  }

  ghost predicate CloseOk(s: Slot) {
    && s.file.Some?
    && (forall i :: 0 <= i < |s.events| ==> CloseAt(s, i))
    && (s.file.value.state.status.Closed? ==> s.file.value.state.probe.None? && !s.file.value.state.stale)
  }

  lemma ClosedTakesNothing(config: Config, s: Slot, ch: Change, number: Option<nat>, t: Slot)
    requires Moved(config, s, ch, number, t) && s.file.value.state.status.Closed?
    ensures ch.entry.OfferFailed?
    ensures var c, d := s.file.value.state, t.file.value.state;
            d.status == c.status && d.closure == c.closure && d.model == c.model && d.probe == c.probe
              && d.stale == c.stale
  {
    hide StaleClosure, Consulted, CaseLabel, EventsById, BudgetLeft, FreshOffer, OwnStart, Filled, AcceptsModel,
         NormalModel, RevisionContext, Repairs;
  }

  lemma CloseLands(config: Config, s: Slot, ch: Change, number: Option<nat>, t: Slot)
    requires Moved(config, s, ch, number, t) && ch.entry.CaseClosed? && ReplayOk(s) && ModelOk(s)
             && Sequential(s.events) && RecordsOk(s)
    ensures CloseAt(t, |s.events|)
  {
    hide ReplayInv, ModelInv, Account, RestsOnEvidence, Graded, EventsById, CaseLabel, Consulted, Recorded, Mirrored,
         ProbeAuthorities;
    var c := s.file.value.state;
    assert t.events[..|s.events|] == s.events;
    InvAgrees(FlagsOf(c), s.events);
    FlagsConsistent(FlagsOf(c), s.events);
    BetterThanHypothesis(c.model, s.events);
    GradeExactly(c.model, s.events);
  }

  lemma NotClosing(config: Config, s: Slot, ch: Change, number: Option<nat>, t: Slot)
    requires Moved(config, s, ch, number, t) && !s.file.value.state.status.Closed?
    ensures t.file.value.state.status.Closed? <==> ch.entry.CaseClosed?
    ensures ch.entry.CaseClosed? ==> t.file.value.state.probe.None? && !t.file.value.state.stale
  {
    hide StaleClosure, Consulted, CaseLabel, EventsById, BudgetLeft, FreshOffer, OwnStart, Filled, AcceptsModel,
         NormalModel, RevisionContext, Repairs;
  }

  lemma KeepsClose(config: Config, s: Slot, ch: Change, number: Option<nat>, t: Slot)
    requires Moved(config, s, ch, number, t) && ReplayOk(s) && ModelOk(s) && Sequential(s.events) && CloseOk(s)
    requires RecordsOk(s)
    ensures CloseOk(t)
  {
    hide Fits, ReplayInv, ModelInv, Account, RestsOnEvidence, Graded, Landed, RecordsOk;
    if s.file.value.state.status.Closed? {
      ClosedTakesNothing(config, s, ch, number, t);
    } else {
      NotClosing(config, s, ch, number, t);
    }
    forall i | 0 <= i < |t.events| ensures CloseAt(t, i) {
      if i < |s.events| {
        assert CloseAt(s, i);
        assert t.events[..i] == s.events[..i];
      } else if ch.entry.CaseClosed? {
        CloseLands(config, s, ch, number, t);
      }
    }
  }

  // ---------------------------------------------------- recorded observations

  /** The Timeline records every observation well, and the snapshot shows the
      newest one of the pending probe and the authority it was committed with. */
  ghost predicate RecordsOk(s: Slot) {
    && s.file.Some? && Recorded(s.events)
    && var probe := s.file.value.state.probe;
    && (probe.Some? ==> 1 <= probe.value.id && probe.value.id in ProbeAuthorities(s.events)
                        && ProbeAuthorities(s.events)[probe.value.id] == probe.value.authority)
    && (probe.Some? && probe.value.status.Observed? ==>
          && probe.value.observation.Some? && 1 <= probe.value.observation.value <= |s.events|
          && Mirrored(probe.value, s.events[probe.value.observation.value - 1].body.entry))
  }

  lemma {:induction false} AuthoritiesGrow(events: seq<Event>, e: Event)
    ensures ProbeAuthorities(events + [e]) ==
            if e.body.entry.ProbeCommitted? && e.body.entry.probe != 0 && e.body.entry.authority.Some?
            then ProbeAuthorities(events)[e.body.entry.probe := e.body.entry.authority.value]
            else ProbeAuthorities(events)
  {
    assert (events + [e])[..|events|] == events;
  }

  lemma KeepsRecords(config: Config, s: Slot, ch: Change, number: Option<nat>, t: Slot)
    requires Moved(config, s, ch, number, t) && RecordsOk(s)
    ensures RecordsOk(t)
  {
    hide ProbeAuthorities, Recorded, AcceptsModel, NormalModel, RevisionContext, StaleClosure, Repairs, Consulted,
         CaseLabel, EventsById, BudgetLeft, FreshOffer, OwnStart, Filled, ItemOf;
    AuthoritiesGrow(s.events, t.events[|s.events|]);
    assert t.events[..|s.events|] == s.events;
    RecordedGrows(s.events, t.events[|s.events|]);
  }

  // ------------------------------------------------------- the probed claim

  /** The claim a pending probe is about is still in the model. */
  predicate ClaimKept(s: Slot) {
    && s.file.Some?
    && var c := s.file.value.state;
       c.probe.Some? && c.probe.value.claim.Some? ==> ItemOf(c.model, c.probe.value.claim.value).Some?
  }

  lemma KeepsClaim(config: Config, s: Slot, ch: Change, number: Option<nat>, t: Slot)
    requires Moved(config, s, ch, number, t) && ClaimKept(s)
    ensures ClaimKept(t)
  {
    hide ItemOf, AcceptsModel, NormalModel, RevisionContext, StaleClosure, Repairs, Consulted, CaseLabel, EventsById,
         BudgetLeft, FreshOffer, OwnStart, Filled;
    if !ch.entry.ModelRevised? {
      ModelStays(config, s, ch, number, t);
    }
  }

  // --------------------------------------------------------------- all of it

  /** Everything that holds of a case in every reachable state. */
  ghost predicate CaseInv(config: Config, s: Slot) {
    && Sequential(s.events)
    && ReplayOk(s) && OrderOk(s) && GateInv(config, s.events) && ModelOk(s)
    && VersionOk(s) && StaleOk(s) && RepairsOk(s) && CloseOk(s) && ClaimKept(s) && RecordsOk(s)
  }

  lemma KeepsCase(config: Config, s: Slot, ch: Change, number: Option<nat>, t: Slot)
    requires Moved(config, s, ch, number, t) && CaseInv(config, s)
    ensures CaseInv(config, t)
  {
    hide Fits, Landed, ReplayOk, OrderOk, GateInv, ModelOk, VersionOk, StaleOk, RepairsOk, CloseOk, ClaimKept,
         RecordsOk;
    TokenKept(config, s.file.value.state, s.events, ch);
    KeepsReplay(config, s, ch, number, t);
    KeepsOrder(config, s, ch, number, t);
    KeepsGate(config, s, ch, number, t);
    KeepsModel(config, s, ch, number, t);
    KeepsVersion(config, s, ch, number, t);
    KeepsStale(config, s, ch, number, t);
    KeepsRepairs(config, s, ch, number, t);
    KeepsClose(config, s, ch, number, t);
    KeepsClaim(config, s, ch, number, t);
    KeepsRecords(config, s, ch, number, t);
  }

  /** Replay lets a case go on exactly when its own flags do: it never objects to
      a reachable case for a reason the snapshot does not show. */
  lemma UsableIsFlags(config: Config, s: Slot)
    requires CaseInv(config, s)
    ensures var c := s.file.value.state;
            Usable(c, s.events) <==> !c.stale && (c.probe.None? || c.probe.value.status.Committed?)
  {
    hide OrderOk, GateInv, VersionOk, StaleOk, RepairsOk, CloseOk, ModelInv, ModelClean, Account;
    var c := s.file.value.state;
    InvAgrees(FlagsOf(c), s.events);
    InvIsClean(c.model, s.events);
  }

  /** No probe is pending on a stale model. */
  lemma PendingIsFresh(config: Config, s: Slot)
    requires CaseInv(config, s)
    ensures s.file.Some? && !(s.file.value.state.probe.Some? && s.file.value.state.stale)
  {
    hide OrderOk, GateInv, ModelOk, VersionOk, StaleOk, RepairsOk, CloseOk, ClaimKept, RecordsOk, ProbeInv, Mismatches,
         Repaired;
  }
}
