/** What holds in every world a run of the system can reach. */
module Guarantees {
  import opened Wrappers
  import opened Records
  import opened Timeline
  import opened Dispositions
  import opened Journal
  import opened History
  import opened Claims
  import opened Calibration
  import opened Consultation
  import opened CallBudget
  import opened Replay
  import opened ProbeOrder
  import opened Provenance
  import opened Observations
  import opened Harness
  import opened Invariants
  import opened Past
  import opened Sessions
  import opened Lifecycle
  import opened Effects
  import opened Resumption

  /** World `k` of a run, and a case that exists in it. */
  ghost predicate Reached(h: Hasher, config: Config, run: seq<World>, moves: seq<Move>, times: seq<int>, k: nat,
                          id: CaseId) {
    IsRun(h, config, run, moves, times) && k < |run| && Exists(run[k].store, id)
  }

  lemma ReachedCase(h: Hasher, config: Config, run: seq<World>, moves: seq<Move>, times: seq<int>, k: nat, id: CaseId)
    requires Reached(h, config, run, moves, times, k, id)
    ensures CaseInv(config, run[k].store.slots[id]) && Settled(h, id, run[k].store.slots[id])
  {
    RunsKeepWorld(h, config, run, moves, times, k);
    hide CaseInv, IsRun, Settled, PastOk, MarkerOk, SingleActive, LogTrue, LogComplete, LogNumbered;
    assert SlotOk(config, run[k].store.slots[id]);
  }

  /** Replay, which reads the whole Timeline, and the snapshot agree on what is
      uncompared and what is unrepaired, and replay finds nothing wrong with the
      model. */
  lemma ReplayAlwaysAgrees(h: Hasher, config: Config, run: seq<World>, moves: seq<Move>, times: seq<int>, k: nat,
                           id: CaseId)
    requires Reached(h, config, run, moves, times, k, id)
    ensures var c, events := StateOf(run[k].store, id), run[k].store.slots[id].events;
            Agree(FlagsOf(c), events) && ModelClean(c.model, events)
  {
    ReachedCase(h, config, run, moves, times, k, id);
    hide Agree, ModelClean, ReplayInv, ModelInv, Reached, OrderOk, GateInv, VersionOk, StaleOk, RepairsOk, CloseOk,
         Settled;
    var c, events := StateOf(run[k].store, id), run[k].store.slots[id].events;
    InvAgrees(FlagsOf(c), events);
    InvIsClean(c.model, events);
  }

  /** A closed case owes nothing: every observation was compared or discarded and
      every material mismatch repaired. */
  lemma ClosedCasesAreSettled(h: Hasher, config: Config, run: seq<World>, moves: seq<Move>, times: seq<int>, k: nat,
                              id: CaseId)
    requires Reached(h, config, run, moves, times, k, id) && StateOf(run[k].store, id).status.Closed?
    ensures Account(run[k].store.slots[id].events) == Accounting({}, {}, {})
  {
    ReachedCase(h, config, run, moves, times, k, id);
    hide ReplayInv, ModelInv, Reached, OrderOk, GateInv, VersionOk, StaleOk, RepairsOk, Settled, Account, CloseAt;
    InvAgrees(FlagsOf(StateOf(run[k].store, id)), run[k].store.slots[id].events);
  }

  /** A closed case was graded above a hypothesis exactly when a grounded claim
      cited evidence really obtained before the close, and none but such a case was
      closed as resolved. */
  lemma ResolvedIsGrounded(h: Hasher, config: Config, run: seq<World>, moves: seq<Move>, times: seq<int>,
                           k: nat, id: CaseId, i: nat)
    requires Reached(h, config, run, moves, times, k, id) && i < |run[k].store.slots[id].events|
    requires run[k].store.slots[id].events[i].body.entry.CaseClosed?
    ensures var e := run[k].store.slots[id].events[i].body.entry;
            var grounded := RestsOnEvidence(StateOf(run[k].store, id).model, run[k].store.slots[id].events[..i]);
            (e.grade != HypothesisLabel <==> grounded) && (e.outcome.Resolved? ==> grounded)
  {
    ReachedCase(h, config, run, moves, times, k, id);
    hide ReplayInv, ModelInv, Reached, OrderOk, GateInv, VersionOk, StaleOk, RepairsOk, Settled, Account,
         RestsOnEvidence;
    assert CloseAt(run[k].store.slots[id], i);
  }

  /** A reachable case that owes nothing and was consulted on may close as resolved
      exactly when some grounded claim cites evidence really obtained. */
  lemma ResolvesExactly(h: Hasher, config: Config, run: seq<World>, moves: seq<Move>, times: seq<int>,
                        k: nat, id: CaseId, session: Session)
    requires Reached(h, config, run, moves, times, k, id)
    requires Owns(StateOf(run[k].store, id), session) && Unencumbered(StateOf(run[k].store, id))
    requires Consulted(config, run[k].store.slots[id].events, ClosePoint)
    ensures var c, events := StateOf(run[k].store, id), run[k].store.slots[id].events;
            PlanClose(config, c, events, session, Resolved).Some? <==> RestsOnEvidence(c.model, events)
  {
    ReachedCase(h, config, run, moves, times, k, id);
    hide ReplayOk, Reached, OrderOk, GateInv, VersionOk, StaleOk, RepairsOk, CloseOk, Settled, ModelInv, Usable,
         RestsOnEvidence, Consulted, EventsById, CaseLabel;
    UsableIsFlags(config, run[k].store.slots[id]);
    BetterThanHypothesis(StateOf(run[k].store, id).model, run[k].store.slots[id].events);
  }

  /** No two events commit, start or observe the same probe. */
  lemma ProbesHappenOnce(h: Hasher, config: Config, run: seq<World>, moves: seq<Move>, times: seq<int>, k: nat,
                         id: CaseId, i: nat, j: nat)
    requires Reached(h, config, run, moves, times, k, id) && i < j < |run[k].store.slots[id].events|
    ensures
      var a, b := run[k].store.slots[id].events[i].body.entry, run[k].store.slots[id].events[j].body.entry;
      && (a.ProbeCommitted? && b.ProbeCommitted? ==> a.probe < b.probe)
      && (a.ProbeStarted? && b.ProbeStarted? ==> a.probe != b.probe)
      && (a.ProbeObserved? && b.ProbeObserved? ==> a.probe != b.probe)
  {
    ReachedCase(h, config, run, moves, times, k, id);
    hide ReplayOk, ModelOk, Reached, GateInv, VersionOk, StaleOk, RepairsOk, CloseOk, Settled, Orderly;
    var events := run[k].store.slots[id].events;
    var a, b := events[i].body.entry, events[j].body.entry;
    if a.ProbeCommitted? && b.ProbeCommitted? { CommittedOnce(events, i, j); }
    if a.ProbeStarted? && b.ProbeStarted? { StartedOnce(events, i, j); }
    if a.ProbeObserved? && b.ProbeObserved? { ObservedOnce(events, i, j); }
  }

  /** The resolver's verdict on any recorded observation is the one its recorded
      links give: every exposure supersedes an earlier observation of the same
      probe, tool and authority, and the chain ends in an observed root that has
      the authority its probe was committed with. */
  lemma {:induction false} VerdictsFollowRecord(h: Hasher, config: Config, run: seq<World>, moves: seq<Move>,
                                                times: seq<int>, k: nat, id: CaseId, i: nat)
    requires Reached(h, config, run, moves, times, k, id)
    requires i < |run[k].store.slots[id].events| && IsObservation(run[k].store.slots[id].events[i].body.entry)
    ensures var events := run[k].store.slots[id].events;
            RecordAt(events, i) && Resolve(i + 1, EventsById(events), None, {}) == RecordedVerdict(events, i)
  {
    ReachedCase(h, config, run, moves, times, k, id);
    hide ReplayOk, ModelOk, OrderOk, Reached, GateInv, VersionOk, StaleOk, RepairsOk, CloseOk, Settled, EventsById,
         Resolve, RecordAt;
    ResolveFollowsRecord(run[k].store.slots[id].events, i, None, {});
  }

  /** A revision that addresses a material mismatch removed, or changed in
      substance, every item that mismatch had made stale in the model that was
      compared. */
  lemma RevisionsRepair(h: Hasher, config: Config, run: seq<World>, moves: seq<Move>, times: seq<int>, k: nat,
                        id: CaseId, i: nat)
    requires Reached(h, config, run, moves, times, k, id) && i < |run[k].store.slots[id].events|
    ensures RepairsAt(run[k].store.slots[id], i)
  {
    ReachedCase(h, config, run, moves, times, k, id);
    hide ReplayOk, ModelOk, OrderOk, Reached, GateInv, VersionOk, StaleOk, CloseOk, Settled, RepairsAt;
  }

  /** With advice enabled, every commitment and every close directly follows a
      consultation for its own decision, and a choice there has the right kind;
      and a case never holds more offers than its limit. */
  lemma DecisionsFollowAdvice(h: Hasher, config: Config, run: seq<World>, moves: seq<Move>, times: seq<int>, k: nat,
                              id: CaseId, i: nat)
    requires Reached(h, config, run, moves, times, k, id) && i < |run[k].store.slots[id].events|
    requires var e := run[k].store.slots[id].events[i].body.entry; config.enabled
                                                                   && (e.ProbeCommitted? || e.CaseClosed?)
    ensures var events := run[k].store.slots[id].events;
            && i > 0
            && Consults(events[i - 1].body.entry, if events[i].body.entry.CaseClosed? then ClosePoint else ProbePoint)
            && (events[i - 1].body.entry.Chosen?
                ==> (events[i - 1].body.entry.choice.Stop? <==> events[i].body.entry.CaseClosed?))
            && OfferCount(events) <= if config.maxCalls < 0 then 0 else config.maxCalls
  {
    ReachedCase(h, config, run, moves, times, k, id);
    hide ReplayOk, ModelOk, OrderOk, Reached, GateInv, VersionOk, StaleOk, RepairsOk, CloseOk, Settled;
    DecisionsAreConsulted(config, run[k].store.slots[id].events, i);
    OffersWithinBudget(config, run[k].store.slots[id].events);
  }

  /** A case goes past its limit on attempts by no more than the calls that were
      under way when the last one was let start; without overlap it never does. */
  lemma AttemptsBounded(h: Hasher, config: Config, run: seq<World>, moves: seq<Move>, times: seq<int>,
                        k: nat, id: CaseId, last: nat)
    requires Reached(h, config, run, moves, times, k, id) && last < |run[k].store.slots[id].events|
    requires run[k].store.slots[id].events[last].body.entry.OfferStarted?
    requires NoStart(run[k].store.slots[id].events[last + 1..])
    ensures var events := run[k].store.slots[id].events;
            Attempts(events) <= config.maxCalls + |OpenCalls(events[..last])|
  {
    ReachedCase(h, config, run, moves, times, k, id);
    hide ReplayOk, ModelOk, OrderOk, Reached, GateInv, VersionOk, StaleOk, RepairsOk, CloseOk, Settled;
    ExcessBounded(config, run[k].store.slots[id].events, last);
  }

  /** At most one case is active on a session, in every world. */
  lemma OneActivePerSession(h: Hasher, config: Config, run: seq<World>, moves: seq<Move>, times: seq<int>, k: nat,
                            a: CaseId, b: CaseId, s: Session)
    requires IsRun(h, config, run, moves, times) && k < |run|
    requires IsActive(run[k].store, a, s) && IsActive(run[k].store, b, s)
    ensures a == b
  {
    RunsKeepWorld(h, config, run, moves, times, k);
    hide IsRun, StoreInv, AllSlots;
  }

  /** Across all Timelines the disposition numbers of a session are exactly 1 up
      to its count, each of them used by one event. */
  lemma DispositionsGapFree(h: Hasher, config: Config, run: seq<World>, moves: seq<Move>, times: seq<int>, k: nat,
                            s: Session, n: nat)
    returns (id: CaseId, i: nat)
    requires IsRun(h, config, run, moves, times) && k < |run| && 1 <= n <= Count(run[k].store.log, s)
    ensures id in run[k].store.slots && i < |run[k].store.slots[id].events|
            && NumberOf(run[k].store.slots[id].events[i], s) == n
    ensures forall c, j :: (c in run[k].store.slots && 0 <= j < |run[k].store.slots[c].events|
                            && NumberOf(run[k].store.slots[c].events[j], s) == n) ==> c == id && j == i
  {
    RunsKeepWorld(h, config, run, moves, times, k);
    hide IsRun, WorldInv, LogTrue, LogNumbered, LogComplete, AllSettled, NumberOf;
    var st := run[k].store;
    InStore(h, config, run[k]);
    Numbers(h, st);
    id, i := SessionNumbersDense(st, s, n);
    forall c, j | c in st.slots && 0 <= j < |st.slots[c].events| && NumberOf(st.slots[c].events[j], s) == n
      ensures c == id && j == i
    {
      SessionNumbersUnique(h, st, s, c, j, id, i);
    }
  }

  lemma InStore(h: Hasher, config: Config, w: World)
    requires WorldInv(h, config, w)
    ensures StoreInv(h, w.store)
  {
    hide StoreInv, AllSlots;
  }

  /** Every Timeline verifies and its snapshot is bound to its tip. */
  lemma ChainsVerify(h: Hasher, config: Config, run: seq<World>, moves: seq<Move>, times: seq<int>, k: nat, id: CaseId)
    requires Reached(h, config, run, moves, times, k, id)
    ensures var s := run[k].store.slots[id]; Chained(h, s.events) && Binds(h, s.file.value, s.events)
  {
    ReachedCase(h, config, run, moves, times, k, id);
    hide CaseInv, IsRun, Chained;
  }

  // ------------------------------------------------------------- over time

  /** A move only ever appends to a Timeline. */
  lemma TimelineGrows(h: Hasher, config: Config, w: World, m: Move, at: int, id: CaseId)
    requires WorldInv(h, config, w) && Exists(w.store, id) && Next(h, config, w, m, at).Ok?
    ensures var v := Next(h, config, w, m, at).value;
            Exists(v.store, id) && w.store.slots[id].events <= v.store.slots[id].events
  {
    hide WorldInv, Next, OpenedBy, Licensed, Outline;
    NextDone(h, config, w, m, at);
    var v := Next(h, config, w, m, at).value;
    if c, ch :| ChangedBy(w.store, w.leased, c, ch, LicenceOf(m), v.store) {
      ShiftGrows(w.store, c, ch, v.store, id);
    } else if c, session :| OpenedBy(w.store, c, session, v.store) {
      OpenedOther(w.store, c, session, v.store, id);
    }
  }

  lemma {:induction false} TimelinesGrow(h: Hasher, config: Config, run: seq<World>, moves: seq<Move>, times: seq<int>,
                                         id: CaseId, j: nat, k: nat)
    requires Reached(h, config, run, moves, times, j, id) && j <= k < |run|
    ensures Exists(run[k].store, id) && run[j].store.slots[id].events <= run[k].store.slots[id].events
    decreases k
  {
    hide WorldInv, Next;
    if j < k {
      TimelinesGrow(h, config, run, moves, times, id, j, k - 1);
      RunsKeepWorld(h, config, run, moves, times, k - 1);
      PathStep(h, config, run, moves, times, k);
      TimelineGrows(h, config, run[k - 1], moves[k - 1], times[k - 1], id);
    }
  }

  lemma OneOpening(a: seq<Event>, b: seq<Event>, p: int, q: int)
    requires a <= b && OpenedAt(a, p) && OpenedAt(b, q)
    ensures p == q
  {
  }

  lemma OpenedWhere(config: Config, s: Slot)
    requires CaseInv(config, s)
    ensures OpenedAt(s.events, |s.events| - s.file.value.state.revision)
  {
    hide ReplayOk, ModelOk, OrderOk, GateInv, StaleOk, RepairsOk, CloseOk, ClaimKept, RecordsOk, OpenedAt;
  }

  lemma TokenFact(h: Hasher, config: Config, run: seq<World>, moves: seq<Move>, times: seq<int>, k: nat, id: CaseId)
    requires Reached(h, config, run, moves, times, k, id)
    ensures CaseInv(config, run[k].store.slots[id])
    ensures var s := run[k].store.slots[id]; OpenedAt(s.events, |s.events| - s.file.value.state.revision)
  {
    hide IsRun, CaseInv, Settled, OpenedAt;
    ReachedCase(h, config, run, moves, times, k, id);
    OpenedWhere(config, run[k].store.slots[id]);
  }

  /** The write token of a case counts its events from the opening on: their
      difference is fixed once and for all. */
  lemma TokenCountsEvents(h: Hasher, config: Config, run: seq<World>, moves: seq<Move>, times: seq<int>, id: CaseId,
                          j: nat, k: nat)
    requires Reached(h, config, run, moves, times, j, id) && j <= k < |run|
    ensures Exists(run[k].store, id)
    ensures |run[j].store.slots[id].events| - StateOf(run[j].store, id).revision
         == |run[k].store.slots[id].events| - StateOf(run[k].store, id).revision
  {
    hide IsRun, OpenedAt;
    TimelinesGrow(h, config, run, moves, times, id, j, k);
    TokenFact(h, config, run, moves, times, j, id);
    TokenFact(h, config, run, moves, times, k, id);
    OneOpening(run[j].store.slots[id].events, run[k].store.slots[id].events,
               |run[j].store.slots[id].events| - StateOf(run[j].store, id).revision,
               |run[k].store.slots[id].events| - StateOf(run[k].store, id).revision);
  }

  /** The version is one more than the number of revisions, and the archive holds
      exactly the versions so far, each under its own number. */
  lemma VersionsArchived(h: Hasher, config: Config, run: seq<World>, moves: seq<Move>, times: seq<int>, k: nat,
                         id: CaseId)
    requires Reached(h, config, run, moves, times, k, id)
    ensures var s := run[k].store.slots[id];
            && s.file.value.state.version == Version(s.events)
            && (forall n :: n in s.archive <==> 1 <= n <= s.file.value.state.version)
            && (forall n :: n in s.archive ==> s.archive[n].state.version == n)
  {
    ReachedCase(h, config, run, moves, times, k, id);
    hide IsRun, ReplayOk, ModelOk, OrderOk, GateInv, StaleOk, RepairsOk, CloseOk, Settled, OpenedAt, Version;
  }

  /** While the execution lease of a case is held, no migration, compression or
      adoption moves it to another session: only its explicit resume from pause
      can. */
  lemma LeaseFencesMigration(h: Hasher, config: Config, w: World, m: Move, at: int, id: CaseId)
    requires WorldInv(h, config, w) && Next(h, config, w, m, at).Ok? && Exists(w.store, id) && id in w.leased
    requires Exists(Next(h, config, w, m, at).value.store, id)
    requires StateOf(Next(h, config, w, m, at).value.store, id).session != StateOf(w.store, id).session
    ensures m.Resumes? && m.id == id && StateOf(w.store, id).status.Paused?
  {
    hide WorldInv, Next, OpenedBy;
    NextDone(h, config, w, m, at);
    var v := Next(h, config, w, m, at).value;
    if c, ch :| ChangedBy(w.store, w.leased, c, ch, LicenceOf(m), v.store) {
      hide Shifted;
      ShiftedOther(w.store, c, ch, v.store, id);
      assert c == id;
      ShiftState(w.store, id, ch, v.store);
    } else if c, session :| OpenedBy(w.store, c, session, v.store) {
      OpenedOther(w.store, c, session, v.store, id);
    }
  }
}
