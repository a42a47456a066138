/** What the harness rules, over whole runs and for every single operation, in terms
    of the claims, steps, probes and offers it rules on. */
module Rulings {
  import opened Records
  import opened Journal
  import opened History
  import opened Staleness
  import opened Claims
  import opened Calibration
  import opened Grading
  import opened Consultation
  import opened Replay
  import opened Harness
  import opened Invariants
  import opened Past
  import opened Grounding
  import opened Repairing
  import opened Reach
  import opened Sessions
  import opened Lifecycle
  import opened Effects
  import opened Guarantees

  // ---------------------------------------------------------- over whole runs

  lemma ReachedPast(h: Hasher, config: Config, run: seq<World>, moves: seq<Move>, times: seq<int>, k: nat, id: CaseId)
    requires Guarantees.Reached(h, config, run, moves, times, k, id)
    ensures CaseInv(config, run[k].store.slots[id]) && PastOk(run[k].store.slots[id])
  {
    hide CaseInv, PastOk, MarkerOk, StoreInv, SingleActive, Next;
    RunsKeepWorld(h, config, run, moves, times, k);
    assert SlotOk(config, run[k].store.slots[id]);
  }

  /** Whatever a claim of a reachable case cites is an event that states a domain, the
      claim states one itself, and both are of one group: no word of the user's grounds
      a claim about the world, and nothing in the world one about the user. */
  lemma ClaimsStayInGroup(h: Hasher, config: Config, run: seq<World>, moves: seq<Move>, times: seq<int>, k: nat,
                          id: CaseId, c: Claim, r: Ref)
    requires Guarantees.Reached(h, config, run, moves, times, k, id)
    requires c in Sections(StateOf(run[k].store, id).model) && r in c.refs
    ensures var events := run[k].store.slots[id].events;
            && r.EventRef? && 1 <= r.id <= |events| && c.authority.Stated?
            && DomainOf(events[r.id - 1].body.entry).Some?
            && External(DomainOf(events[r.id - 1].body.entry).value) == External(c.authority.domain)
  {
    hide CaseInv, PastOk, IsRun;
    ReachedPast(h, config, run, moves, times, k, id);
    var s := run[k].store.slots[id];
    CleanSlot(config, s);
    ClaimInGroup(s, c, r);
  }

  lemma CleanSlot(config: Config, s: Slot)
    requires CaseInv(config, s) && PastOk(s)
    ensures s.file.Some? && ModelInv(s.file.value.state.model, s.events) && Sequential(s.events) && Sources(s)
  {
    hide ReplayOk, OrderOk, GateInv, VersionOk, StaleOk, RepairsOk, CloseOk, ClaimKept, RecordsOk, ModelInv, Sequential,
         Sources, ModelsSound, Trail, PausedSince;
  }

  lemma ClaimInGroup(s: Slot, c: Claim, r: Ref)
    requires s.file.Some? && ModelInv(s.file.value.state.model, s.events) && Sequential(s.events) && Sources(s)
    requires c in Sections(s.file.value.state.model) && r in c.refs
    ensures r.EventRef? && 1 <= r.id <= |s.events| && c.authority.Stated?
    ensures DomainOf(s.events[r.id - 1].body.entry).Some?
    ensures External(DomainOf(s.events[r.id - 1].body.entry).value) == External(c.authority.domain)
  {
    hide EventAuthorities, ToolFits, ModelInv;
    ModelClaims(s.file.value.state.model, s.events, c);
    DomainStated(s.events, r.id);
  }

  /** After every repair on record, each item that rested on what the mismatch affected
      is gone from the model, rewritten, or held with less certainty than before. */
  lemma RepairsMend(h: Hasher, config: Config, run: seq<World>, moves: seq<Move>, times: seq<int>, k: nat,
                    id: CaseId, i: nat, x: ItemId)
    requires Guarantees.Reached(h, config, run, moves, times, k, id) && i < |run[k].store.slots[id].events|
    requires var e := run[k].store.slots[id].events[i].body.entry; e.ModelRevised? && e.repaired.Some?
    ensures var s := run[k].store.slots[id];
            var e := s.events[i].body.entry;
            && 1 <= e.repaired.value <= i && s.events[e.repaired.value - 1].body.entry.ProbeCompared?
            && e.version > 1 && e.version - 1 in s.archive && e.version in s.archive
            && var before, after := s.archive[e.version - 1].state.model, s.archive[e.version].state.model;
               (Reaches(before.plan, SetOf(s.events[e.repaired.value - 1].body.entry.affected), x)
                && ItemOf(before, x).Some? && ItemOf(after, x).Some?) ==>
                 Rewritten(ItemOf(before, x).value, ItemOf(after, x).value)
                 || Lowered(ItemOf(before, x).value, ItemOf(after, x).value)
  {
    hide CaseInv, PastOk, IsRun, Reaches, ItemOf, Substantive, Rewritten, Lowered, ModelSound, Version;
    ReachedPast(h, config, run, moves, times, k, id);
    RevisionsRepair(h, config, run, moves, times, k, id, i);
    var s := run[k].store.slots[id];
    var e := s.events[i].body.entry;
    var before, after := s.archive[e.version - 1].state.model, s.archive[e.version].state.model;
    assert ModelSound(before) && ModelSound(after) by { ArchivedSound(s, e.version - 1); ArchivedSound(s, e.version); }
    var affected := SetOf(s.events[e.repaired.value - 1].body.entry.affected);
    ClosureIsReach(before.plan, affected);
    MendsExactly(before, after, StaleClosure(before.plan, affected));
  }

  lemma ArchivedSound(s: Slot, v: nat)
    requires PastOk(s) && v in s.archive
    ensures ModelSound(s.archive[v].state.model)
  {
    hide ModelSound, Trail, Sources, PausedSince;
  }

  /** Every close on record carries the grade its claims and citations made then. */
  lemma ClosesAreGraded(h: Hasher, config: Config, run: seq<World>, moves: seq<Move>, times: seq<int>, k: nat,
                        id: CaseId, i: nat)
    requires Guarantees.Reached(h, config, run, moves, times, k, id) && i < |run[k].store.slots[id].events|
    requires run[k].store.slots[id].events[i].body.entry.CaseClosed?
    ensures Graded(StateOf(run[k].store, id).model, run[k].store.slots[id].events[..i],
                   run[k].store.slots[id].events[i].body.entry.grade)
  {
    hide PastOk, IsRun, Graded;
    ReachedPast(h, config, run, moves, times, k, id);
    hide ReplayOk, OrderOk, GateInv, VersionOk, StaleOk, RepairsOk, ClaimKept, RecordsOk, ModelOk, RestsOnEvidence,
         Account;
    assert CloseAt(run[k].store.slots[id], i);
  }

  /** A Timeline tells on which session the case was at each event: it changes only
      where the case was moved or resumed, and there the event names both sessions. */
  lemma TimelinesTrail(h: Hasher, config: Config, run: seq<World>, moves: seq<Move>, times: seq<int>, k: nat,
                       id: CaseId, i: nat)
    requires Guarantees.Reached(h, config, run, moves, times, k, id) && i < |run[k].store.slots[id].events|
    ensures var events := run[k].store.slots[id].events;
            && events[|events| - 1].body.session == StateOf(run[k].store, id).session
            && var e := events[i].body.entry;
            && (e.SessionMigrated? || e.MigrationAborted? ==>
                  i > 0 && e.from == events[i - 1].body.session && e.to == events[i].body.session)
            && (e.CaseResumed? ==> i > 0 && e.prior == events[i - 1].body.session)
            && (i > 0 && !Rebinds(e) ==> events[i].body.session == events[i - 1].body.session)
  {
    hide CaseInv, IsRun, ModelsSound, Sources, PausedSince;
    ReachedPast(h, config, run, moves, times, k, id);
    assert TrailAt(run[k].store.slots[id].events, i);
  }

  /** No probe was ever aimed at a tool of the harness itself, and none that asked the
      user observed anything but what the user is the authority on. */
  lemma ToolsFit(h: Hasher, config: Config, run: seq<World>, moves: seq<Move>, times: seq<int>, k: nat,
                 id: CaseId, i: nat)
    requires Guarantees.Reached(h, config, run, moves, times, k, id) && i < |run[k].store.slots[id].events|
    ensures var probe, e := StateOf(run[k].store, id).probe, run[k].store.slots[id].events[i].body.entry;
            && (probe.Some? ==> ToolFits(probe.value.tool, probe.value.authority))
            && (e.ProbeObserved? || e.ProbeExposed? ==> e.authority.Some? && ToolFits(e.tool, e.authority.value))
  {
    hide CaseInv, IsRun, ModelsSound, Trail, PausedSince, ToolFits;
    ReachedPast(h, config, run, moves, times, k, id);
    assert SourceAt(run[k].store.slots[id].events[i].body.entry);
  }

  /** Every model a case has or had says something in each of its parts, and grounds
      no claim that cites nothing. */
  lemma ModelsStaySound(h: Hasher, config: Config, run: seq<World>, moves: seq<Move>, times: seq<int>, k: nat,
                        id: CaseId, v: nat)
    requires Guarantees.Reached(h, config, run, moves, times, k, id) && v in run[k].store.slots[id].archive
    ensures ModelSound(StateOf(run[k].store, id).model) && ModelSound(run[k].store.slots[id].archive[v].state.model)
  {
    hide CaseInv, IsRun, Trail, Sources, PausedSince, ModelSound;
    ReachedPast(h, config, run, moves, times, k, id);
  }

  /** The marker of a case names the pause it was set by; since then the case was only
      moved while it lay paused, or had the failure of a call recorded. */
  lemma MarkersNamePauses(h: Hasher, config: Config, run: seq<World>, moves: seq<Move>, times: seq<int>, k: nat,
                          id: CaseId)
    requires Guarantees.Reached(h, config, run, moves, times, k, id)
    requires StateOf(run[k].store, id).marker.Some?
    ensures var c, events := StateOf(run[k].store, id), run[k].store.slots[id].events;
            var pause := c.marker.value.pauseEvent;
            && c.status.Paused? && pause.Some? && 1 <= pause.value <= |events|
            && events[pause.value - 1].body.entry.CasePaused?
            && forall i :: pause.value <= i < |events| ==>
                 events[i].body.entry.SessionMigrated? || events[i].body.entry.OfferFailed?
  {
    hide CaseInv, IsRun, ModelsSound, Trail, Sources;
    ReachedPast(h, config, run, moves, times, k, id);
  }

  /** No session is prepared to continue as two others at once. */
  lemma OneTarget(h: Hasher, config: Config, run: seq<World>, moves: seq<Move>, times: seq<int>, k: nat,
                  i: Intent, j: Intent)
    requires Effects.IsRun(h, config, run, moves, times) && k < |run|
    requires i in run[k].intents && j in run[k].intents && i.from == j.from
    ensures i == j
  {
    RunsKeepWorld(h, config, run, moves, times, k);
    hide LifeInv, IsRun;
  }
}
