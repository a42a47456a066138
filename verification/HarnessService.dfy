/** The harness service: each operation reads the session's active case, runs its
    checks, and writes back under the token it read. */
module HarnessService {
  import opened Wrappers
  import opened Records
  import opened History
  import opened Transactions
  import opened Staleness
  import opened Claims
  import opened Calibration
  import opened Consultation
  import opened Replay
  import opened Harness
  import opened Sessions
  import opened Lifecycle
  import opened Clients
  import opened CaseStores
  import opened SessionStores

  // --------------------------------------------------- deciding an operation

  /** Replay's verdict on a case. */
  method CheckUsable(c: Case, events: seq<Event>) returns (usable: bool)
    ensures usable <==> Usable(c, events)
  {
    hide Account, ModelClean;
    var accounting := ComputeAccounting(events);
    var clean := CheckModel(c.model, events);
    usable := accounting == Accounting({}, {}, {}) && clean && !c.stale
      && (c.probe.Some? ==> c.probe.value.status.Committed?);
  }

  method CheckModel(m: Model, events: seq<Event>) returns (clean: bool)
    ensures clean <==> ModelClean(m, events)
  {
    hide EventAuthorities, InvalidRefs, InvalidBindings, InvalidDependencies, DuplicateIds;
    var authorities := ComputeAuthorities(events);
    clean := InvalidRefs(m, |events|) == {} && InvalidBindings(m, authorities) == {} && InvalidDependencies(m) == {}
      && DuplicateIds(m) == {};
  }

  method DecideRevision(c: Case, events: seq<Event>, session: Session, m: Model, addresses: set<nat>,
                        consequential: bool) returns (p: Plan)
    ensures p == PlanRevise(c, events, session, m, addresses, consequential)
  {
    hide AcceptsModel, NormalModel, PreserveAuthorities, EventAuthorities, Repairs;
    if !Owns(c, session) || c.probe.Some? {
      return None;
    }
    var authorities := ComputeAuthorities(events);
    var normal := NormalizeModelClaims(PreserveAuthorities(c.model, m), Context(None, FirstIds(|events|), authorities));
    if normal.Err? || normal.value == c.model {
      return None;
    }
    var next := c.(model := normal.value, version := c.version + 1);
    if c.stale {
      if c.mismatch.None? || c.mismatch.value !in addresses || !consequential {
        return None;
      }
      var repaired := CheckRepairs(c.model, normal.value, c.staleIds);
      if !repaired {
        return None;
      }
      next := next.(stale := false, staleIds := {}, mismatch := None);
    }
    return Some(Change(next, ModelRevised(c.version + 1, c.mismatch), true, NoTarget));
  }

  /** The loop over stale items. */
  method CheckRepairs(before: Model, after: Model, stale: set<ItemId>) returns (ok: bool)
    ensures ok <==> Repairs(before, after, stale)
  {
    hide ItemOf, Substantive;
    var todo := stale;
    while todo != {}
      invariant todo <= stale
      invariant Repairs(before, after, stale - todo)
      decreases todo
    {
      var id :| id in todo;
      var (old_, new_) := (ItemOf(before, id), ItemOf(after, id));
      if old_.Some? && new_.Some? && !Substantive(old_.value, new_.value) {
        return false;
      }
      todo := todo - {id};
    }
    assert stale - todo == stale;
    return true;
  }

  method DecideComparison(c: Case, session: Session, verdict: Verdict, material: bool, named: Option<seq<ItemId>>,
                          descriptor: Option<Descriptor>)
    returns (p: Plan)
    ensures p == PlanCompare(c, session, verdict, material, named, descriptor)
  {
    hide StaleClosure, LeastClosed, ItemOf, DescriptorOk;
    if !Owns(c, session) || c.probe.None? || !c.probe.value.status.Observed? {
      return None;
    }
    var probe := c.probe.value;
    var affected := AffectedOf(probe, named);
    if exists id :: id in affected && ItemOf(c.model, id).None? {
      return None;
    }
    if probe.claim.Some? {
      if probe.claim.value !in affected {
        return None;
      }
      var related := ExpandStale(c.model.plan, {probe.claim.value});
      if !(SetOf(affected) <= related) {
        return None;
      }
    }
    assert AffectedOk(c, probe, affected);
    var breaks := verdict.Mismatch? && material;
    if (breaks && affected == []) || !DescriptorOk(probe, descriptor) {
      return None;
    }
    var next := c.(probe := None);
    if breaks {
      var stale := ExpandStale(c.model.plan, SetOf(affected));
      next := next.(stale := true, staleIds := stale);
    }
    return Some(Change(next,
                       ProbeCompared(probe.id, probe.observation, Some(probe.authority), verdict, material, affected,
                                     descriptor),
                       false, if breaks then MismatchTarget else NoTarget));
  }

  method DecideCommit(config: Config, c: Case, events: seq<Event>, session: Session, tool: string, authority: Domain,
                      claim: Option<ItemId>)
    returns (p: Plan)
    ensures p == PlanCommit(config, c, events, session, tool, authority, claim)
  {
    hide Usable, ClaimNamed, ConsultedAtTip;
    if !Owns(c, session) || c.probe.Some? {
      return None;
    }
    var usable := CheckUsable(c, events);
    if !usable || (claim.Some? && ClaimNamed(Sections(c.model), claim.value).None?) {
      return None;
    }
    if tool == "" || Reserved(tool) || (tool == "clarify" && !IsUserDomain(authority))
       || !Consulted(config, events, ProbePoint) {
      return None;
    }
    var prior := 0;
    for i := 0 to |events|
      invariant prior == Commits(events[..i])
    {
      assert events[..i + 1][..i] == events[..i];
      if events[i].body.entry.ProbeCommitted? {
        prior := prior + 1;
      }
    }
    assert events[..|events|] == events;
    var probe := Probe(prior + 1, Committed, tool, authority, claim, None, None, None, "", None, Absent);
    return Some(Change(c.(probe := Some(probe)), ProbeCommitted(probe.id, Some(authority)), false, CommitTarget));
  }

  method DecideClose(config: Config, c: Case, events: seq<Event>, session: Session, outcome: Outcome) returns (p: Plan)
    ensures p == PlanClose(config, c, events, session, outcome)
  {
    hide Usable, CaseLabel, EventsById, ConsultedAtTip;
    if !Owns(c, session) || !Unencumbered(c) {
      return None;
    }
    var usable := CheckUsable(c, events);
    if !usable {
      return None;
    }
    var grade := ClosureCalibration(c.model, events);
    if (outcome.Resolved? && grade.HypothesisLabel?) || !Consulted(config, events, ClosePoint) {
      return None;
    }
    return Some(Change(c.(status := Closed, closure := Some(Closure(outcome, grade, None))),
                       CaseClosed(outcome, grade), false, ClosureTarget));
  }

  method DecidePause(c: Case, events: seq<Event>, session: Session) returns (p: Plan)
    ensures p == PlanPause(c, events, session)
  {
    hide Usable;
    var usable := CheckUsable(c, events);
    return if !Owns(c, session) || !Unencumbered(c) || !usable then None
           else Some(Change(c.(status := Paused), CasePaused, false, NoTarget));
  }

  /** Any operation's decision, from a read of the case and its Timeline. */
  method Decide(config: Config, now: int, session: Session, c: Case, events: seq<Event>, a: Action) returns (p: Plan)
    ensures p == Perform(config, now, session, c, events, a)
  {
    hide PlanRevise, PlanCompare, PlanCommit, PlanClose, PlanPause, PlanStart, PlanObserve, PlanExpose, PlanDiscard,
         PlanSubagentPause;
    hide PlanStartOffer, PlanRecordOffer, PlanFailOffer, PlanChoose, PlanExcuseProbe, PlanExcuseClose, PlanEvidence,
         PlanRecover;
    hide PlanLifecyclePause, PlanResume, PlanAutoResume, PlanMigrate, PlanAbort, PlanMigratePaused;
    match a {
      case Revise(m, addresses, consequential) => p := DecideRevision(c, events, session, m, addresses, consequential);
      case Compare(verdict, material, named, d) => p := DecideComparison(c, session, verdict, material, named, d);
      case CommitProbe(tool, authority, claim) => p := DecideCommit(config, c, events, session, tool, authority, claim);
      case Close(outcome) => p := DecideClose(config, c, events, session, outcome);
      case Pause => p := DecidePause(c, events, session);
      case RecordEvidence(d) => p := PlanEvidence(c, session, d);
      case StartProbe(tool, callId) => p := PlanStart(c, session, tool, callId);
      case Observe(status, unknownOrigin) => p := PlanObserve(c, status, unknownOrigin);
      case Expose(shown) => p := PlanExpose(c, session, shown);
      case RecoverProbe(live) => p := PlanRecover(c, session, live);
      case DiscardProbe(live) => p := PlanDiscard(c, session, live);
      case SubagentPause => p := PlanSubagentPause(c, session);
      case StartOffer(offer, point) => p := PlanStartOffer(config, c, events, session, offer, point, now);
      case RecordOffer(_, _, _, _, _, _) => p := PlanRecordOffer(c, events, session, a);
      case FailOffer(offer, point, reason) => p := PlanFailOffer(c, events, offer, point, reason);
      case Choose(choice, methodId) => p := PlanChoose(c, events, session, choice, methodId, now);
      case ExcuseProbe(tool, authority, claim) => p := PlanExcuseProbe(config, c, events, session, tool, authority,
                                                                       claim, now);
      case ExcuseClose(outcome) => p := PlanExcuseClose(config, c, events, session, outcome, now);
      case LifecyclePause(marked) => p := PlanLifecyclePause(c, marked);
      case ResumeTo(s) => p := PlanResume(c, s);
      case AutoResume => p := PlanAutoResume(c);
      case MigrateTo(s) => p := PlanMigrate(c, s);
      case AbortTo(s) => p := PlanAbort(c, s);
      case MigratePaused(s, keep) => p := PlanMigratePaused(c, s, keep);
    }
  }

  // ----------------------------------------------------------- the service

  class EpistemicHarness {
    const store: SessionStore
    const config: Config

    ghost predicate Valid()
      reads store, store.files
    {
      store.Valid() && store.config == config
    }

    constructor (store: SessionStore, config: Config)
      requires store.Valid() && store.config == config
      ensures this.store == store && this.config == config && Valid()
    {
      this.store := store;
      this.config := config;
    }

    /** What a client reads of the active case of its session. */
    method ReadActive(session: Session) returns (draft: Option<Draft>)
      requires Valid()
      modifies store.files
      ensures Valid() && store.World() == old(store.World())
      ensures draft.None? <==> Vacant(store.World().store, session)
      ensures draft.Some? ==>
                && IsActive(store.World().store, draft.value.id, session) && DraftOk(store.World().store, draft.value)
                && draft.value.events.Some? && draft.value.seen == StateOf(store.World().store, draft.value.id)
                && draft.value.events.value == store.World().store.slots[draft.value.id].events
    {
      hide WorldInv;
      store.Begin();
      QuietSlots(store.files.Files());
      var active := store.FindActive(session);
      match active {
        case None => return None;
        case Some(id) =>
          ReadTrue(store.files.hasher, config, store.World(), id);
          return Some(Draft(id, store.files.slots[id].file.value.state, Some(store.files.slots[id].events)));
      }
    }

    /** One operation on the active case of a session, from its read to its write. */
    method Operate(session: Session, a: Action, now: int, at: int) returns (r: Result<Snapshot>)
      requires Valid() && !IsLifecycle(a)
      modifies store.files
      ensures Valid()
      ensures Vacant(old(store.World()).store, session) ==>
                r == Err(NoActiveCase) && store.World() == old(store.World())
      ensures !Vacant(old(store.World()).store, session) ==>
                exists id :: IsActive(old(store.World()).store, id, session)
                             && Follows(Lifecycle.Operate(store.files.hasher, config, now, old(store.World()), id,
                                                          session, a, at),
                                        old(store.World()), store.World(), r)
    {
      hide WorldInv, Perform, DraftOk, Lifecycle.Operate, Submit;
      var draft := ReadActive(session);
      match draft {
        case None => return Err(NoActiveCase);
        case Some(d) =>
          ghost var w := store.World();
          var plan := Decide(config, now, session, d.seen, d.events.value, a);
          OperateIs(store.files.hasher, config, now, w, d, session, a, at);
          r := store.WriteBack(d, session, a, plan, now, at);
      }
    }
  }

  lemma OperateIs(h: Hasher, config: Config, now: int, w: World, d: Draft, session: Session, a: Action, at: int)
    requires Exists(w.store, d.id) && d.seen == StateOf(w.store, d.id) && d.events == Some(w.store.slots[d.id].events)
             && !IsLifecycle(a)
    ensures Lifecycle.Operate(h, config, now, w, d.id, session, a, at)
            == WithStore(w, Submit(h, config, now, w, d, session, a, at))
  {
    hide Perform, Write;
  }
}
