/** What each reachable case can do next: pending probes can be settled, stale models
    repaired, and a settled case can go on, with advice once it was consulted on. Where
    these operations lead over whole runs is told in `Closing`. */
module Progress {
  import opened Wrappers
  import opened Records
  import opened Journal
  import opened Staleness
  import opened Claims
  import opened Calibration
  import opened Consultation
  import opened Replay
  import opened Harness
  import opened Invariants

  /** Pending probes can be discarded once nothing runs, and interrupted ones
      recovered. */
  lemma PendingCanBeSettled(config: Config, s: Slot, session: Session)
    requires CaseInv(config, s) && Owns(s.file.value.state, session) && s.file.value.state.probe.Some?
    ensures PlanDiscard(s.file.value.state, session, false).Some?
    ensures s.file.value.state.probe.value.status.Executing? ==> PlanRecover(s.file.value.state, session, false).Some?
  {
    hide CaseInv;
  }

  function Descriptive(probe: Probe): Option<Descriptor> {
    if probe.authority.ExternalSource? && probe.shown.Success? then Some(Descriptor(ExternalSource, Some(Full)))
    else None
  }

  /** An observation can always be compared with what the probe was about. */
  lemma ObservedCanBeCompared(config: Config, s: Slot, session: Session, verdict: Verdict)
    requires CaseInv(config, s) && Owns(s.file.value.state, session)
    requires s.file.value.state.probe.Some? && s.file.value.state.probe.value.status.Observed?
    ensures PlanCompare(s.file.value.state, session, verdict, false, None,
                        Descriptive(s.file.value.state.probe.value)).Some?
  {
    hide ReplayOk, OrderOk, GateInv, ModelOk, VersionOk, StaleOk, RepairsOk, CloseOk, ItemOf, StaleClosure;
    var c := s.file.value.state;
    var probe := c.probe.value;
    if probe.claim.Some? {
      assert SetOf(AffectedOf(probe, None)) == {probe.claim.value};
      ClosureContains(c.model.plan, {probe.claim.value});
    }
  }

  lemma {:induction false} ClosureContains(plan: seq<Step>, affected: set<ItemId>)
    ensures affected <= StaleClosure(plan, affected)
  {
  }

  /** The model that keeps no item at all. */
  const BARE: Model := Model("decide", "stop", "unknown", [], [], [], [], "")

  /** A stale case can always be repaired. */
  lemma StaleCanBeRepaired(config: Config, s: Slot, session: Session)
    requires CaseInv(config, s) && Owns(s.file.value.state, session) && s.file.value.state.stale
    ensures s.file.value.state.mismatch.Some?
    ensures PlanRevise(s.file.value.state, s.events, session, BARE, {s.file.value.state.mismatch.value}, true).Some?
  {
    hide OrderOk, GateInv, ModelOk, VersionOk, RepairsOk, CloseOk, StaleClosure, RevisionContext, ProbeInv;
    var c := s.file.value.state;
    BareAccepted(c.model, RevisionContext(s.events));
    var e := s.events[c.mismatch.value - 1].body.entry;
    var id := e.affected[0];
    assert id in e.affected && ItemOf(c.model, id).Some?;
    BareHasNothing(id);
    assert forall other :: ItemOf(BARE, other).None? by {
      forall other ensures ItemOf(BARE, other).None? { BareHasNothing(other); }
    }
  }

  lemma BareAccepted(prior: Model, ctx: Context)
    ensures PreserveAuthorities(prior, BARE) == BARE && AcceptsModel(BARE, ctx) && NormalModel(BARE, ctx) == BARE
  {
    assert Sections(BARE) == [];
    assert ClaimIds([]) == [] && StepIds([]) == [];
  }

  lemma BareHasNothing(id: ItemId)
    ensures ItemOf(BARE, id).None?
  {
    assert Sections(BARE) == [];
  }

  /** A case that owes nothing can be paused; and, where no advice is asked for,
      probed again or closed as anything but resolved. */
  lemma SettledCanGoOn(config: Config, s: Slot, session: Session, tool: string, authority: Domain)
    requires CaseInv(config, s) && Owns(s.file.value.state, session) && Unencumbered(s.file.value.state)
    ensures PlanPause(s.file.value.state, s.events, session).Some?
    ensures !config.enabled ==> PlanClose(config, s.file.value.state, s.events, session, Stopped).Some?
    ensures !config.enabled && tool != "" && !Reserved(tool) && (tool == "clarify" ==> IsUserDomain(authority)) ==>
              PlanCommit(config, s.file.value.state, s.events, session, tool, authority, None).Some?
  {
    UsableIsFlags(config, s);
    hide CaseInv, Usable, CaseLabel, EventsById, ConsultedAtTip;
  }

  /** With advice enabled, a case that owes nothing and was just consulted on for
      the decision at hand can go ahead with it. */
  lemma ConsultedCanGoOn(config: Config, s: Slot, session: Session, tool: string, authority: Domain)
    requires CaseInv(config, s) && Owns(s.file.value.state, session) && Unencumbered(s.file.value.state)
    requires !config.misconfigured
    ensures ConsultedAtTip(s.events, ClosePoint) ==>
              PlanClose(config, s.file.value.state, s.events, session, Stopped).Some?
    ensures ConsultedAtTip(s.events, ProbePoint) && tool != "" && !Reserved(tool)
            && (tool == "clarify" ==> IsUserDomain(authority)) ==>
              PlanCommit(config, s.file.value.state, s.events, session, tool, authority, None).Some?
  {
    UsableIsFlags(config, s);
    hide CaseInv, Usable, CaseLabel, EventsById, ConsultedAtTip;
  }
}
