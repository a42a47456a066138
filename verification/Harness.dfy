/** The operations on one case: each reads a copy of the case and its Timeline
    and either refuses or says which record to write back and which event to
    append. */
module Harness {
  import opened Wrappers
  import opened Records
  import opened Staleness
  import opened Claims
  import opened Calibration
  import opened Observations
  import opened Provenance
  import opened Consultation
  import opened Replay

  datatype Change = Change(state: Case, entry: Entry, archive: bool, target: Target)

  type Plan = Option<Change>

  /** What the caller of an operation supplies, checked for type and shape only. */
  datatype Action =
    | RecordEvidence(evidence: Descriptor)
    | Revise(model: Model, addresses: set<nat>, consequential: bool)
    | CommitProbe(tool: string, authority: Domain, claim: Option<ItemId>)
    | StartProbe(tool: string, callId: string)
    | Observe(status: Reported, unknownOrigin: bool)
    | Expose(shown: Reported)
    | Compare(verdict: Verdict, material: bool, named: Option<seq<ItemId>>, descriptor: Option<Descriptor>)
    | RecoverProbe(live: bool)
    | DiscardProbe(live: bool)
    | Pause
    | SubagentPause
    | Close(outcome: Outcome)
    | StartOffer(offer: string, point: Point)
    | RecordOffer(offer: string, point: Point, startedAt: nat, tokens: int, expires: Option<int>,
                  candidates: set<string>)
    | FailOffer(offer: string, point: Point, reason: FailureReason)
    | Choose(choice: Choice, methodId: string)
    // a waiver, recorded for a decision that would go ahead without advice
    | ExcuseProbe(tool: string, authority: Domain, claim: Option<ItemId>)
    | ExcuseClose(outcome: Outcome)
    // lifecycle, decided by the store
    | LifecyclePause(marked: bool)
    | ResumeTo(session: Session)
    | AutoResume
    | MigrateTo(session: Session)
    | AbortTo(session: Session)
    | MigratePaused(session: Session, keep: bool)

  predicate Owns(c: Case, session: Session) {
    c.status.Active? && c.session == session && session != ""
  }

  predicate Unencumbered(c: Case) {
    c.probe.None? && !c.stale
  }

  /** Replay's verdict, on a Timeline whose chain and snapshot binding verify. */
  predicate Usable(c: Case, events: seq<Event>) {
    && Account(events) == Accounting({}, {}, {})
    && ModelClean(c.model, events)
    && !c.stale
    && (c.probe.Some? ==> c.probe.value.status.Committed?)
  }

  // ------------------------------------------------ what a change may look like

  predicate SameProbe(a: Option<Probe>, b: Option<Probe>, status: ProbeStatus) {
    && a.Some? && b.Some? && b.value.status == status
    && b == Some(a.value.(status := status, callId := b.value.callId, execution := b.value.execution,
                          shown := b.value.shown))
  }

  /** What can be relied on about any change, by the event it appends: which
      fields of the case it touches, and what was checked before. */
  ghost predicate Fits(config: Config, c: Case, events: seq<Event>, ch: Change) {
    var n := ch.state;
    && (ch.archive <==> ch.entry.ModelRevised?)
    && match ch.entry
       case InitialObservation(_) => false
       case CaseOpened => false
       case EvidenceRecorded(d) => d.authority.ExternalSource? && c.status.Active? && c.probe.None? && n == c
                                   && ch.target.NoTarget?
       case ModelRevised(version, repaired) =>
         && c.status.Active? && c.probe.None? && ch.target.NoTarget?
         && version == c.version + 1 && repaired == c.mismatch
         && n == c.(model := n.model, version := version, stale := false,
                    staleIds := if c.stale then {} else c.staleIds, mismatch := if c.stale then None else c.mismatch)
         && (exists m :: AcceptsModel(m, RevisionContext(events)) && n.model == NormalModel(m, RevisionContext(events)))
         && (c.stale ==> c.mismatch.Some? && Repairs(c.model, n.model, c.staleIds))
       case ProbeCommitted(p, a) =>
         && c.status.Active? && c.probe.None? && !c.stale && ch.target.CommitTarget?
         && n.probe.Some? && n == c.(probe := n.probe)
         && n.probe.value.id == p == Commits(events) + 1 && n.probe.value.status.Committed?
           && n.probe.value.observation.None?
         && (n.probe.value.claim.Some? ==> ItemOf(c.model, n.probe.value.claim.value).Some?)
         && ToolFits(n.probe.value.tool, n.probe.value.authority)
         && a == Some(n.probe.value.authority) && Consulted(config, events, ProbePoint)
       case ProbeStarted(p) =>
         && c.status.Active? && SameProbe(c.probe, n.probe, Executing) && n == c.(probe := n.probe)
           && ch.target.StartTarget?
         && c.probe.value.id == p && c.probe.value.status.Committed?
       case ProbeObserved(p, _, a, _, _) =>
         && n.probe.Some? && Mirrored(n.probe.value, ch.entry)
         && c.status.Active? && SameProbe(c.probe, n.probe, Observed) && n == c.(probe := n.probe)
           && ch.target.ObservationTarget?
         && c.probe.value.id == p && c.probe.value.status.Executing? && a.Some?
       case ProbeExposed(p, _, a, _, supersedes) =>
         && n.probe.Some? && Mirrored(n.probe.value, ch.entry)
         && (c.probe.Some? && c.probe.value.execution.Some? ==> n.probe.value.execution == c.probe.value.execution)
         && c.status.Active? && SameProbe(c.probe, n.probe, Observed) && n == c.(probe := n.probe)
           && ch.target.ObservationTarget?
         && c.probe.value.id == p && c.probe.value.status.Observed? && a.Some?
           && supersedes == c.probe.value.observation
       case ProbeCompared(p, o, a, verdict, material, affected, d) =>
         && (forall id :: id in affected ==> ItemOf(c.model, id).Some?)
         && (d.Some? && a.Some? ==> IsUserDomain(d.value.authority) == IsUserDomain(a.value))
         && (verdict.Mismatch? && material ==> affected != [])
         && c.status.Active? && c.probe.Some? && c.probe.value.status.Observed? && c.probe.value.id == p
         && o == c.probe.value.observation && a == Some(c.probe.value.authority)
         && if verdict.Mismatch? && material
            then n == c.(probe := None, stale := true, staleIds := StaleClosure(c.model.plan, SetOf(affected)))
                 && ch.target.MismatchTarget?
            else n == c.(probe := None) && ch.target.NoTarget?
       case ProbeDiscarded(p, o) =>
         && c.status.Active? && c.probe.Some? && c.probe.value.id == p && o == c.probe.value.observation
         && n == c.(probe := None) && ch.target.NoTarget?
       case CasePaused =>
         && c.status.Active? && ch.target.NoTarget? && n == c.(status := Paused, marker := n.marker)
         && (n.marker == c.marker || n.marker == Some(Marker(None, None)))
       case CaseResumed(prior) =>
         c.status.Paused? && ch.target.NoTarget? && n.session != "" && prior == c.session
           && n == c.(status := Active, session := n.session, marker := None)
       case CaseClosed(outcome, grade) =>
         && c.status.Active? && c.probe.None? && !c.stale && ch.target.ClosureTarget?
         && n == c.(status := Closed, closure := Some(Closure(outcome, grade, None)))
         && grade == CaseLabel(c.model, EventsById(events)) && (outcome.Resolved? ==> !grade.HypothesisLabel?)
         && Consulted(config, events, ClosePoint)
       case SessionMigrated(from, to) => Moves(c, ch) && from == c.session && to == n.session
       case MigrationAborted(from, to) => c.status.Active? && Moves(c, ch) && from == c.session && to == n.session
       case OfferStarted(offer, _) =>
         && c.status.Active? && n == c && ch.target.NoTarget?
         && BudgetLeft(config, events) && FreshOffer(events, offer)
       case Offered(offer, point, startedAt, _, _, _) =>
         && c.status.Active? && n == c && ch.target.NoTarget?
         && OwnStart(events, offer, point, startedAt) && events[|events| - 1].body.id == startedAt
       case OfferFailed(offer, point, reason) =>
         n == c && ch.target.NoTarget? && MayFail(events, offer, point, reason)
       case Chosen(_, _, _, _) =>
         c.status.Active? && n == c && ch.target.NoTarget?
           && exists now, methodId :: ChosenFrom(events, now, methodId, ch.entry)
       case Excused(point) =>
         c.status.Active? && Unencumbered(c) && n == c && ch.target.NoTarget? && !ConsultedAtTip(events, point)
  }

  /** A probe is aimed at some tool other than the harness's own, and a question to
      the user only at what the user can answer. */
  predicate ToolFits(tool: string, authority: Domain) {
    && tool !in {"", "epistemic_model", "epistemic_probe", "epistemic_methods", "delegate_task"}
    && (tool == "clarify" ==>
          !authority.ExternalSource? && !authority.SystemState? && !authority.EmpiricalTest?)
  }

  predicate Moves(c: Case, ch: Change) {
    var n := ch.state;
    && ch.target.NoTarget? && n.session != "" && n == c.(session := n.session, marker := n.marker)
    && (c.status.Active? || (c.status.Paused? && c.marker.Some?))
    && (c.status.Active? ==> n.marker == c.marker)
    && (c.status.Paused? ==>
          n.marker.None? || n.marker == Some(Marker(None, c.marker.value.pauseEvent)))
  }

  /** The part of a change that says where the case stands and who holds it. */
  predicate Outline(c: Case, ch: Change) {
    var (n, e) := (ch.state, ch.entry);
    && n.id == c.id && n.revision == c.revision
    && (c.probe.Some? && c.probe.value.status.Executing? && !e.ProbeObserved? && !e.ProbeDiscarded? ==>
          n.probe == c.probe && ch.target.NoTarget?)
    && (n.probe.Some? && n.probe.value.status.Executing? && !e.ProbeStarted? ==>
          n.probe == c.probe && ch.target.NoTarget?)
    && (ch.target.CommitTarget? || ch.target.StartTarget? || ch.target.ObservationTarget? ==> n.probe.Some?)
    && (ch.target.ClosureTarget? ==> n.closure.Some?)
    && match c.status
       case Closed => e.OfferFailed? && n == c
       case Paused =>
         || (e.OfferFailed? && n == c)
         || (e.CaseResumed? && n.status.Active? && n.session != "" && n.marker.None?)
         || (e.SessionMigrated? && c.marker.Some? && n.status.Paused? && n.session != ""
             && (n.marker.None? || n.marker.value.number.None?))
       case Active =>
         if e.SessionMigrated? || e.MigrationAborted? then n.status.Active? && n.session != "" && n.marker == c.marker
         else
           && n.session == c.session && !e.CaseResumed? && !e.CaseOpened?
           && (if e.CasePaused? then n.status.Paused? && (n.marker == c.marker || n.marker == Some(Marker(None, None)))
               else n.marker == c.marker && (if e.CaseClosed? then n.status.Closed? else n.status.Active?))
  }

  lemma FitsOutline(config: Config, c: Case, events: seq<Event>, ch: Change)
    requires Fits(config, c, events, ch)
    ensures Outline(c, ch)
  {
    hide AcceptsModel, NormalModel, RevisionContext, StaleClosure, Repairs, Consulted, CaseLabel, EventsById,
         BudgetLeft, FreshOffer, OwnStart;
  }

  // ---------------------------------------------------------------- evidence

  function PlanEvidence(c: Case, session: Session, d: Descriptor): Plan {
    if !Owns(c, session) || c.probe.Some? || !d.authority.ExternalSource? then None
    else Some(Change(c, EvidenceRecorded(d), false, NoTarget))
  }

  // ---------------------------------------------------------------- revision

  function KeptAuthority(prior: Model, id: ItemId, a: Authority): Authority {
    if !a.NoAuthority? then a
    else match ItemOf(prior, id)
      case Some(ClaimItem(c)) => c.authority
      case Some(StepItem(s)) => s.authority
      case None => a
  }

  function KeepClaim(prior: Model, c: Claim): Claim {
    c.(authority := KeptAuthority(prior, c.id, c.authority))
  }

  function KeepStep(prior: Model, step: Step): Step {
    step.(authority := KeptAuthority(prior, step.id, step.authority))
  }

  function KeepClaims(prior: Model, claims: seq<Claim>): seq<Claim> {
    seq(|claims|, i requires 0 <= i < |claims| => KeepClaim(prior, claims[i]))
  }

  function KeepSteps(prior: Model, plan: seq<Step>): seq<Step> {
    seq(|plan|, i requires 0 <= i < |plan| => KeepStep(prior, plan[i]))
  }

  /** An item that omits its authority keeps the one it had. */
  function PreserveAuthorities(prior: Model, m: Model): Model {
    m.(grounding := KeepClaims(prior, m.grounding), mechanisms := KeepClaims(prior, m.mechanisms),
       alternatives := KeepClaims(prior, m.alternatives), plan := KeepSteps(prior, m.plan))
  }

  function RevisionContext(events: seq<Event>): Context {
    Context(None, FirstIds(|events|), EventAuthorities(events))
  }

  ghost function PlanRevise(c: Case, events: seq<Event>, session: Session, m: Model, addresses: set<nat>,
                            consequential: bool): Plan {
    var kept := PreserveAuthorities(c.model, m);
    if !Owns(c, session) || c.probe.Some? || !AcceptsModel(kept, RevisionContext(events)) then None
    else
      var next := NormalModel(kept, RevisionContext(events));
      if next == c.model then None
      else if c.stale && !(c.mismatch.Some? && c.mismatch.value in addresses && consequential
                           && Repairs(c.model, next, c.staleIds)) then None
      else
        var revised := c.(model := next, version := c.version + 1);
        Some(Change(if c.stale then revised.(stale := false, staleIds := {}, mismatch := None) else revised,
                    ModelRevised(c.version + 1, c.mismatch), true, NoTarget))
  }

  // ------------------------------------------------------------------ probes

  predicate Reserved(tool: string) {
    tool == "epistemic_model" || tool == "epistemic_probe" || tool == "epistemic_methods" || tool == "delegate_task"
  }

  predicate Consulted(config: Config, events: seq<Event>, point: Point) {
    config.enabled ==> !config.misconfigured && ConsultedAtTip(events, point)
  }

  function PlanCommit(config: Config, c: Case, events: seq<Event>, session: Session, tool: string, authority: Domain,
                      claim: Option<ItemId>): Plan
  {
    if !Owns(c, session) || c.probe.Some? || !Usable(c, events) then None
    else if claim.Some? && ClaimNamed(Sections(c.model), claim.value).None? then None
    else if tool == "" || Reserved(tool) || (tool == "clarify" && !IsUserDomain(authority)) then None
    else if !Consulted(config, events, ProbePoint) then None
    else
      var probe := Probe(Commits(events) + 1, Committed, tool, authority, claim, None, None, None, "", None, Absent);
      Some(Change(c.(probe := Some(probe)), ProbeCommitted(probe.id, Some(authority)), false, CommitTarget))
  }

  function PlanStart(c: Case, session: Session, tool: string, callId: string): Plan {
    if !Owns(c, session) || c.probe.None? || !c.probe.value.status.Committed? || c.probe.value.tool != tool then None
    else
      var probe := c.probe.value.(status := Executing, callId := callId);
      Some(Change(c.(probe := Some(probe)), ProbeStarted(probe.id), false, StartTarget))
  }

  /** Capture of a result, from the dispatching frame or on recovery. */
  function PlanObserve(c: Case, status: Reported, unknownOrigin: bool): Plan {
    if !c.status.Active? || c.probe.None? || !c.probe.value.status.Executing? then None
    else
      var probe := c.probe.value.(status := Observed, execution := Some(status), shown := status);
      Some(Change(c.(probe := Some(probe)),
                  ProbeObserved(probe.id, probe.tool, Some(probe.authority),
                                Statuses(status, Some(status), Some(status)), unknownOrigin),
                  false, ObservationTarget))
  }

  function PlanExpose(c: Case, session: Session, shown: Reported): Plan {
    if !Owns(c, session) || c.probe.None? || !c.probe.value.status.Observed? then None
    else
      var execution := if c.probe.value.execution.Some? then c.probe.value.execution.value else Unrecognised;
      var probe := c.probe.value.(shown := shown, execution := Some(execution));
      Some(Change(c.(probe := Some(probe)),
                  ProbeExposed(probe.id, probe.tool, Some(probe.authority),
                               Statuses(shown, Some(execution), Some(shown)), probe.observation),
                  false, ObservationTarget))
  }

  function AffectedOf(probe: Probe, named: Option<seq<ItemId>>): seq<ItemId> {
    match named
    case Some(ids) => ids
    case None => if probe.claim.Some? then [probe.claim.value] else []
  }

  function SetOf(ids: seq<ItemId>): set<ItemId> {
    set id | id in ids
  }

  predicate DescriptorOk(probe: Probe, d: Option<Descriptor>) {
    match d
    case None => !(probe.authority.ExternalSource? && probe.shown.Success?)
    case Some(e) =>
      && (probe.authority.ExternalSource? ==> e.authority.ExternalSource?)
      && IsUserDomain(e.authority) == IsUserDomain(probe.authority)
  }

  ghost predicate AffectedOk(c: Case, probe: Probe, affected: seq<ItemId>) {
    && (forall id :: id in affected ==> ItemOf(c.model, id).Some?)
    && (probe.claim.Some? ==> probe.claim.value in affected
                              && SetOf(affected) <= StaleClosure(c.model.plan, {probe.claim.value}))
  }

  ghost function PlanCompare(c: Case, session: Session, verdict: Verdict, material: bool, named: Option<seq<ItemId>>,
                             descriptor: Option<Descriptor>): Plan
  {
    if !Owns(c, session) || c.probe.None? || !c.probe.value.status.Observed? then None
    else
      var probe := c.probe.value;
      var affected := AffectedOf(probe, named);
      var breaks := verdict.Mismatch? && material;
      if !AffectedOk(c, probe, affected) || (breaks && affected == []) || !DescriptorOk(probe, descriptor) then None
      else
        var done := c.(probe := None);
        Some(Change(if breaks then done.(stale := true, staleIds := StaleClosure(c.model.plan, SetOf(affected)))
                    else done,
                    ProbeCompared(probe.id, probe.observation, Some(probe.authority), verdict, material, affected,
                                  descriptor),
                    false, if breaks then MismatchTarget else NoTarget))
  }

  function PlanRecover(c: Case, session: Session, live: bool): Plan {
    if !Owns(c, session) || live then None else PlanObserve(c, Failure, false)
  }

  function PlanDiscard(c: Case, session: Session, live: bool): Plan {
    if !Owns(c, session) || c.probe.None? || (c.probe.value.status.Executing? && live) then None
    else Some(Change(c.(probe := None), ProbeDiscarded(c.probe.value.id, c.probe.value.observation), false, NoTarget))
  }

  // --------------------------------------------------------- pause and close

  function PlanPause(c: Case, events: seq<Event>, session: Session): Plan {
    if !Owns(c, session) || !Unencumbered(c) || !Usable(c, events) then None
    else Some(Change(c.(status := Paused), CasePaused, false, NoTarget))
  }

  function PlanSubagentPause(c: Case, session: Session): Plan {
    if !Owns(c, session) then None else Some(Change(c.(status := Paused), CasePaused, false, NoTarget))
  }

  function PlanClose(config: Config, c: Case, events: seq<Event>, session: Session, outcome: Outcome): Plan {
    if !Owns(c, session) || !Unencumbered(c) || !Usable(c, events) then None
    else
      var grade := CaseLabel(c.model, EventsById(events));
      if outcome.Resolved? && grade.HypothesisLabel? then None
      else if !Consulted(config, events, ClosePoint) then None
      else Some(Change(c.(status := Closed, closure := Some(Closure(outcome, grade, None))),
                       CaseClosed(outcome, grade), false, ClosureTarget))
  }

  // ------------------------------------------------------------ consultation

  function PlanStartOffer(config: Config, c: Case, events: seq<Event>, session: Session, offer: string, point: Point,
                          now: int): Plan {
    if !Owns(c, session) || !config.enabled || config.misconfigured || !config.hasKey then None
    else if c.probe.Some? || !Usable(c, events) || !BudgetLeft(config, events) then None
    else if ValidOffer(events, now).Some? || CooldownActive(config, events, now) then None
    // offer ids are random, so a new one has not been used
    else if !FreshOffer(events, offer) then None
    else Some(Change(c, OfferStarted(offer, point), false, NoTarget))
  }

  /** `startedAt` is the id of the event this call appended when it started. */
  predicate OwnStart(events: seq<Event>, offer: string, point: Point, startedAt: nat) {
    1 <= startedAt <= |events| && events[startedAt - 1].body.entry == OfferStarted(offer, point)
  }

  function PlanRecordOffer(c: Case, events: seq<Event>, session: Session, a: Action): Plan
    requires a.RecordOffer?
  {
    if !Owns(c, session) || !OwnStart(events, a.offer, a.point, a.startedAt) then None
    else if events[|events| - 1].body.id != a.startedAt then None
    else Some(Change(c, Offered(a.offer, a.point, a.startedAt, a.tokens, a.expires, a.candidates), false, NoTarget))
  }

  function PlanFailOffer(c: Case, events: seq<Event>, offer: string, point: Point, reason: FailureReason): Plan {
    if !MayFail(events, offer, point, reason) then None
    else Some(Change(c, OfferFailed(offer, point, reason), false, NoTarget))
  }

  function PlanChoose(c: Case, events: seq<Event>, session: Session, choice: Choice, methodId: string, now: int): Plan {
    if !Owns(c, session) then None
    else match ValidOffer(events, now)
      case None => None
      case Some(e) =>
        if !e.body.entry.Offered? then None
        else
          var o := e.body.entry;
          match ValidateDisposition(o.point, choice, methodId, o.candidates, PreviousMethod(events))
          case BadAnswer => None
          case Accepted(recorded) => Some(Change(c, Chosen(o.offer, o.point, choice, recorded), false, NoTarget))
  }

  /** A waiver for a decision that is `ready` but for advice. */
  function PlanExcuse(config: Config, c: Case, events: seq<Event>, ready: bool, point: Point, now: int): Plan {
    if !ready || !config.enabled || config.misconfigured || ConsultedAtTip(events, point) then None
    else if ValidOffer(events, now).Some? || !WaiverDue(config, events, now) then None
    else Some(Change(c, Excused(point), false, NoTarget))
  }

  function PlanExcuseProbe(config: Config, c: Case, events: seq<Event>, session: Session, tool: string,
                           authority: Domain, claim: Option<ItemId>, now: int): Plan
  {
    var unadvised := PlanCommit(config.(enabled := false), c, events, session, tool, authority, claim);
    PlanExcuse(config, c, events, unadvised.Some?, ProbePoint, now)
  }

  function PlanExcuseClose(config: Config, c: Case, events: seq<Event>, session: Session, outcome: Outcome,
                           now: int): Plan
  {
    var unadvised := PlanClose(config.(enabled := false), c, events, session, outcome);
    PlanExcuse(config, c, events, unadvised.Some?, ClosePoint, now)
  }

  // --------------------------------------------------------------- lifecycle

  function PlanLifecyclePause(c: Case, marked: bool): Plan {
    if !c.status.Active? then None
    else
      var marker := if marked then Some(Marker(None, None)) else c.marker;
      Some(Change(c.(status := Paused, marker := marker), CasePaused, false, NoTarget))
  }

  function PlanResume(c: Case, session: Session): Plan {
    if !c.status.Paused? || session == "" then None
    else Some(Change(c.(status := Active, session := session, marker := None), CaseResumed(c.session), false, NoTarget))
  }

  function PlanAutoResume(c: Case): Plan {
    if !c.status.Paused? || c.marker.None? || c.session == "" then None
    else Some(Change(c.(status := Active, marker := None), CaseResumed(c.session), false, NoTarget))
  }

  function PlanMigrate(c: Case, session: Session): Plan {
    if !c.status.Active? || session == "" then None
    else Some(Change(c.(session := session), SessionMigrated(c.session, session), false, NoTarget))
  }

  function PlanAbort(c: Case, session: Session): Plan {
    if !c.status.Active? || session == "" then None
    else Some(Change(c.(session := session), MigrationAborted(c.session, session), false, NoTarget))
  }

  /** A kept marker is emptied, so that this transaction's own number refills it. */
  function PlanMigratePaused(c: Case, session: Session, keep: bool): Plan {
    if !c.status.Paused? || c.marker.None? || session == "" then None
    else
      var marker := if keep then Some(c.marker.value.(number := None)) else None;
      Some(Change(c.(session := session, marker := marker), SessionMigrated(c.session, session), false, NoTarget))
  }

  // ---------------------------------------------------------------- dispatch

  ghost function Perform(config: Config, now: int, session: Session, c: Case, events: seq<Event>, a: Action): Plan {
    match a
    case RecordEvidence(d) => PlanEvidence(c, session, d)
    case Revise(m, addresses, consequential) => PlanRevise(c, events, session, m, addresses, consequential)
    case CommitProbe(tool, authority, claim) => PlanCommit(config, c, events, session, tool, authority, claim)
    case StartProbe(tool, callId) => PlanStart(c, session, tool, callId)
    case Observe(status, unknownOrigin) => PlanObserve(c, status, unknownOrigin)
    case Expose(shown) => PlanExpose(c, session, shown)
    case Compare(verdict, material, named, d) => PlanCompare(c, session, verdict, material, named, d)
    case RecoverProbe(live) => PlanRecover(c, session, live)
    case DiscardProbe(live) => PlanDiscard(c, session, live)
    case Pause => PlanPause(c, events, session)
    case SubagentPause => PlanSubagentPause(c, session)
    case Close(outcome) => PlanClose(config, c, events, session, outcome)
    case StartOffer(offer, point) => PlanStartOffer(config, c, events, session, offer, point, now)
    case RecordOffer(_, _, _, _, _, _) => PlanRecordOffer(c, events, session, a)
    case FailOffer(offer, point, reason) => PlanFailOffer(c, events, offer, point, reason)
    case Choose(choice, methodId) => PlanChoose(c, events, session, choice, methodId, now)
    case ExcuseProbe(tool, authority, claim) => PlanExcuseProbe(config, c, events, session, tool, authority, claim, now)
    case ExcuseClose(outcome) => PlanExcuseClose(config, c, events, session, outcome, now)
    case LifecyclePause(marked) => PlanLifecyclePause(c, marked)
    case ResumeTo(s) => PlanResume(c, s)
    case AutoResume => PlanAutoResume(c)
    case MigrateTo(s) => PlanMigrate(c, s)
    case AbortTo(s) => PlanAbort(c, s)
    case MigratePaused(s, keep) => PlanMigratePaused(c, s, keep)
  }

  predicate IsLifecycle(a: Action) {
    a.LifecyclePause? || a.ResumeTo? || a.AutoResume? || a.MigrateTo? || a.AbortTo? || a.MigratePaused?
  }

  // ------------------------------------------------------- every plan fits

  lemma RevisionFits(config: Config, c: Case, events: seq<Event>, session: Session, m: Model, addresses: set<nat>,
                     consequential: bool)
    ensures var p := PlanRevise(c, events, session, m, addresses, consequential); p.Some? ==>
              Fits(config, c, events, p.value)
  {
    hide AcceptsModel, NormalModel, RevisionContext, PreserveAuthorities, Repairs;
  }

  lemma ProbeFits(config: Config, now: int, session: Session, c: Case, events: seq<Event>, a: Action)
    requires a.CommitProbe? || a.StartProbe? || a.Observe? || a.Expose? || a.RecoverProbe? || a.DiscardProbe?
    ensures var p := Perform(config, now, session, c, events, a); p.Some? ==> Fits(config, c, events, p.value)
  {
    hide PlanRevise, PlanCompare, PlanClose, PlanPause, PlanSubagentPause, PlanStartOffer, PlanRecordOffer,
         PlanFailOffer, PlanChoose, PlanExcuse, PlanExcuseProbe, PlanExcuseClose;
    hide Account, ModelClean, ConsultedAtTip, CaseLabel, EventsById;
  }

  lemma ComparisonFits(config: Config, c: Case, events: seq<Event>, session: Session, verdict: Verdict, material: bool,
                       named: Option<seq<ItemId>>, descriptor: Option<Descriptor>)
    ensures var p := PlanCompare(c, session, verdict, material, named, descriptor); p.Some? ==>
              Fits(config, c, events, p.value)
  {
    hide StaleClosure;
  }

  lemma CaseFits(config: Config, now: int, session: Session, c: Case, events: seq<Event>, a: Action)
    requires a.RecordEvidence? || a.Pause? || a.SubagentPause? || a.Close?
    ensures var p := Perform(config, now, session, c, events, a); p.Some? ==> Fits(config, c, events, p.value)
  {
    hide PlanRevise, PlanCompare, PlanCommit, PlanStartOffer, PlanRecordOffer, PlanFailOffer, PlanChoose, PlanExcuse,
         PlanExcuseProbe, PlanExcuseClose;
    hide Account, ModelClean, ConsultedAtTip, CaseLabel, EventsById;
  }

  lemma ChoosingFits(config: Config, c: Case, events: seq<Event>, session: Session, choice: Choice, methodId: string,
                     now: int)
    ensures var p := PlanChoose(c, events, session, choice, methodId, now); p.Some? ==> Fits(config, c, events, p.value)
  {
    hide PreviousMethod, ValidOffer, ValidateDisposition;
    var p := PlanChoose(c, events, session, choice, methodId, now);
    if p.Some? {
      assert ChosenFrom(events, now, methodId, p.value.entry);
    }
  }

  lemma OfferFits(config: Config, now: int, session: Session, c: Case, events: seq<Event>, a: Action)
    requires a.StartOffer? || a.RecordOffer? || a.FailOffer?
    ensures var p := Perform(config, now, session, c, events, a); p.Some? ==> Fits(config, c, events, p.value)
  {
    hide PlanRevise, PlanCompare, PlanCommit, PlanClose, PlanPause, PlanSubagentPause, PlanExcuseProbe, PlanExcuseClose;
    hide Account, ModelClean, ConsultedAtTip, CaseLabel, EventsById, BudgetLeft, FreshOffer, ValidOffer, WaiverDue,
         CooldownActive, PreviousMethod, MayFail;
  }

  lemma WaiverFits(config: Config, now: int, session: Session, c: Case, events: seq<Event>, a: Action)
    requires a.ExcuseProbe? || a.ExcuseClose?
    ensures var p := Perform(config, now, session, c, events, a); p.Some? ==> Fits(config, c, events, p.value)
  {
    hide PlanRevise, PlanCompare, PlanPause, PlanSubagentPause;
    hide Account, ModelClean, ConsultedAtTip, CaseLabel, EventsById, ValidOffer, WaiverDue;
  }

  lemma LifecycleFits(config: Config, now: int, session: Session, c: Case, events: seq<Event>, a: Action)
    requires IsLifecycle(a)
    ensures var p := Perform(config, now, session, c, events, a); p.Some? ==> Fits(config, c, events, p.value)
  {
    hide PlanRevise, PlanCompare, PlanCommit, PlanClose, PlanPause, PlanSubagentPause;
  }

  /** Whatever the operation, what it writes fits what was checked. */
  lemma PerformFits(config: Config, now: int, session: Session, c: Case, events: seq<Event>, a: Action)
    ensures var p := Perform(config, now, session, c, events, a); p.Some? ==> Fits(config, c, events, p.value)
  {
    if a.Revise? {
      hide PlanRevise, Fits;
      RevisionFits(config, c, events, session, a.model, a.addresses, a.consequential);
    } else if a.Compare? {
      hide PlanCompare, Fits;
      ComparisonFits(config, c, events, session, a.verdict, a.material, a.named, a.descriptor);
    } else if a.Choose? {
      hide PlanChoose, Fits;
      ChoosingFits(config, c, events, session, a.choice, a.methodId, now);
    } else {
      hide Perform, Fits;
      if IsLifecycle(a) {
        LifecycleFits(config, now, session, c, events, a);
      } else if a.RecordEvidence? || a.Pause? || a.SubagentPause? || a.Close? {
        CaseFits(config, now, session, c, events, a);
      } else if a.StartOffer? || a.RecordOffer? || a.FailOffer? {
        OfferFits(config, now, session, c, events, a);
      } else if a.ExcuseProbe? || a.ExcuseClose? {
        WaiverFits(config, now, session, c, events, a);
      } else {
        ProbeFits(config, now, session, c, events, a);
      }
    }
  }

  predicate Rebinds(e: Entry) {
    e.CaseResumed? || e.SessionMigrated? || e.MigrationAborted?
  }

  lemma OnlyLifecycleRebinds(config: Config, now: int, session: Session, c: Case, events: seq<Event>, a: Action)
    requires !IsLifecycle(a)
    ensures var p := Perform(config, now, session, c, events, a); p.Some? ==> !Rebinds(p.value.entry)
  {
    hide Account, ModelClean, ConsultedAtTip, CaseLabel, EventsById, BudgetLeft, FreshOffer, ValidOffer, WaiverDue,
         CooldownActive, PreviousMethod;
    hide AcceptsModel, NormalModel, RevisionContext, PreserveAuthorities, Repairs, StaleClosure, AffectedOk,
         DescriptorOk;
  }

  /** The operations that start, observe or discard a probe. */
  predicate Handles(a: Action) {
    a.StartProbe? || a.Observe? || a.RecoverProbe? || a.DiscardProbe?
  }

  lemma OnlyHandlersTouch(config: Config, now: int, session: Session, c: Case, events: seq<Event>, a: Action)
    requires !Handles(a)
    ensures var p := Perform(config, now, session, c, events, a);
            p.Some? ==> !p.value.entry.ProbeStarted? && !p.value.entry.ProbeObserved? && !p.value.entry.ProbeDiscarded?
  {
    hide Account, ModelClean, ConsultedAtTip, CaseLabel, EventsById, BudgetLeft, FreshOffer, ValidOffer, WaiverDue,
         CooldownActive, PreviousMethod;
    hide AcceptsModel, NormalModel, RevisionContext, PreserveAuthorities, Repairs, StaleClosure, AffectedOk,
         DescriptorOk;
  }

  // ------------------------------------------------------ what gets recorded

  /** A capture is worth what was reported, unless its origin is unknown; a
      recovery is worth nothing but a failure; an exposure shows success exactly
      when success was shown. */
  lemma RecordedWorth(c: Case, events: seq<Event>, session: Session, status: Reported, unknownOrigin: bool)
    ensures var p := PlanObserve(c, status, unknownOrigin);
            p.Some? ==> p.value.entry.ProbeObserved? && p.value.entry.unknownOrigin == unknownOrigin
                        && Executed(p.value.entry.statuses) == Normal(status)
    ensures var p := PlanRecover(c, session, false);
            p.Some? ==>
              p.value.entry.ProbeObserved? && Executed(p.value.entry.statuses).Failed? && !p.value.entry.unknownOrigin
    ensures var p := PlanExpose(c, session, status);
            p.Some? ==> p.value.entry.ProbeExposed? && (Displayed(p.value.entry.statuses).Good? <==> status.Success?)
  {
  }

  /** No call for advice starts while the present run of service failures is long
      enough and the newest of them is younger than the cooldown. */
  lemma NoCallInCooldown(config: Config, c: Case, events: seq<Event>, session: Session, offer: string, point: Point,
                         now: int, start: nat, i: nat)
    requires RunFrom(events, start) && NewestFailure(events, start, i)
    requires |FailuresFrom(events, start)| >= config.maxFailures
    requires config.cooldown > 0 && i < |events| && now - events[i].body.at < config.cooldown
    ensures PlanStartOffer(config, c, events, session, offer, point, now).None?
  {
    CooldownExact(config, events, now);
    hide CooldownActive, RunFrom, FailuresFrom, BudgetLeft, ValidOffer, Usable, FreshOffer;
  }
}
