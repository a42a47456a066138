/** The values the case store keeps: Timeline events, case snapshots, and the
    model a case holds. Event and probe identifiers are numbers here: the store
    writes them as E000001, E000002, ... and PR000001, PR000002, ... */
module Records {
  import opened Wrappers

  datatype Result<+T> = Ok(value: T) | Err(error: Error)

  datatype Error =
    | AlreadyActive          // the session already has an active case
    | CaseExists
    | NoSuchCase
    | NoActiveCase
    | NotPaused
    | StaleToken             // another transition was committed after the read
    | IntegrityFailure       // the on-disk predecessor does not verify
    | NothingToAppend
    | MarkerWithoutDisposition
    | ProbeBusy              // the probe execution lease is held
    | IntentConflict
    | BindingLost
    | BadSession
    | BadJournal
    | TargetMissing
    | BadModel
    | NotAllowed             // the operation's own checks did not pass

  type CaseId = string
  type Session = string
  type ItemId = string
  type Digest = string

  /** The hash that precedes the first event of a Timeline. */
  const ZERO_HASH: Digest := "0000000000000000000000000000000000000000000000000000000000000000"

  // ---------------------------------------------------------------- evidence

  datatype Domain =
    | UserPreference | UserIntent | PrivateContext | UserDecision | UserTestimony
    | ExternalSource | SystemState | EmpiricalTest

  predicate IsUserDomain(d: Domain) {
    d.UserPreference? || d.UserIntent? || d.PrivateContext? || d.UserDecision? || d.UserTestimony?
  }

  /** How much of a source was inspected. */
  datatype Scope = Snippet | Abstract | Partial | Full | Data

  /** A normalised evidence descriptor; only external sources carry a scope. */
  datatype Descriptor = Descriptor(authority: Domain, scope: Option<Scope>)

  /** One recorded status text, read without regard to case and outer blanks:
      missing, "ok", one of the failure words, or any other text. */
  datatype Reported = Absent | Success | Failure | Unrecognised

  /** The status fields of an observation payload. Option.None: the key is absent. */
  datatype Statuses = Statuses(result: Reported, execution: Option<Reported>, display: Option<Reported>)

  datatype Verdict = Match | Mismatch | Unresolved

  // ------------------------------------------------------------ consultation

  datatype Point = ProbePoint | ClosePoint

  datatype Choice = ContinueSame | ContinueDifferent | Stop

  /** Why an advice call failed; the first five do not fall on the caller. */
  datatype FailureReason =
    | TransportError | Timeout | HttpError | MalformedResponse | AdviceError
    | StateChanged | StateWriteFailed | CallerInput

  predicate Excusable(r: FailureReason) {
    r.TransportError? || r.Timeout? || r.HttpError? || r.MalformedResponse? || r.AdviceError?
  }

  // ------------------------------------------------------------------- model

  /** A claim cites initial evidence by a label while a case is opened, and
      Timeline events by number everywhere else. */
  datatype Ref = Initial(ref: string) | EventRef(id: nat)

  datatype Standing = Unstated | Grounded | Hypothesis | Undecided | BadStanding

  datatype Authority = NoAuthority | BadAuthority | Stated(domain: Domain)

  datatype Claim = Claim(id: ItemId, text: string, refs: seq<Ref>, standing: Standing,
                         authority: Authority, domains: set<Domain>)

  datatype Step = Step(id: ItemId, action: string, dependsOn: seq<ItemId>, authority: Authority)

  /** `other` is the text of everything in the model that no check reads: applied
      lessons, prior cases, and what items carry beyond the fields above. */
  datatype Model = Model(decision: string, stopping: string, topUnknown: string,
                         grounding: seq<Claim>, mechanisms: seq<Claim>, alternatives: seq<Claim>,
                         plan: seq<Step>, other: string)

  // ---------------------------------------------------------------- Timeline

  datatype Outcome = Resolved | NotResolved | Stopped | Replaced

  datatype Label = HypothesisLabel | Provisional | Mixed | Supported

  /** The type and payload of a Timeline event. Probe number 0 stands for a
      missing or blank probe id. */
  datatype Entry =
    | InitialObservation(evidence: Descriptor)
    | EvidenceRecorded(evidence: Descriptor)
    | CaseOpened
    | CasePaused
    | CaseResumed(prior: Session)
    | CaseClosed(outcome: Outcome, grade: Label)
    | SessionMigrated(from: Session, to: Session)
    | MigrationAborted(from: Session, to: Session)
    | ModelRevised(version: nat, repaired: Option<nat>)
    | ProbeCommitted(probe: nat, authority: Option<Domain>)
    | ProbeStarted(probe: nat)
    | ProbeObserved(probe: nat, tool: string, authority: Option<Domain>, statuses: Statuses, unknownOrigin: bool)
    | ProbeExposed(probe: nat, tool: string, authority: Option<Domain>, statuses: Statuses, supersedes: Option<nat>)
    | ProbeCompared(probe: nat, observation: Option<nat>, authority: Option<Domain>, verdict: Verdict,
                    material: bool, affected: seq<ItemId>, descriptor: Option<Descriptor>)
    | ProbeDiscarded(probe: nat, observation: Option<nat>)
    | OfferStarted(offer: string, point: Point)
    | Offered(offer: string, point: Point, started: nat, tokens: int, expires: Option<int>, candidates: set<string>)
    | OfferFailed(offer: string, point: Point, reason: FailureReason)
    | Chosen(offer: string, point: Point, choice: Choice, methodId: Option<string>)
    | Excused(point: Point)

  /** The events that change where a case stands in its session's life. */
  predicate IsDisposition(e: Entry) {
    e.CaseOpened? || e.CasePaused? || e.CaseResumed? || e.CaseClosed? || e.SessionMigrated? || e.MigrationAborted?
  }

  /** What an event hash covers: every field but the hash itself. */
  datatype Body = Body(id: nat, at: int, entry: Entry, session: Session, number: Option<nat>,
                       stateHash: Option<Digest>, prevHash: Digest)

  datatype Event = Event(body: Body, hash: Digest)

  /** An event a transition asks for. */
  datatype Request = Request(entry: Entry, session: Session)

  /** A requested event once dispositions have their session numbers. */
  datatype Spec = Spec(entry: Entry, session: Session, number: Option<nat>)

  // -------------------------------------------------------------------- case

  /** The case field in which a transition stores the id of its own event. */
  datatype Target = NoTarget | MismatchTarget | CommitTarget | StartTarget | ObservationTarget | ClosureTarget

  datatype Status = Active | Paused | Closed

  datatype ProbeStatus = Committed | Executing | Observed

  datatype Probe = Probe(id: nat, status: ProbeStatus, tool: string, authority: Domain, claim: Option<ItemId>,
                         commitEvent: Option<nat>, startedEvent: Option<nat>, observation: Option<nat>,
                         callId: string, execution: Option<Reported>, shown: Reported)

  /** The licence for a proof-of-life resume. The sequence number is filled in
      by the transaction that records the pause. */
  datatype Marker = Marker(number: Option<nat>, pauseEvent: Option<nat>)

  datatype Closure = Closure(outcome: Outcome, grade: Label, event: Option<nat>)

  /** A case record without its own digest. */
  datatype Case = Case(id: CaseId, status: Status, session: Session, version: nat, revision: nat,
                       stale: bool, staleIds: set<ItemId>, mismatch: Option<nat>, probe: Option<Probe>,
                       model: Model, marker: Option<Marker>, closure: Option<Closure>, lastEvent: nat)

  /** A case file: the record and the digest of that record. */
  datatype Snapshot = Snapshot(state: Case, seal: Digest)

  /** SHA-256 over the canonical text of an event or of a case record. Nothing
      is assumed about it unless a lemma asks for injectivity. */
  datatype Hasher = Hasher(event: Body -> Digest, state: Case -> Digest)

  ghost predicate CollisionFree(h: Hasher) {
    && (forall a, b :: h.event(a) == h.event(b) ==> a == b)
    && (forall a, b :: h.state(a) == h.state(b) ==> a == b)
  }
}
