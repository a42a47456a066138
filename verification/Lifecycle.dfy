/** The session lifecycle on top of the store: opening, pausing, resuming,
    compression in two phases, and adoption along a lineage. */
module Lifecycle {
  import opened Wrappers
  import opened Records
  import opened History
  import opened Transactions
  import opened Claims
  import opened Consultation
  import opened Harness
  import opened Invariants
  import opened Past
  import opened Opening
  import opened Sessions

  datatype Intent = Intent(from: Session, to: Session)

  /** The store, the prepared compressions on disk, and the cases whose probe
      execution lease is held. */
  datatype World = World(store: Store, intents: map<Intent, CaseId>, leased: set<CaseId>)

  const EMPTY_WORLD: World := World(Store(map[], []), map[], {})

  ghost predicate WorldInv(h: Hasher, config: Config, w: World) {
    && LifeInv(h, config, w.store)
    && (forall i :: i in w.intents ==> i.from != "" && i.to != "" && i.from != i.to)
    && forall i, j :: i in w.intents && j in w.intents && i.from == j.from ==> i == j
  }

  /** The one active case of a session, as the index finds it. */
  ghost function ActiveOf(st: Store, s: Session): (r: Option<CaseId>)
    ensures r.Some? ==> IsActive(st, r.value, s)
    ensures r.None? <==> Vacant(st, s)
  {
    if id :| IsActive(st, id, s) then Some(id) else None
  }

  /** The one paused case of a session whose marker still counts. */
  ghost function EligibleOf(st: Store, s: Session): (r: Option<CaseId>)
    ensures r.Some? ==> Eligible(st, r.value, s)
    ensures r.None? <==> forall id :: !Eligible(st, id, s)
  {
    if id :| Eligible(st, id, s) then Some(id) else None
  }

  // --------------------------------------------------------------- one action

  /** Run an operation on a case and write back what it plans. */
  ghost function Attempt(h: Hasher, config: Config, now: int, st: Store, id: CaseId, session: Session, a: Action,
                         at: int): Result<Store>
    requires Exists(st, id)
  {
    match Perform(config, now, session, StateOf(st, id), st.slots[id].events, a)
    case None => Err(NotAllowed)
    case Some(ch) => Write(h, st, ch.state, ch.entry, ch.archive, ch.target, at)
  }

  /** The session an action would make the case active on. */
  function Claimed(c: Case, a: Action): Option<Session> {
    match a
    case ResumeTo(s) => Some(s)
    case AutoResume => Some(c.session)
    case MigrateTo(s) => Some(s)
    case AbortTo(s) => Some(s)
    case _ => None
  }

  ghost predicate Guarded(st: Store, id: CaseId, a: Action)
    requires Exists(st, id)
  {
    Claimed(StateOf(st, id), a).Some? ==> Free(st, Claimed(StateOf(st, id), a).value, id)
  }

  lemma ClaimedIsBound(config: Config, now: int, session: Session, c: Case, events: seq<Event>, a: Action, ch: Change)
    requires Perform(config, now, session, c, events, a) == Some(ch) && Outline(c, ch)
    ensures ch.state.status.Active? ==>
              if Claimed(c, a).Some? then ch.state.session == Claimed(c, a).value
              else c.status.Active? && ch.state.session == c.session
  {
    if IsLifecycle(a) {
    } else {
      hide Perform;
      OnlyLifecycleRebinds(config, now, session, c, events, a);
    }
  }

  lemma OthersOwn(st: Store, id: CaseId)
    requires SingleActive(st) && Exists(st, id) && StateOf(st, id).status.Active?
    ensures Free(st, StateOf(st, id).session, id)
  {
    forall other | IsActive(st, other, StateOf(st, id).session) ensures other == id {
      assert IsActive(st, id, StateOf(st, id).session);
    }
  }

  lemma AttemptKeeps(h: Hasher, config: Config, now: int, st: Store, id: CaseId, session: Session, a: Action, at: int)
    requires LifeInv(h, config, st) && Exists(st, id) && Guarded(st, id, a)
    ensures
      var r := Attempt(h, config, now, st, id, session, a, at);
      var p := Perform(config, now, session, StateOf(st, id), st.slots[id].events, a);
      && (r.Ok? <==> p.Some?)
      && (r.Ok? ==> LifeInv(h, config, r.value) && Shifted(st, id, p.value, r.value)
                    && Outline(StateOf(st, id), p.value)
                    && Wrote(h, st, p.value.state, p.value.entry, p.value.archive, p.value.target, at, r.value))
  {
    hide Perform, Fits, Outline, CaseInv, PastOk, MarkerOk, Write, Wrote, Shifted, StoreInv, AllSlots, Free,
         SingleActive;
    var c, events := StateOf(st, id), st.slots[id].events;
    var p := Perform(config, now, session, c, events, a);
    if p.Some? {
      PerformFits(config, now, session, c, events, a);
      FitsOutline(config, c, events, p.value);
      ClaimedIsBound(config, now, session, c, events, a, p.value);
      if c.status.Active? {
        OthersOwn(st, id);
      }
      Acts(h, config, st, id, p.value, at);
    }
  }

  // ----------------------------------------------------------- the operations

  ghost function WithStore(w: World, r: Result<Store>): Result<World> {
    match r
    case Err(e) => Err(e)
    case Ok(st) => Ok(w.(store := st))
  }

  ghost function Open(h: Hasher, w: World, id: CaseId, session: Session, model: Model, items: seq<Declared>,
                      at: int): Result<World> {
    if session == "" then Err(BadSession)
    else if !DeclaredOk(items) || !AcceptsModel(model, OpeningContext(items)) then Err(BadModel)
    else if !Vacant(w.store, session) then Err(AlreadyActive)
    else if Exists(w.store, id) then Err(CaseExists)
    else WithStore(w, OpenTransaction(h, w.store, id, session, model, items, at))
  }

  /** An operation on one case. Recovery and discarding carry what they saw of
      the execution lease when they looked. */
  ghost function Operate(h: Hasher, config: Config, now: int, w: World, id: CaseId, session: Session, a: Action,
                         at: int): Result<World> {
    if IsLifecycle(a) || !Exists(w.store, id) then Err(NotAllowed)
    else WithStore(w, Attempt(h, config, now, w.store, id, session, a, at))
  }

  ghost function PauseSession(h: Hasher, config: Config, w: World, session: Session, marked: bool,
                              at: int): Result<World> {
    match ActiveOf(w.store, session)
    case None => Ok(w)
    case Some(id) => WithStore(w, Attempt(h, config, 0, w.store, id, session, LifecyclePause(marked), at))
  }

  ghost function Resume(h: Hasher, config: Config, w: World, id: CaseId, session: Session, at: int): Result<World> {
    if session == "" then Err(BadSession)
    else if !Vacant(w.store, session) then Err(AlreadyActive)
    else if !Exists(w.store, id) then Err(NoSuchCase)
    else WithStore(w, Attempt(h, config, 0, w.store, id, session, ResumeTo(session), at))
  }

  /** Proof of life: resume the eligible case, if there is one and its Timeline
      passes the caller's check. */
  ghost function TryAutoResume(h: Hasher, config: Config, w: World, session: Session, replayOk: bool,
                               at: int): Result<World> {
    if !Vacant(w.store, session) then Ok(w)
    else match EligibleOf(w.store, session)
      case None => Ok(w)
      case Some(id) =>
        if !replayOk then Ok(w) else WithStore(w, Attempt(h, config, 0, w.store, id, session, Action.AutoResume, at))
  }

  ghost function MigrateLocked(h: Hasher, config: Config, w: World, from: Session, to: Session, abort: bool,
                               at: int): Result<World> {
    match ActiveOf(w.store, from)
    case None => Ok(w)
    case Some(id) =>
      if !Free(w.store, to, id) then Err(AlreadyActive)
      else if id in w.leased then Err(ProbeBusy)
      else WithStore(w, Attempt(h, config, 0, w.store, id, from, if abort then AbortTo(to) else MigrateTo(to), at))
  }

  ghost function Migrate(h: Hasher, config: Config, w: World, from: Session, to: Session, at: int): Result<World> {
    if from == "" || to == "" then Err(BadSession) else MigrateLocked(h, config, w, from, to, false, at)
  }

  // --------------------------------------------------- two-phase compression

  ghost predicate OtherIntent(w: World, from: Session, to: Session) {
    exists i :: i in w.intents && i.from == from && i.to != to
  }

  ghost function Prepare(w: World, from: Session, to: Session): Result<World> {
    if from == "" || to == "" || from == to then Err(BadSession)
    else match ActiveOf(w.store, from)
      case None => Ok(w)
      case Some(id) =>
        if !Free(w.store, to, id) then Err(AlreadyActive)
        else if OtherIntent(w, from, to) then Err(IntentConflict)
        else Ok(w.(intents := w.intents[Intent(from, to) := id]))
  }

  function Cleared(w: World, i: Intent): World {
    w.(intents := w.intents - {i})
  }

  lemma ClearedKeeps(h: Hasher, config: Config, w: World, i: Intent)
    requires WorldInv(h, config, w)
    ensures WorldInv(h, config, Cleared(w, i))
  {
    hide LifeInv;
  }

  /** The one prepared compression that targets a session. */
  ghost predicate OnlyIntent(w: World, i: Intent) {
    i in w.intents && forall j :: j in w.intents && j.to == i.to ==> j == i
  }

  /** Recovery up to, not including, the removal of the intent. */
  ghost function RecoverMigration(h: Hasher, config: Config, w: World, i: Intent, at: int): Result<World>
    requires i in w.intents
  {
    var id := w.intents[i];
    match ActiveOf(w.store, i.to)
    case Some(other) => if other == id then Ok(w) else Err(IntentConflict)
    case None =>
      match ActiveOf(w.store, i.from) {
        case Some(other) => if other == id then MigrateLocked(h, config, w, i.from, i.to, false, at)
                            else Err(IntentConflict)
        case None =>
          if !Exists(w.store, id) || StateOf(w.store, id).status.Active? then Err(BindingLost) else Ok(w)
      }
  }

  ghost function Recover(h: Hasher, config: Config, w: World, to: Session, at: int): Result<World> {
    if to == "" || (forall i :: i in w.intents ==> i.to != to) then Ok(w)
    else if i :| i in w.intents && i.to == to && OnlyIntent(w, i) then
      match RecoverMigration(h, config, w, i, at)
      case Err(e) => Err(e)
      case Ok(v) => Ok(Cleared(v, i))
    else Err(IntentConflict)
  }

  /** Rollback up to, not including, the removal of the intent. */
  ghost function AbortMigration(h: Hasher, config: Config, w: World, i: Intent, at: int): Result<World>
    requires i in w.intents
  {
    var id := w.intents[i];
    match ActiveOf(w.store, i.from)
    case Some(other) => if other == id then Ok(w) else Err(IntentConflict)
    case None =>
      match ActiveOf(w.store, i.to) {
        case Some(other) => if other == id then MigrateLocked(h, config, w, i.to, i.from, true, at)
                            else Err(IntentConflict)
        case None => Err(BindingLost)
      }
  }

  ghost function Abort(h: Hasher, config: Config, w: World, i: Intent, at: int): Result<World> {
    if i !in w.intents then Ok(w)
    else match AbortMigration(h, config, w, i, at)
      case Err(e) => Err(e)
      case Ok(v) => Ok(Cleared(v, i))
  }

  // ----------------------------------------------------------------- lineage

  /** No case names the session, now or in its history. */
  ghost predicate Pristine(st: Store, s: Session) {
    forall id :: Exists(st, id) ==> StateOf(st, id).session != s && Unnamed(st.slots[id].events, s)
  }

  predicate Unnamed(events: seq<Event>, s: Session) {
    forall k :: 0 <= k < |events| ==> events[k].body.session != s
  }

  ghost function MigratePausedLocked(h: Hasher, config: Config, w: World, id: CaseId, child: Session, keep: bool,
                                     at: int): Result<World>
    requires Exists(w.store, id)
  {
    if id in w.leased then Err(ProbeBusy)
    else WithStore(w, Attempt(h, config, 0, w.store, id, child, MigratePaused(child, keep), at))
  }

  /** Does an ancestor own a case that may be adopted? */
  ghost predicate Owner(st: Store, s: Session) {
    !Vacant(st, s) || EligibleOf(st, s).Some?
  }

  /** The search from the newest ancestor backwards. */
  ghost function AdoptFrom(h: Hasher, config: Config, w: World, ancestors: seq<Session>, child: Session, keep: bool,
                           at: int): Result<World> {
    if ancestors == [] then Ok(w)
    else
      var s := ancestors[|ancestors| - 1];
      if ActiveOf(w.store, s).Some? then MigrateLocked(h, config, w, s, child, false, at)
      else match EligibleOf(w.store, s)
        case Some(id) => MigratePausedLocked(h, config, w, id, child, keep, at)
        case None => AdoptFrom(h, config, w, ancestors[..|ancestors| - 1], child, keep, at)
  }

  /** The lineage up to the child's first place in it. */
  function Ancestors(lineage: seq<Session>, child: Session): (prefix: seq<Session>)
    ensures child in lineage ==> |prefix| < |lineage| && lineage[|prefix|] == child
    ensures prefix <= lineage && child !in prefix
  {
    if lineage == [] || lineage[0] == child then [] else [lineage[0]] + Ancestors(lineage[1..], child)
  }

  ghost function Adopt(h: Hasher, config: Config, w: World, lineage: seq<Session>, child: Session,
                       at: int): Result<World> {
    if child == "" || child !in lineage || !Vacant(w.store, child) then Ok(w)
    else AdoptFrom(h, config, w, Ancestors(lineage, child), child, Pristine(w.store, child), at)
  }

  // ------------------------------------------------------------------- moves

  datatype Move =
    | Opens(id: CaseId, session: Session, model: Model, items: seq<Declared>)
    | Operates(id: CaseId, session: Session, action: Action, now: int)
    | Pauses(session: Session, marked: bool)
    | Resumes(id: CaseId, session: Session)
    | AutoResumes(session: Session, replayOk: bool)
    | Migrates(from: Session, to: Session)
    | Prepares(from: Session, to: Session)
    | Recovers(to: Session)
    | RecoversHalf(intent: Intent)      // a crash before the intent is removed
    | Aborts(intent: Intent)
    | AbortsHalf(intent: Intent)
    | Adopts(lineage: seq<Session>, child: Session)
    | Leases(id: CaseId)
    | Releases(id: CaseId)              // also when the holder dies

  ghost function Next(h: Hasher, config: Config, w: World, m: Move, at: int): Result<World> {
    match m
    case Opens(id, session, model, items) => Open(h, w, id, session, model, items, at)
    case Operates(id, session, a, now) => Operate(h, config, now, w, id, session, a, at)
    case Pauses(session, marked) => PauseSession(h, config, w, session, marked, at)
    case Resumes(id, session) => Resume(h, config, w, id, session, at)
    case AutoResumes(session, replayOk) => TryAutoResume(h, config, w, session, replayOk, at)
    case Migrates(from, to) => Migrate(h, config, w, from, to, at)
    case Prepares(from, to) => Prepare(w, from, to)
    case Recovers(to) => Recover(h, config, w, to, at)
    case RecoversHalf(i) => if i in w.intents && OnlyIntent(w, i) then RecoverMigration(h, config, w, i, at)
                            else Err(IntentConflict)
    case Aborts(i) => Abort(h, config, w, i, at)
    case AbortsHalf(i) => if i in w.intents then AbortMigration(h, config, w, i, at) else Ok(w)
    case Adopts(lineage, child) => Adopt(h, config, w, lineage, child, at)
    case Leases(id) => if id in w.leased then Err(ProbeBusy) else Ok(w.(leased := w.leased + {id}))
    case Releases(id) => Ok(w.(leased := w.leased - {id}))
  }
}
