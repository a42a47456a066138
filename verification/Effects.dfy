/** What any move of the lifecycle does to the store, and what all moves keep. */
module Effects {
  import opened Wrappers
  import opened Records
  import opened History
  import opened Transactions
  import opened Claims
  import opened Consultation
  import opened Harness
  import opened Invariants
  import opened Past
  import opened Opening
  import opened Sessions
  import opened Lifecycle

  /** What the caller of a move asks for: the explicit resume of a case, the
      handling of a probe (quiet moves do none), or any operation on the case itself
      (binding moves ask for none). */
  datatype Licence = Licence(resumed: Option<CaseId>, quiet: bool, binding: bool)

  const PLAIN: Licence := Licence(None, true, true)

  /** The events of moves that only bind cases to sessions. */
  predicate OnlyBinds(e: Entry) {
    e.CasePaused? || e.CaseResumed? || e.SessionMigrated? || e.MigrationAborted?
  }

  /** The case a move resumes explicitly. */
  function Resumed(m: Move): Option<CaseId> {
    if m.Resumes? then Some(m.id) else None
  }

  predicate Quiet(m: Move) {
    m.Operates? ==> !Handles(m.action)
  }

  function LicenceOf(m: Move): Licence {
    Licence(Resumed(m), Quiet(m), !m.Operates?)
  }

  /** A paused case moves only with a marker that still counts, or by the explicit
      resume of that very case; and no case is rebound while its lease is held. */
  predicate Licensed(st: Store, leased: set<CaseId>, id: CaseId, ch: Change, lic: Licence)
    requires Exists(st, id)
  {
    var e := ch.entry;
    && (lic.quiet ==> !e.ProbeStarted? && !e.ProbeObserved? && !e.ProbeDiscarded?)
    && (lic.binding ==> OnlyBinds(e))
    && (e.SessionMigrated? || e.MigrationAborted? ==> id !in leased)
    && (StateOf(st, id).status.Paused? ==>
      && (e.CaseResumed? ==> lic.resumed == Some(id)
                             || (Eligible(st, id, StateOf(st, id).session)
                                 && ch.state.session == StateOf(st, id).session))
      && (e.SessionMigrated? ==> Eligible(st, id, StateOf(st, id).session)))
  }

  /** One case changed, by one event. */
  ghost predicate ChangedBy(st: Store, leased: set<CaseId>, id: CaseId, ch: Change, lic: Licence, after: Store) {
    && Exists(st, id) && Outline(StateOf(st, id), ch) && Shifted(st, id, ch, after)
    && Licensed(st, leased, id, ch, lic)
  }

  /** One case was opened. */
  ghost predicate OpenedBy(st: Store, id: CaseId, session: Session, after: Store) {
    && session != "" && !Exists(st, id) && Exists(after, id)
    && StateOf(after, id).status.Active? && StateOf(after, id).session == session
    && StateOf(after, id).marker.None? && StateOf(after, id).probe.None?
    && Vacant(st, session)
    && after.slots == st.slots[id := after.slots[id]]
    && |st.log| <= |after.log| && after.log[..|st.log|] == st.log
  }

  ghost predicate Effect(st: Store, leased: set<CaseId>, lic: Licence, after: Store) {
    || after == st
    || (exists id, ch :: ChangedBy(st, leased, id, ch, lic, after))
    || (exists id, session :: OpenedBy(st, id, session, after))
  }

  /** The store is as it was, or has taken one transition. */
  ghost predicate Transacted(h: Hasher, st: Store, after: Store) {
    || after == st
    || exists case_, requests, archive, target, at ::
         Transact(h, st, case_, requests, archive, target, at) == Ok(after)
  }

  /** The invariant after a move, and what the move did. */
  ghost predicate Done(h: Hasher, config: Config, w: World, lic: Licence, r: Result<World>) {
    r.Ok? ==>
      WorldInv(h, config, r.value) && Effect(w.store, w.leased, lic, r.value.store)
      && Transacted(h, w.store, r.value.store)
  }

  /** Copies of one case, written back with one event. */
  lemma WriteTransacts(h: Hasher, st: Store, case_: Case, entry: Entry, archive: bool, target: Target, at: int)
    ensures Write(h, st, case_, entry, archive, target, at).Ok? ==>
              Transacted(h, st, Write(h, st, case_, entry, archive, target, at).value)
  {
    hide Transact;
  }

  lemma AttemptDone(h: Hasher, config: Config, now: int, w: World, id: CaseId, session: Session, a: Action, at: int,
                    lic: Licence)
    requires WorldInv(h, config, w) && Exists(w.store, id) && Guarded(w.store, id, a)
    requires (lic.quiet ==> !Handles(a)) && (lic.binding ==> IsLifecycle(a))
    requires a.MigrateTo? || a.AbortTo? || a.MigratePaused? ==> id !in w.leased
    requires StateOf(w.store, id).status.Paused? ==>
               || !IsLifecycle(a)
               || (a.ResumeTo? && lic.resumed == Some(id)) || a.LifecyclePause? || a.MigrateTo? || a.AbortTo?
               || ((a.AutoResume? || a.MigratePaused?) && Eligible(w.store, id, StateOf(w.store, id).session))
    ensures Done(h, config, w, lic, WithStore(w, Attempt(h, config, now, w.store, id, session, a, at)))
  {
    hide LifeInv, Perform, Shifted, Outline, Eligible, Guarded, Wrote, Write;
    var p := Perform(config, now, session, StateOf(w.store, id), w.store.slots[id].events, a);
    AttemptKeeps(h, config, now, w.store, id, session, a, at);
    if p.Some? {
      LicensedPlan(config, now, w.store, id, session, a, w.leased, lic);
      var after := Attempt(h, config, now, w.store, id, session, a, at).value;
      WriteTransacts(h, w.store, p.value.state, p.value.entry, p.value.archive, p.value.target, at);
      assert ChangedBy(w.store, w.leased, id, p.value, lic, after);
    }
  }

  lemma LicensedPlan(config: Config, now: int, st: Store, id: CaseId, session: Session, a: Action, leased: set<CaseId>,
                     lic: Licence)
    requires Exists(st, id)
    requires (lic.quiet ==> !Handles(a)) && (lic.binding ==> IsLifecycle(a))
    requires a.MigrateTo? || a.AbortTo? || a.MigratePaused? ==> id !in leased
    requires StateOf(st, id).status.Paused? ==>
               || !IsLifecycle(a)
               || (a.ResumeTo? && lic.resumed == Some(id)) || a.LifecyclePause? || a.MigrateTo? || a.AbortTo?
               || ((a.AutoResume? || a.MigratePaused?) && Eligible(st, id, StateOf(st, id).session))
    ensures var p := Perform(config, now, session, StateOf(st, id), st.slots[id].events, a);
            p.Some? ==> Licensed(st, leased, id, p.value, lic)
  {
    hide Eligible;
    if IsLifecycle(a) {
    } else {
      hide Perform;
      OnlyLifecycleRebinds(config, now, session, StateOf(st, id), st.slots[id].events, a);
      if lic.quiet {
        OnlyHandlersTouch(config, now, session, StateOf(st, id), st.slots[id].events, a);
      }
    }
  }

  lemma OpenDone(h: Hasher, config: Config, w: World, id: CaseId, session: Session, model: Model, items: seq<Declared>,
                 at: int)
    requires WorldInv(h, config, w)
    ensures Done(h, config, w, PLAIN, Open(h, w, id, session, model, items, at))
  {
    hide AcceptsModel, OpenTransaction, StoreInv, CaseInv, PastOk, DeclaredOk, OpeningContext, NormalModel, Transacted,
         IsActive, SlotOk;
    var r := Open(h, w, id, session, model, items, at);
    if r.Ok? {
      var after := r.value.store;
      OpenKeepsStore(h, w.store, id, session, model, items, at);
      assert AllSettled(h, w.store) by { Parts(h, w.store); }
      OpenLands(h, w.store, id, session, model, items, at);
      OpenedCase(config, after.slots[id], id, session, model, items);
      OpenedPast(after.slots[id], id, session, model, items);
      assert OpenedBy(w.store, id, session, after);
      OpenSingle(w.store, id, session, after);
      OpenSlots(config, w.store, id, session, after);
      OpenTransacts(h, w.store, id, session, model, items, at);
    }
  }

  lemma OpenTransacts(h: Hasher, st: Store, id: CaseId, session: Session, model: Model, items: seq<Declared>, at: int)
    ensures OpenTransaction(h, st, id, session, model, items, at).Ok? ==>
              Transacted(h, st, OpenTransaction(h, st, id, session, model, items, at).value)
  {
    hide Transact, NormalModel, OpeningContext;
  }

  lemma Parts(h: Hasher, st: Store)
    requires StoreInv(h, st)
    ensures AllSettled(h, st)
  {
  }

  lemma OpenSlots(config: Config, st: Store, id: CaseId, session: Session, after: Store)
    requires OpenedBy(st, id, session, after) && AllSlots(config, st) && CaseInv(config, after.slots[id])
    requires PastOk(after.slots[id])
    ensures AllSlots(config, after)
  {
    hide CaseInv, PastOk;
    assert SlotOk(config, after.slots[id]);
  }

  lemma OpenSingle(st: Store, id: CaseId, session: Session, after: Store)
    requires OpenedBy(st, id, session, after) && SingleActive(st)
    ensures SingleActive(after)
  {
    forall a, b, s | IsActive(after, a, s) && IsActive(after, b, s) ensures a == b {
      assert a != id ==> IsActive(st, a, s);
      assert b != id ==> IsActive(st, b, s);
    }
  }

  lemma OpenKeepsStore(h: Hasher, st: Store, id: CaseId, session: Session, model: Model, items: seq<Declared>, at: int)
    requires StoreInv(h, st)
    requires OpenTransaction(h, st, id, session, model, items, at).Ok?
    ensures StoreInv(h, OpenTransaction(h, st, id, session, model, items, at).value)
  {
    hide Transact, StoreInv, NormalModel, OpeningContext;
    TransactKeepsStore(h, st, FreshCase(id, session, NormalModel(model, OpeningContext(items))),
                       OpeningRequests(items, session), true, NoTarget, at);
  }

  lemma MigrateDone(h: Hasher, config: Config, w: World, from: Session, to: Session, abort: bool, at: int)
    requires WorldInv(h, config, w)
    ensures Done(h, config, w, PLAIN, MigrateLocked(h, config, w, from, to, abort, at))
  {
    hide WorldInv, Attempt, Transacted, Effect;
    var active := ActiveOf(w.store, from);
    if active.Some? && Free(w.store, to, active.value) && active.value !in w.leased {
      AttemptDone(h, config, 0, w, active.value, from, if abort then AbortTo(to) else MigrateTo(to), at, PLAIN);
    }
    Still(h, w.store, w.leased);
  }

  lemma Still(h: Hasher, st: Store, leased: set<CaseId>)
    ensures Effect(st, leased, PLAIN, st) && Transacted(h, st, st)
  {
  }

  lemma OperateDone(h: Hasher, config: Config, now: int, w: World, id: CaseId, session: Session, a: Action, at: int)
    requires WorldInv(h, config, w)
    ensures Done(h, config, w, Licence(None, !Handles(a), false), Operate(h, config, now, w, id, session, a, at))
  {
    hide WorldInv, Attempt, Transacted, Effect;
    if !IsLifecycle(a) && Exists(w.store, id) {
      AttemptDone(h, config, now, w, id, session, a, at, Licence(None, !Handles(a), false));
    }
  }

  lemma SessionDone(h: Hasher, config: Config, w: World, session: Session, marked: bool, replayOk: bool, at: int)
    requires WorldInv(h, config, w)
    ensures Done(h, config, w, PLAIN, PauseSession(h, config, w, session, marked, at))
    ensures Done(h, config, w, PLAIN, TryAutoResume(h, config, w, session, replayOk, at))
  {
    hide WorldInv, Attempt, Transacted, Effect;
    Still(h, w.store, w.leased);
    var active, eligible := ActiveOf(w.store, session), EligibleOf(w.store, session);
    if active.Some? {
      AttemptDone(h, config, 0, w, active.value, session, LifecyclePause(marked), at, PLAIN);
    } else if eligible.Some? {
      AttemptDone(h, config, 0, w, eligible.value, session, Action.AutoResume, at, PLAIN);
    }
  }

  lemma ResumeDone(h: Hasher, config: Config, w: World, id: CaseId, session: Session, at: int)
    requires WorldInv(h, config, w)
    ensures Done(h, config, w, Licence(Some(id), true, true), Resume(h, config, w, id, session, at))
  {
    hide WorldInv, Attempt, Transacted, Effect;
    if Vacant(w.store, session) && Exists(w.store, id) {
      AttemptDone(h, config, 0, w, id, session, ResumeTo(session), at, Licence(Some(id), true, true));
    }
  }

  lemma IntentDone(h: Hasher, config: Config, w: World, i: Intent, at: int)
    requires WorldInv(h, config, w) && i in w.intents
    ensures Done(h, config, w, PLAIN, RecoverMigration(h, config, w, i, at))
    ensures Done(h, config, w, PLAIN, AbortMigration(h, config, w, i, at))
  {
    hide WorldInv, MigrateLocked, Transacted, Effect;
    Still(h, w.store, w.leased);
    MigrateDone(h, config, w, i.from, i.to, false, at);
    MigrateDone(h, config, w, i.to, i.from, true, at);
  }

  lemma RecoverDone(h: Hasher, config: Config, w: World, to: Session, at: int)
    requires WorldInv(h, config, w)
    ensures Done(h, config, w, PLAIN, Recover(h, config, w, to, at))
  {
    hide WorldInv, RecoverMigration, Transacted, Effect;
    Still(h, w.store, w.leased);
    if i :| i in w.intents && i.to == to && OnlyIntent(w, i) {
      IntentDone(h, config, w, i, at);
      if RecoverMigration(h, config, w, i, at).Ok? {
        ClearedKeeps(h, config, RecoverMigration(h, config, w, i, at).value, i);
      }
    }
  }

  lemma AbortDone(h: Hasher, config: Config, w: World, i: Intent, at: int)
    requires WorldInv(h, config, w)
    ensures Done(h, config, w, PLAIN, Abort(h, config, w, i, at))
  {
    hide WorldInv, AbortMigration, Transacted, Effect;
    Still(h, w.store, w.leased);
    if i in w.intents {
      IntentDone(h, config, w, i, at);
      if AbortMigration(h, config, w, i, at).Ok? {
        ClearedKeeps(h, config, AbortMigration(h, config, w, i, at).value, i);
      }
    }
  }

  lemma {:induction false} AdoptFromDone(h: Hasher, config: Config, w: World, ancestors: seq<Session>, child: Session,
                                         keep: bool, at: int)
    requires WorldInv(h, config, w)
    ensures Done(h, config, w, PLAIN, AdoptFrom(h, config, w, ancestors, child, keep, at))
    decreases |ancestors|
  {
    hide WorldInv, Attempt, Transacted, Effect, MigrateLocked;
    Still(h, w.store, w.leased);
    if ancestors != [] {
      var s := ancestors[|ancestors| - 1];
      MigrateDone(h, config, w, s, child, false, at);
      var eligible := EligibleOf(w.store, s);
      if eligible.Some? && eligible.value !in w.leased {
        AttemptDone(h, config, 0, w, eligible.value, child, MigratePaused(child, keep), at, PLAIN);
      }
      AdoptFromDone(h, config, w, ancestors[..|ancestors| - 1], child, keep, at);
    }
  }

  lemma AdoptDone(h: Hasher, config: Config, w: World, lineage: seq<Session>, child: Session, at: int)
    requires WorldInv(h, config, w)
    ensures Done(h, config, w, PLAIN, Adopt(h, config, w, lineage, child, at))
  {
    hide WorldInv, AdoptFrom, Transacted, Effect;
    Still(h, w.store, w.leased);
    AdoptFromDone(h, config, w, Ancestors(lineage, child), child, Pristine(w.store, child), at);
  }

  /** Every move keeps the invariant, and touches at most one case. */
  lemma NextDone(h: Hasher, config: Config, w: World, m: Move, at: int)
    requires WorldInv(h, config, w)
    ensures Done(h, config, w, LicenceOf(m), Next(h, config, w, m, at))
  {
    hide LifeInv, Transacted, Effect, Open, Operate, PauseSession, Resume, TryAutoResume, MigrateLocked, Recover,
         Abort, Adopt, RecoverMigration, AbortMigration;
    Still(h, w.store, w.leased);
    match m
    case Opens(id, session, model, items) => OpenDone(h, config, w, id, session, model, items, at);
    case Operates(id, session, a, now) => OperateDone(h, config, now, w, id, session, a, at);
    case Pauses(session, marked) => SessionDone(h, config, w, session, marked, false, at);
    case Resumes(id, session) => ResumeDone(h, config, w, id, session, at);
    case AutoResumes(session, replayOk) => SessionDone(h, config, w, session, false, replayOk, at);
    case Migrates(from, to) => MigrateDone(h, config, w, from, to, false, at);
    case Prepares(from, to) =>
    case Recovers(to) => RecoverDone(h, config, w, to, at);
    case RecoversHalf(i) => if i in w.intents { IntentDone(h, config, w, i, at); }
    case Aborts(i) => AbortDone(h, config, w, i, at);
    case AbortsHalf(i) => if i in w.intents { IntentDone(h, config, w, i, at); }
    case Adopts(lineage, child) => AdoptDone(h, config, w, lineage, child, at);
    case Leases(_) =>
    case Releases(_) =>
  }

  lemma LeaseMoves(h: Hasher, config: Config, w: World, id: CaseId, at: int)
    ensures Next(h, config, w, Leases(id), at)
            == if id in w.leased then Err(ProbeBusy) else Ok(w.(leased := w.leased + {id}))
    ensures Next(h, config, w, Releases(id), at) == Ok(w.(leased := w.leased - {id}))
  {
    hide Open, Operate, PauseSession, Resume, TryAutoResume, MigrateLocked, Migrate, Prepare, Recover, Abort, Adopt,
         RecoverMigration, AbortMigration;
  }

  // -------------------------------------------------------------- whole runs

  /** One world after another, each by one move. */
  ghost predicate IsPath(h: Hasher, config: Config, path: seq<World>, moves: seq<Move>, times: seq<int>) {
    && |path| == |moves| + 1 == |times| + 1
    && forall i :: 0 <= i < |moves| ==> Next(h, config, path[i], moves[i], times[i]) == Ok(path[i + 1])
  }

  /** A path from the empty store. */
  ghost predicate IsRun(h: Hasher, config: Config, run: seq<World>, moves: seq<Move>, times: seq<int>) {
    IsPath(h, config, run, moves, times) && run[0] == EMPTY_WORLD
  }

  lemma PathGrows(h: Hasher, config: Config, path: seq<World>, moves: seq<Move>, times: seq<int>,
                  m: Move, t: int, w: World)
    requires IsPath(h, config, path, moves, times) && Next(h, config, path[|path| - 1], m, t) == Ok(w)
    ensures IsPath(h, config, path + [w], moves + [m], times + [t])
  {
    hide Next;
  }

  /** Some run of moves leads from `w` to `v`. */
  ghost predicate LeadsTo(h: Hasher, config: Config, w: World, v: World) {
    exists path: seq<World>, moves: seq<Move>, times: seq<int> {:trigger IsPath(h, config, path, moves, times)} ::
      IsPath(h, config, path, moves, times) && path[0] == w && path[|path| - 1] == v
  }

  lemma PathBegins(h: Hasher, config: Config, w: World, m: Move, path: seq<World>, moves: seq<Move>, times: seq<int>)
    requires IsPath(h, config, path, moves, times) && Next(h, config, w, m, 0) == Ok(path[0])
    ensures IsPath(h, config, [w] + path, [m] + moves, [0] + times)
  {
    hide Next;
  }

  lemma PathJoins(h: Hasher, config: Config, a: seq<World>, am: seq<Move>, at: seq<int>,
                  b: seq<World>, bm: seq<Move>, bt: seq<int>)
    requires IsPath(h, config, a, am, at) && IsPath(h, config, b, bm, bt) && a[|a| - 1] == b[0]
    ensures IsPath(h, config, a + b[1..], am + bm, at + bt)
    ensures (a + b[1..])[0] == a[0] && (a + b[1..])[|a + b[1..]| - 1] == b[|b| - 1]
  {
    hide Next;
    var path, moves, times := a + b[1..], am + bm, at + bt;
    forall i | 0 <= i < |moves| ensures Next(h, config, path[i], moves[i], times[i]) == Ok(path[i + 1]) {
      if i < |am| {
        assert Next(h, config, a[i], am[i], at[i]) == Ok(a[i + 1]);
      } else {
        var k := i - |am|;
        assert Next(h, config, b[k], bm[k], bt[k]) == Ok(b[k + 1]);
      }
    }
  }

  lemma PathStep(h: Hasher, config: Config, path: seq<World>, moves: seq<Move>, times: seq<int>, k: nat)
    requires IsPath(h, config, path, moves, times) && 1 <= k < |path|
    ensures Next(h, config, path[k - 1], moves[k - 1], times[k - 1]) == Ok(path[k])
  {
    hide Next;
    assert Next(h, config, path[k - 1], moves[k - 1], times[k - 1]) == Ok(path[k - 1 + 1]);
  }

  lemma MoveKeeps(h: Hasher, config: Config, w: World, m: Move, at: int, v: World)
    requires WorldInv(h, config, w) && Next(h, config, w, m, at) == Ok(v)
    ensures WorldInv(h, config, v)
  {
    hide WorldInv, Next, Effect, Transacted;
    NextDone(h, config, w, m, at);
  }

  /** What holds at the start of a path holds all along it. */
  lemma {:induction false} PathsKeepWorld(h: Hasher, config: Config, path: seq<World>, moves: seq<Move>,
                                          times: seq<int>, k: nat)
    requires IsPath(h, config, path, moves, times) && k < |path| && WorldInv(h, config, path[0])
    ensures WorldInv(h, config, path[k])
  {
    hide WorldInv, Next;
    if k > 0 {
      PathsKeepWorld(h, config, path, moves, times, k - 1);
      PathStep(h, config, path, moves, times, k);
      MoveKeeps(h, config, path[k - 1], moves[k - 1], times[k - 1], path[k]);
    }
  }

  /** Every world of every run satisfies everything. */
  lemma RunsKeepWorld(h: Hasher, config: Config, run: seq<World>, moves: seq<Move>, times: seq<int>, k: nat)
    requires IsRun(h, config, run, moves, times) && k < |run|
    ensures WorldInv(h, config, run[k])
  {
    hide WorldInv, IsPath;
    EmptyWorld(h, config);
    PathsKeepWorld(h, config, run, moves, times, k);
  }

  lemma EmptyWorld(h: Hasher, config: Config)
    ensures WorldInv(h, config, EMPTY_WORLD)
  {
    hide CaseInv, PastOk, MarkerOk;
  }

  lemma LeadsNowhere(h: Hasher, config: Config, w: World)
    ensures LeadsTo(h, config, w, w)
  {
    hide Next;
    var path: seq<World>, moves: seq<Move>, times: seq<int> := [w], [], [];
    assert IsPath(h, config, path, moves, times);
  }

  lemma LeadsFurther(h: Hasher, config: Config, w: World, v: World, m: Move, t: int, u: World)
    requires LeadsTo(h, config, w, v) && Next(h, config, v, m, t) == Ok(u)
    ensures LeadsTo(h, config, w, u)
  {
    hide Next;
    var path: seq<World>, moves: seq<Move>, times: seq<int> :|
      IsPath(h, config, path, moves, times) && path[0] == w && path[|path| - 1] == v;
    PathGrows(h, config, path, moves, times, m, t, u);
    assert (path + [u])[0] == w && (path + [u])[|path + [u]| - 1] == u;
  }

  lemma LeadsKeep(h: Hasher, config: Config, w: World, v: World)
    requires LeadsTo(h, config, w, v) && WorldInv(h, config, w)
    ensures WorldInv(h, config, v)
  {
    hide Next, WorldInv;
    var path: seq<World>, moves: seq<Move>, times: seq<int> :|
      IsPath(h, config, path, moves, times) && path[0] == w && path[|path| - 1] == v;
    PathsKeepWorld(h, config, path, moves, times, |path| - 1);
  }
}
