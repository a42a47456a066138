/** The session operations of the store, each proved to be the lifecycle move it
    stands for. */
module SessionStores {
  import opened Wrappers
  import opened Records
  import opened History
  import opened Dispositions
  import opened Claims
  import opened Consultation
  import opened Harness
  import opened Opening
  import opened Sessions
  import opened Lifecycle
  import opened Effects
  import opened Resumption
  import opened Compression
  import opened Clients
  import opened CaseStores

  class SessionStore {
    const files: CaseStore
    ghost const config: Config
    var intents: map<Intent, CaseId>
    var leases: set<CaseId>

    ghost function World(): Lifecycle.World
      reads this, files
    {
      Lifecycle.World(files.Committed(), intents, leases)
    }

    /** What holds between operations, also after a crash in the middle of one. */
    ghost predicate Valid()
      reads this, files
    {
      files.Sound() && WorldInv(files.hasher, config, World())
    }

    constructor (store: CaseStore, ghost config: Config)
      requires store.Sound() && store.Committed() == Store(map[], [])
      ensures files == store && this.config == config && Valid() && World() == EMPTY_WORLD
    {
      files := store;
      this.config := config;
      intents := map[];
      leases := {};
      new;
      EmptyWorld(files.hasher, config);
    }

    /** Write back what a client planned from an earlier read: done if nothing was
        committed to the case since, refused otherwise. */
    method WriteBack(draft: Draft, session: Session, ghost a: Action, plan: Plan, ghost now: int, at: int)
      returns (r: Result<Snapshot>)
      requires Valid() && DraftOk(files.Committed(), draft) && draft.events.Some? && !IsLifecycle(a)
      requires plan == Perform(config, now, session, draft.seen, draft.events.value, a)
      modifies files
      ensures Valid()
      ensures match Submit(files.hasher, config, now, old(World()), draft, session, a, at)
              case Err(e) => r == Err(e) && World() == old(World())
              case Ok(st) => r.Ok? && World() == old(World()).(store := st)
    {
      hide WorldInv, Perform, Transact, DraftOk;
      Begin();
      ghost var w := World();
      WriteBackKeeps(files.hasher, config, w, draft, session, a, now, at);
      match plan {
        case None => return Err(NotAllowed);
        case Some(ch) => r := files.CommitTransaction(ch.state, [Request(ch.entry, ch.state.session)], ch.archive,
                                                      ch.target, at);
      }
    }

    /** Hold the execution lease of a case, without waiting for it. */
    method TakeLease(id: CaseId) returns (r: Result<bool>)
      requires Valid()
      modifies this`leases
      ensures Valid() && Follows(Next(files.hasher, config, old(World()), Leases(id), 0), old(World()), World(), r)
    {
      hide LifeInv, Next;
      LeaseMoves(files.hasher, config, World(), id, 0);
      if id in leases {
        return Err(ProbeBusy);
      }
      leases := leases + {id};
      return Ok(true);
    }

    /** Let the lease go; the system does it for a holder that dies. */
    method ReleaseLease(id: CaseId)
      requires Valid()
      modifies this`leases
      ensures Valid() && Next(files.hasher, config, old(World()), Releases(id), 0) == Ok(World())
    {
      hide LifeInv, Next;
      LeaseMoves(files.hasher, config, World(), id, 0);
      leases := leases - {id};
    }

    /** Is the lease held? */
    method LeaseIsHeld(id: CaseId) returns (held: bool)
      ensures held <==> id in World().leased
    {
      return id in leases;
    }

    /** The ids a scan of the store finds. */
    function Ids(): set<CaseId>
      reads this, files
    {
      set id | id in files.slots && files.slots[id].file.Some?
    }

    /** The active case of a session. */
    method FindActive(session: Session) returns (found: Option<CaseId>)
      requires Valid() && files.Quiet()
      ensures found == ActiveOf(files.Committed(), session)
    {
      hide WorldInv;
      QuietSlots(files.Files());
      var todo := Ids();
      found := None;
      while todo != {}
        invariant todo <= Ids()
        invariant found.Some? ==> IsActive(files.Committed(), found.value, session)
        invariant found.None? ==> forall id :: id in Ids() && id !in todo ==> !IsActive(files.Committed(), id, session)
        decreases todo
      {
        var id :| id in todo;
        var case_ := files.slots[id].file.value.state;
        if session != "" && case_.status.Active? && case_.session == session {
          found := Some(id);
        }
        todo := todo - {id};
      }
      assert SingleActive(files.Committed()) by { OnlyOne(files.hasher, config, World()); }
    }

    /** Recovery, which every operation starts with. */
    method Begin()
      requires Valid()
      modifies files
      ensures Valid() && files.Quiet() && World() == old(World())
    {
      hide WorldInv;
      var ok := files.Recover();
    }

    /** Write back what an operation has planned for a case. */
    method Attempt(id: CaseId, session: Session, ghost a: Action, plan: Plan, ghost now: int, at: int)
      returns (r: Result<Snapshot>)
      requires files.Quiet() && Exists(files.Committed(), id)
      requires var st := files.Committed(); plan
                                            == Perform(config, now, session, StateOf(st, id), st.slots[id].events, a)
      modifies files
      ensures files.Quiet()
      ensures match Lifecycle.Attempt(files.hasher, config, now, old(files.Committed()), id, session, a, at)
              case Err(e) => r == Err(e) && files.Committed() == old(files.Committed())
              case Ok(st) => r.Ok? && files.Committed() == st
    {
      hide Perform, Transact;
      match plan {
        case None => return Err(NotAllowed);
        case Some(ch) => r := files.CommitTransaction(ch.state, [Request(ch.entry, ch.state.session)], ch.archive,
                                                      ch.target, at);
      }
    }

    /** Pause the active case of a session, with or without a marker. */
    method PauseSession(session: Session, marked: bool, at: int) returns (r: Result<Option<Snapshot>>)
      requires Valid()
      modifies files
      ensures Valid() && Follows(Lifecycle.PauseSession(files.hasher, config, old(World()), session, marked, at),
                                 old(World()), World(), r)
    {
      hide WorldInv, Perform, Lifecycle.Attempt;
      Begin();
      ghost var w := World();
      SessionDone(files.hasher, config, w, session, marked, false, at);
      QuietSlots(files.Files());
      var active := FindActive(session);
      match active {
        case None => return Ok(None);
        case Some(id) =>
          var case_ := files.slots[id].file.value.state;
          PausePlan(config, session, case_, files.slots[id].events, marked);
          var done := Attempt(id, session, LifecyclePause(marked), PlanLifecyclePause(case_, marked), 0, at);
          match done {
            case Err(e) => return Err(e);
            case Ok(snapshot) => return Ok(Some(snapshot));
          }
      }
    }

    /** Claim a free session for one paused case. */
    method ResumePaused(id: CaseId, session: Session, at: int) returns (r: Result<Snapshot>)
      requires Valid()
      modifies files
      ensures Valid() && Follows(Lifecycle.Resume(files.hasher, config, old(World()), id, session, at), old(World()),
                                 World(), r)
    {
      hide WorldInv, Perform, Lifecycle.Attempt;
      Begin();
      ghost var w := World();
      ResumeDone(files.hasher, config, w, id, session, at);
      QuietSlots(files.Files());
      if session == "" {
        return Err(BadSession);
      }
      var active := FindActive(session);
      if active.Some? {
        return Err(AlreadyActive);
      }
      if id !in Ids() {
        return Err(NoSuchCase);
      }
      var case_ := files.slots[id].file.value.state;
      ResumePlanIs(config, session, case_, files.slots[id].events, session);
      r := Attempt(id, session, ResumeTo(session), PlanResume(case_, session), 0, at);
    }

    /** The paused case of a session whose marker carries the session's newest
        disposition number. */
    method FindEligible(session: Session) returns (found: Option<CaseId>)
      requires Valid() && files.Quiet()
      modifies files`cache
      ensures Valid() && files.Quiet() && World() == old(World())
      ensures found == EligibleOf(files.Committed(), session)
    {
      hide WorldInv, Count;
      QuietSlots(files.Files());
      var marks := files.Counts();
      QuietSlots(files.Files());
      var highWater := Mark(marks, session);
      var todo := Ids();
      found := None;
      while todo != {}
        invariant todo <= Ids()
        invariant found.Some? ==> Eligible(files.Committed(), found.value, session)
        invariant found.None? ==> forall id :: id in Ids() && id !in todo ==> !Eligible(files.Committed(), id, session)
        decreases todo
      {
        var id :| id in todo;
        var case_ := files.slots[id].file.value.state;
        if session != "" && case_.status.Paused? && case_.session == session && case_.marker.Some?
           && case_.marker.value.number == Some(highWater) && highWater >= 1
        {
          found := Some(id);
        }
        todo := todo - {id};
      }
      EligibleIs(files.hasher, config, World(), session, found);
    }

    /** Resume on a sign of life. */
    method TryAutoResume(session: Session, replayOk: bool, at: int) returns (r: Result<Option<Snapshot>>)
      requires Valid()
      modifies files
      ensures Valid() && Follows(Lifecycle.TryAutoResume(files.hasher, config, old(World()), session, replayOk, at),
                                 old(World()), World(), r)
    {
      hide WorldInv, Perform, Lifecycle.Attempt;
      Begin();
      ghost var w := World();
      SessionDone(files.hasher, config, w, session, false, replayOk, at);
      var active := FindActive(session);
      if active.Some? {
        return Ok(None);
      }
      var eligible := FindEligible(session);
      QuietSlots(files.Files());
      if eligible.None? || !replayOk {
        return Ok(None);
      }
      var id := eligible.value;
      var case_ := files.slots[id].file.value.state;
      AutoPlanIs(config, session, case_, files.slots[id].events);
      var done := Attempt(id, session, Action.AutoResume, PlanAutoResume(case_), 0, at);
      match done {
        case Err(e) => return Err(e);
        case Ok(snapshot) => return Ok(Some(snapshot));
      }
    }

    /** Create a case and bind it to a free session. */
    method OpenCase(id: CaseId, session: Session, model: Model, items: seq<Declared>, at: int)
      returns (r: Result<Snapshot>)
      requires Valid()
      modifies files
      ensures Valid() && Follows(Open(files.hasher, old(World()), id, session, model, items, at), old(World()),
                                 World(), r)
    {
      hide WorldInv, AcceptsModel, DeclaredOk, NormalModel, OpeningContext, Transact;
      Begin();
      ghost var w := World();
      OpenDone(files.hasher, config, w, id, session, model, items, at);
      QuietSlots(files.Files());
      if session == "" {
        return Err(BadSession);
      }
      var prepared := PrepareInitialEvidence(model, items);
      if prepared.Err? {
        return Err(BadModel);
      }
      var active := FindActive(session);
      if active.Some? {
        return Err(AlreadyActive);
      }
      if id in Ids() {
        return Err(CaseExists);
      }
      r := files.CommitTransaction(FreshCase(id, session, prepared.value), OpeningRequests(items, session), true,
                                   NoTarget, at);
    }

    /** Is another case active on the session? */
    method FindConflict(session: Session, id: CaseId) returns (conflict: bool)
      requires Valid() && files.Quiet()
      ensures conflict <==> !Free(files.Committed(), session, id)
    {
      hide WorldInv;
      var active := FindActive(session);
      conflict := active.Some? && active.value != id;
      OnlyOne(files.hasher, config, World());
    }

    /** Rebind the active case of `from`, fenced by the execution lease. */
    method MigrateLocked(from: Session, to: Session, abort: bool, at: int) returns (r: Result<Option<Snapshot>>)
      requires Valid() && files.Quiet()
      modifies files
      ensures Valid() && files.Quiet()
      ensures Follows(Lifecycle.MigrateLocked(files.hasher, config, old(World()), from, to, abort, at), old(World()),
                      World(), r)
    {
      hide WorldInv, Perform, Lifecycle.Attempt, Free;
      ghost var w := World();
      MigrateDone(files.hasher, config, w, from, to, abort, at);
      QuietSlots(files.Files());
      var active := FindActive(from);
      if active.None? {
        return Ok(None);
      }
      var id := active.value;
      var conflict := FindConflict(to, id);
      if conflict {
        return Err(AlreadyActive);
      }
      if id in leases {
        return Err(ProbeBusy);
      }
      var case_ := files.slots[id].file.value.state;
      MigratePlanIs(config, from, case_, files.slots[id].events, abort, to);
      var done := Attempt(id, from, if abort then AbortTo(to) else MigrateTo(to), if abort then PlanAbort(case_, to)
                                    else PlanMigrate(case_, to), 0, at);
      match done {
        case Err(e) => return Err(e);
        case Ok(snapshot) => return Ok(Some(snapshot));
      }
    }

    method MigrateActive(from: Session, to: Session, at: int) returns (r: Result<Option<Snapshot>>)
      requires Valid()
      modifies files
      ensures Valid() && Follows(Migrate(files.hasher, config, old(World()), from, to, at), old(World()), World(), r)
    {
      hide WorldInv, Lifecycle.MigrateLocked;
      Begin();
      if from == "" || to == "" {
        return Err(BadSession);
      }
      r := MigrateLocked(from, to, false, at);
    }

    /** Has the session been prepared to continue as some other one? */
    method PreparedElsewhere(from: Session, to: Session) returns (other: bool)
      ensures other <==> OtherIntent(World(), from, to)
    {
      var todo := intents.Keys;
      while todo != {}
        invariant todo <= intents.Keys
        invariant forall i :: i in intents && i !in todo ==> i.from != from || i.to == to
        decreases todo
      {
        var i :| i in todo;
        if i.from == from && i.to != to {
          assert i in World().intents;
          return true;
        }
        todo := todo - {i};
      }
      return false;
    }

    /** Record on disk that the case of `from` is about to continue as `to`. */
    method PrepareCompression(from: Session, to: Session) returns (r: Result<bool>)
      requires Valid()
      modifies this`intents, files
      ensures Valid() && Follows(Prepare(old(World()), from, to), old(World()), World(), r)
    {
      hide WorldInv, Free, OtherIntent, Vacant;
      Begin();
      if from == "" || to == "" || from == to {
        return Err(BadSession);
      }
      var active := FindActive(from);
      if active.None? {
        return Ok(false);
      }
      var conflict := FindConflict(to, active.value);
      if conflict {
        return Err(AlreadyActive);
      }
      var elsewhere := PreparedElsewhere(from, to);
      if elsewhere {
        return Err(IntentConflict);
      }
      PreparedKeeps(files.hasher, config, World(), Intent(from, to), active.value);
      intents := intents[Intent(from, to) := active.value];
      return Ok(true);
    }

    /** The migration half of a prepared compression's recovery. */
    method RecoverMigration(i: Intent, at: int) returns (r: Result<bool>)
      requires Valid() && files.Quiet() && i in intents
      modifies files
      ensures Valid() && files.Quiet()
      ensures Follows(Lifecycle.RecoverMigration(files.hasher, config, old(World()), i, at), old(World()), World(), r)
    {
      hide WorldInv, Lifecycle.MigrateLocked;
      QuietSlots(files.Files());
      var id := intents[i];
      var activeNew := FindActive(i.to);
      if activeNew.Some? {
        return if activeNew.value == id then Ok(false) else Err(IntentConflict);
      }
      var activeOld := FindActive(i.from);
      if activeOld.Some? {
        if activeOld.value != id {
          return Err(IntentConflict);
        }
        var moved := MigrateLocked(i.from, i.to, false, at);
        return if moved.Ok? then Ok(true) else Err(moved.error);
      }
      if id !in Ids() || files.slots[id].file.value.state.status.Active? {
        return Err(BindingLost);
      }
      return Ok(false);
    }

    /** The prepared compression that targets a session, if there is exactly one. */
    method FindIntent(to: Session) returns (found: Option<Intent>, many: bool)
      ensures many <==> exists i, j :: i in intents && j in intents && i != j && i.to == j.to == to
      ensures !many ==>
                if found.Some? then found.value.to == to && OnlyIntent(World(), found.value)
                else forall i :: i in intents ==> i.to != to
    {
      var matches := set i | i in intents && i.to == to;
      assert forall i :: i in intents && i.to == to ==> i in matches;
      if matches == {} {
        return None, false;
      }
      var i :| i in matches;
      if matches != {i} {
        var j :| j in matches && j != i;
        return None, true;
      }
      return Some(i), false;
    }

    /** Complete the one prepared compression that targets a session. */
    method RecoverPrepared(to: Session, at: int) returns (r: Result<bool>)
      requires Valid()
      modifies this`intents, files
      ensures Valid() && Follows(Recover(files.hasher, config, old(World()), to, at), old(World()), World(), r)
    {
      hide WorldInv, Lifecycle.RecoverMigration, OnlyIntent, Recover;
      Begin();
      ghost var w := World();
      if to == "" {
        RecoverNothing(files.hasher, config, w, to, at);
        return Ok(false);
      }
      var found, many := FindIntent(to);
      if many {
        RecoverMany(files.hasher, config, w, to, at);
        return Err(IntentConflict);
      }
      if found.None? {
        RecoverNothing(files.hasher, config, w, to, at);
        return Ok(false);
      }
      RecoverIs(files.hasher, config, w, found.value, at);
      OnlyIsThere(w, found.value);
      r := RecoverMigration(found.value, at);
      if r.Ok? {
        ClearedKeeps(files.hasher, config, World(), found.value);
        intents := intents - {found.value};
      }
    }

    /** The migration half of a rollback. */
    method AbortMigration(i: Intent, at: int) returns (r: Result<bool>)
      requires Valid() && files.Quiet() && i in intents
      modifies files
      ensures Valid() && files.Quiet()
      ensures Follows(Lifecycle.AbortMigration(files.hasher, config, old(World()), i, at), old(World()), World(), r)
    {
      hide WorldInv, Lifecycle.MigrateLocked;
      var id := intents[i];
      var activeOld := FindActive(i.from);
      if activeOld.Some? {
        return if activeOld.value == id then Ok(false) else Err(IntentConflict);
      }
      var activeNew := FindActive(i.to);
      if activeNew.None? {
        return Err(BindingLost);
      }
      if activeNew.value != id {
        return Err(IntentConflict);
      }
      var moved := MigrateLocked(i.to, i.from, true, at);
      return if moved.Ok? then Ok(true) else Err(moved.error);
    }

    /** Roll a prepared compression back. */
    method AbortPrepared(i: Intent, at: int) returns (r: Result<bool>)
      requires Valid()
      modifies this`intents, files
      ensures Valid() && Follows(Abort(files.hasher, config, old(World()), i, at), old(World()), World(), r)
    {
      hide WorldInv, Lifecycle.AbortMigration;
      Begin();
      if i !in intents {
        return Ok(false);
      }
      r := AbortMigration(i, at);
      if r.Ok? {
        ClearedKeeps(files.hasher, config, World(), i);
        intents := intents - {i};
      }
    }

    /** Does no case name the session, now or in its history? */
    method IsPristine(session: Session) returns (pristine: bool)
      requires Valid() && files.Quiet()
      ensures pristine <==> Pristine(files.Committed(), session)
    {
      hide WorldInv;
      QuietSlots(files.Files());
      var todo := Ids();
      while todo != {}
        invariant todo <= Ids()
        invariant forall id :: id in Ids() && id !in todo ==>
                    files.slots[id].file.value.state.session != session && Unnamed(files.slots[id].events, session)
        decreases todo
      {
        var id :| id in todo;
        var s := files.slots[id];
        if s.file.value.state.session == session {
          assert !Pristine(files.Committed(), session);
          return false;
        }
        var unnamed := NeverNames(s.events, session);
        if !unnamed {
          assert !Pristine(files.Committed(), session);
          return false;
        }
        todo := todo - {id};
      }
      return true;
    }

    /** Adopt the newest ancestor's case into the session that continues it. */
    method MigrateLineage(lineage: seq<Session>, child: Session, at: int) returns (r: Result<Option<Snapshot>>)
      requires Valid()
      modifies files
      ensures Valid() && Follows(Adopt(files.hasher, config, old(World()), lineage, child, at), old(World()), World(),
                                 r)
    {
      hide WorldInv, Pristine, Vacant, AdoptFrom;
      Begin();
      if child == "" || child !in lineage {
        return Ok(None);
      }
      var active := FindActive(child);
      if active.Some? {
        return Ok(None);
      }
      var keep := IsPristine(child);
      r := AdoptNewest(Ancestors(lineage, child), child, keep, at);
    }

    /** Search the ancestors from the newest backwards. */
    method AdoptNewest(prefix: seq<Session>, child: Session, keep: bool, at: int) returns (r: Result<Option<Snapshot>>)
      requires Valid() && files.Quiet()
      modifies files
      ensures Valid() && Follows(AdoptFrom(files.hasher, config, old(World()), prefix, child, keep, at), old(World()),
                                 World(), r)
    {
      hide WorldInv, Lifecycle.MigrateLocked, MigratePausedLocked, Vacant, AdoptFrom;
      ghost var w := World();
      AdoptFromKeeps(files.hasher, config, w, prefix, child, keep, at);
      var k := |prefix|;
      assert prefix[..k] == prefix;
      while k > 0
        invariant 0 <= k <= |prefix| && Valid() && files.Quiet() && World() == w
        invariant AdoptFrom(files.hasher, config, w, prefix, child, keep, at)
                  == AdoptFrom(files.hasher, config, w, prefix[..k], child, keep, at)
      {
        k := k - 1;
        AdoptTurn(files.hasher, config, w, prefix, k, child, keep, at);
        var owned := FindActive(prefix[k]);
        if owned.Some? {
          r := MigrateLocked(prefix[k], child, false, at);
          return;
        }
        var paused := FindEligible(prefix[k]);
        if paused.Some? {
          r := MigratePaused(paused.value, child, keep, at);
          return;
        }
      }
      AdoptEnds(files.hasher, config, w, child, keep, at);
      return Ok(None);
    }

    /** Move a paused case whose marker still counts, keeping or dropping the marker. */
    method MigratePaused(id: CaseId, child: Session, keep: bool, at: int) returns (r: Result<Option<Snapshot>>)
      requires files.Quiet() && Exists(files.Committed(), id)
      modifies files
      ensures files.Quiet()
      ensures Follows(MigratePausedLocked(files.hasher, config, old(World()), id, child, keep, at), old(World()),
                      World(), r)
    {
      hide Perform, Lifecycle.Attempt;
      QuietSlots(files.Files());
      if id in leases {
        return Err(ProbeBusy);
      }
      var case_ := files.slots[id].file.value.state;
      PausedPlanIs(config, child, case_, files.slots[id].events, child, keep);
      var done := Attempt(id, child, Action.MigratePaused(child, keep), PlanMigratePaused(case_, child, keep), 0, at);
      match done {
        case Err(e) => return Err(e);
        case Ok(snapshot) => return Ok(Some(snapshot));
      }
    }
  }

  lemma PausedPlanIs(config: Config, session: Session, c: Case, events: seq<Event>, to: Session, keep: bool)
    ensures Perform(config, 0, session, c, events, Action.MigratePaused(to, keep)) == PlanMigratePaused(c, to, keep)
  {
  }

  method NeverNames(events: seq<Event>, session: Session) returns (unnamed: bool)
    ensures unnamed <==> Unnamed(events, session)
  {
    for k := 0 to |events|
      invariant Unnamed(events[..k], session)
    {
      if events[k].body.session == session {
        return false;
      }
    }
    assert events[..|events|] == events;
    return true;
  }

  /** Whichever way the search ends, the world it ends in is sound. */
  lemma {:induction false} AdoptFromKeeps(h: Hasher, config: Config, w: World, ancestors: seq<Session>, child: Session,
                                          keep: bool,
                       at: int)
    requires WorldInv(h, config, w)
    ensures AdoptFrom(h, config, w, ancestors, child, keep, at).Ok? ==>
              WorldInv(h, config, AdoptFrom(h, config, w, ancestors, child, keep, at).value)
  {
    hide WorldInv, AdoptFrom, Effect, Transacted;
    AdoptFromDone(h, config, w, ancestors, child, keep, at);
  }

  lemma RecoverNothing(h: Hasher, config: Config, w: World, to: Session, at: int)
    requires to == "" || forall i :: i in w.intents ==> i.to != to
    ensures Recover(h, config, w, to, at) == Ok(w)
  {
    hide Lifecycle.RecoverMigration;
  }

  lemma RecoverMany(h: Hasher, config: Config, w: World, to: Session, at: int)
    requires to != "" && exists i, j :: i in w.intents && j in w.intents && i != j && i.to == j.to == to
    ensures Recover(h, config, w, to, at) == Err(IntentConflict)
  {
    hide Lifecycle.RecoverMigration;
  }

  lemma OnlyIsThere(w: World, i: Intent)
    requires OnlyIntent(w, i)
    ensures i in w.intents
  {
  }

  lemma PreparedKeeps(h: Hasher, config: Config, w: World, i: Intent, id: CaseId)
    requires WorldInv(h, config, w) && i.from != "" && i.to != "" && i.from != i.to && !OtherIntent(w, i.from, i.to)
    ensures WorldInv(h, config, w.(intents := w.intents[i := id]))
  {
    hide LifeInv;
  }

  lemma {:induction false} AdoptTurn(h: Hasher, config: Config, w: World, prefix: seq<Session>, k: nat, child: Session,
                                     keep: bool, at: int)
    requires k < |prefix|
    ensures AdoptFrom(h, config, w, prefix[..k + 1], child, keep, at) ==
            if ActiveOf(w.store, prefix[k]).Some? then Lifecycle.MigrateLocked(h, config, w, prefix[k], child, false,
                                                                               at)
            else match EligibleOf(w.store, prefix[k])
              case Some(id) => MigratePausedLocked(h, config, w, id, child, keep, at)
              case None => AdoptFrom(h, config, w, prefix[..k], child, keep, at)
  {
    hide Lifecycle.MigrateLocked, MigratePausedLocked, Vacant;
    assert prefix[..k + 1][..k] == prefix[..k] && prefix[..k + 1][k] == prefix[k];
  }

  lemma {:induction false} AdoptEnds(h: Hasher, config: Config, w: World, child: Session, keep: bool, at: int)
    ensures AdoptFrom(h, config, w, [], child, keep, at) == Ok(w)
  {
    hide Lifecycle.MigrateLocked, MigratePausedLocked;
  }

  lemma MigratePlanIs(config: Config, session: Session, c: Case, events: seq<Event>, abort: bool, to: Session)
    ensures Perform(config, 0, session, c, events, if abort then AbortTo(to)
                                                   else MigrateTo(to)) == if abort then PlanAbort(c, to)
                                                                          else PlanMigrate(c, to)
  {
  }

  lemma ResumePlanIs(config: Config, session: Session, c: Case, events: seq<Event>, s: Session)
    ensures Perform(config, 0, session, c, events, ResumeTo(s)) == PlanResume(c, s)
  {
  }

  lemma AutoPlanIs(config: Config, session: Session, c: Case, events: seq<Event>)
    ensures Perform(config, 0, session, c, events, Action.AutoResume) == PlanAutoResume(c)
  {
  }

  lemma EligibleIs(h: Hasher, config: Config, w: World, s: Session, found: Option<CaseId>)
    requires WorldInv(h, config, w)
    requires found.Some? ==> Eligible(w.store, found.value, s)
    requires found.None? ==> forall id :: !Eligible(w.store, id, s)
    ensures found == EligibleOf(w.store, s)
  {
    hide LifeInv, Eligible;
    if found.Some? {
      StoreOf(h, config, w);
      OneEligible(h, config, w.store, s, found.value, EligibleOf(w.store, s).value);
    }
  }

  lemma WriteBackKeeps(h: Hasher, config: Config, w: World, draft: Draft, session: Session, a: Action, now: int,
                       at: int)
    requires WorldInv(h, config, w) && DraftOk(w.store, draft)
    ensures var r := Submit(h, config, now, w, draft, session, a, at);
            r.Ok? ==> WorldInv(h, config, w.(store := r.value))
  {
    hide WorldInv, Submit, Next, DraftOk;
    WriteBackIsAtomic(h, config, now, w, draft, session, a, at);
    if Submit(h, config, now, w, draft, session, a, at).Ok? {
      NextDone(h, config, w, Operates(draft.id, session, a, now), at);
    }
  }

  /** An operation did what its lifecycle move says, or refused for the same reason. */
  ghost predicate Follows<T>(spec: Result<World>, before: World, after: World, r: Result<T>) {
    match spec
    case Err(e) => r == Err(e) && after == before
    case Ok(w) => r.Ok? && after == w
  }

  lemma PausePlan(config: Config, session: Session, c: Case, events: seq<Event>, marked: bool)
    ensures Perform(config, 0, session, c, events, LifecyclePause(marked)) == PlanLifecyclePause(c, marked)
  {
  }

  lemma OnlyOne(h: Hasher, config: Config, w: World)
    requires WorldInv(h, config, w)
    ensures SingleActive(w.store)
  {
    hide StoreInv, AllSlots;
  }
}
