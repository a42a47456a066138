/** Compression in two phases and adoption along a lineage: the active case is
    never lost or doubled, and repeating a recovery changes nothing. */
module Compression {
  import opened Wrappers
  import opened Records
  import opened History
  import opened Transactions
  import opened Consultation
  import opened Harness
  import opened Invariants
  import opened Sessions
  import opened Lifecycle
  import opened Effects
  import opened Resumption

  predicate HoldsActive(st: Store, id: CaseId) {
    Exists(st, id) && StateOf(st, id).status.Active?
  }

  /** The same cases are active, and all but `id` on the same sessions. */
  ghost predicate SameActive(st: Store, id: CaseId, after: Store) {
    && (forall other :: HoldsActive(st, other) <==> HoldsActive(after, other))
    && (forall other, s :: other != id ==> (IsActive(st, other, s) <==> IsActive(after, other, s)))
  }

  lemma MovePlan(config: Config, now: int, session: Session, c: Case, events: seq<Event>, abort: bool, to: Session)
    ensures var p := Perform(config, now, session, c, events, if abort then AbortTo(to) else MigrateTo(to));
            && (p.Some? <==> c.status.Active? && to != "")
            && (p.Some? ==> p.value.state == c.(session := to))
  {
  }

  /** A migration rebinds the active case of `from` and touches nothing else. */
  lemma MigrationMoves(h: Hasher, config: Config, w: World, from: Session, to: Session, abort: bool, at: int)
    requires WorldInv(h, config, w) && to != "" && MigrateLocked(h, config, w, from, to, abort, at).Ok?
    ensures
      var v := MigrateLocked(h, config, w, from, to, abort, at).value;
      && v.intents == w.intents && v.leased == w.leased
      && (ActiveOf(w.store, from).None? ==> v == w)
      && (ActiveOf(w.store, from).Some? ==>
            var id := ActiveOf(w.store, from).value;
            IsActive(v.store, id, to) && SameActive(w.store, id, v.store) && id !in w.leased)
  {
    hide LifeInv, Perform, Shifted, Outline, Wrote, Write, Free;
    var active := ActiveOf(w.store, from);
    if active.Some? {
      var id, a := active.value, if abort then AbortTo(to) else MigrateTo(to);
      var v := MigrateLocked(h, config, w, from, to, abort, at).value;
      AttemptKeeps(h, config, 0, w.store, id, from, a, at);
      var p := Perform(config, 0, from, StateOf(w.store, id), w.store.slots[id].events, a);
      MovePlan(config, 0, from, StateOf(w.store, id), w.store.slots[id].events, abort, to);
      ShiftState(w.store, id, p.value, v.store);
      ShiftedSame(w.store, id, p.value, v.store);
    }
  }

  lemma ShiftedSame(st: Store, id: CaseId, ch: Change, after: Store)
    requires Shifted(st, id, ch, after) && HoldsActive(st, id) && HoldsActive(after, id)
    ensures SameActive(st, id, after)
  {
    hide NextNumber, Filled;
  }

  lemma OnlyActive(h: Hasher, config: Config, w: World, id: CaseId, s: Session)
    requires WorldInv(h, config, w) && IsActive(w.store, id, s)
    ensures ActiveOf(w.store, s) == Some(id)
  {
    hide StoreInv, AllSlots;
  }

  /** Preparing changes no case. Recovery and rollback, and the same cut short by
      a crash before the intent is gone, neither lose nor double an active case,
      and keep the one they move on one of the two sessions. */
  lemma CompressionConserves(h: Hasher, config: Config, w: World, i: Intent, at: int)
    requires WorldInv(h, config, w) && i in w.intents
    ensures RecoverMigration(h, config, w, i, at).Ok? ==>
              var v := RecoverMigration(h, config, w, i, at).value;
              && SameActive(w.store, w.intents[i], v.store) && v.intents == w.intents
              && (HoldsActive(w.store, w.intents[i]) ==> IsActive(v.store, w.intents[i], i.to))
    ensures AbortMigration(h, config, w, i, at).Ok? ==>
              var v := AbortMigration(h, config, w, i, at).value;
              && SameActive(w.store, w.intents[i], v.store) && v.intents == w.intents
              && IsActive(v.store, w.intents[i], i.from)
  {
    hide WorldInv, MigrateLocked;
    Nonblank(h, config, w, i);
    if RecoverMigration(h, config, w, i, at).Ok? && ActiveOf(w.store, i.to).None? && ActiveOf(w.store, i.from).Some? {
      MigrationMoves(h, config, w, i.from, i.to, false, at);
    }
    if AbortMigration(h, config, w, i, at).Ok? && ActiveOf(w.store, i.from).None? {
      MigrationMoves(h, config, w, i.to, i.from, true, at);
    }
  }

  lemma Nonblank(h: Hasher, config: Config, w: World, i: Intent)
    requires WorldInv(h, config, w) && i in w.intents
    ensures i.from != "" && i.to != ""
  {
    hide LifeInv;
  }

  /** A crash between the migration and the removal of the intent is made good by
      the next recovery, which ends where the uninterrupted one would have. */
  lemma CrashedRecoveryConverges(h: Hasher, config: Config, w: World, i: Intent, at: int, later: int)
    requires WorldInv(h, config, w) && OnlyIntent(w, i) && RecoverMigration(h, config, w, i, at).Ok?
    ensures
      var half := RecoverMigration(h, config, w, i, at).value;
      && Recover(h, config, w, i.to, at) == Ok(Cleared(half, i))
      && Recover(h, config, half, i.to, later) == Ok(Cleared(half, i))
  {
    hide WorldInv, MigrateLocked, SameActive, Effect, Transacted, Vacant, Free;
    Nonblank(h, config, w, i);
    var half := RecoverMigration(h, config, w, i, at).value;
    CompressionConserves(h, config, w, i, at);
    IntentDone(h, config, w, i, at);
    assert OnlyIntent(half, i);
    assert RecoverMigration(h, config, half, i, later) == Ok(half) by {
      if HoldsActive(w.store, w.intents[i]) {
        OnlyActive(h, config, half, w.intents[i], i.to);
      } else {
        assert half == w;
      }
    }
  }

  lemma CrashedAbortConverges(h: Hasher, config: Config, w: World, i: Intent, at: int, later: int)
    requires WorldInv(h, config, w) && i in w.intents && AbortMigration(h, config, w, i, at).Ok?
    ensures
      var half := AbortMigration(h, config, w, i, at).value;
      && Abort(h, config, w, i, at) == Ok(Cleared(half, i))
      && Abort(h, config, half, i, later) == Ok(Cleared(half, i))
  {
    hide WorldInv, MigrateLocked, SameActive, Effect, Transacted, Vacant, Free;
    Nonblank(h, config, w, i);
    var half := AbortMigration(h, config, w, i, at).value;
    CompressionConserves(h, config, w, i, at);
    IntentDone(h, config, w, i, at);
    OnlyActive(h, config, half, w.intents[i], i.from);
  }

  lemma RecoverIs(h: Hasher, config: Config, w: World, i: Intent, at: int)
    requires OnlyIntent(w, i) && i.to != ""
    ensures Recover(h, config, w, i.to, at) ==
            match RecoverMigration(h, config, w, i, at) case Err(e) => Err(e) case Ok(v) => Ok(Cleared(v, i))
  {
    hide RecoverMigration;
  }

  /** A recovery that has succeeded has nothing more to do. */
  lemma RecoveryIdempotent(h: Hasher, config: Config, w: World, to: Session, at: int, later: int)
    requires WorldInv(h, config, w) && Recover(h, config, w, to, at).Ok?
    ensures var v := Recover(h, config, w, to, at).value;
            Recover(h, config, v, to, later) == Ok(v)
  {
    hide WorldInv, RecoverMigration;
    if i :| to != "" && i in w.intents && i.to == to && OnlyIntent(w, i) {
      RecoverIs(h, config, w, i, at);
      CompressionConserves(h, config, w, i, at);
    }
  }

  /** Exactly when a compression is prepared: between two sessions, the one holding an
      active case, the other no other, and with no other continuation prepared. */
  lemma PreparesExactly(h: Hasher, config: Config, w: World, from: Session, to: Session, id: CaseId)
    requires WorldInv(h, config, w) && IsActive(w.store, id, from)
    ensures Next(h, config, w, Prepares(from, to), 0)
            == if to == "" || from == to then Err(BadSession)
               else if exists other :: other != id && IsActive(w.store, other, to) then Err(AlreadyActive)
               else if exists i :: i in w.intents && i.from == from && i.to != to then Err(IntentConflict)
               else Ok(w.(intents := w.intents[Intent(from, to) := id]))
  {
    hide WorldInv, IsActive;
    OnlyActive(h, config, w, id, from);
    assert from != "" by { ActiveSession(w.store, id, from); }
  }

  lemma ActiveSession(st: Store, id: CaseId, s: Session)
    requires IsActive(st, id, s)
    ensures s != ""
  {
  }

  /** What was prepared can be recovered at once, if the lease of the case is free: the
      case is then active on the session it was prepared for. */
  lemma PreparedRecovers(h: Hasher, config: Config, w: World, i: Intent, id: CaseId, at: int)
    requires WorldInv(h, config, w) && IsActive(w.store, id, i.from) && id !in w.leased
    requires Prepare(w, i.from, i.to).Ok?
    ensures var v := Prepare(w, i.from, i.to).value;
            && v.store == w.store && i in v.intents && v.intents[i] == id
            && RecoverMigration(h, config, v, i, at).Ok?
            && IsActive(RecoverMigration(h, config, v, i, at).value.store, id, i.to)
  {
    hide LifeInv, MigrateLocked, IsActive, Free;
    var v := Prepare(w, i.from, i.to).value;
    OnlyActive(h, config, w, id, i.from);
    ClearAhead(h, config, w, i.from, i.to, id);
    MigrationAccepted(h, config, v, id, i.from, i.to, at);
    MigrationMoves(h, config, v, i.from, i.to, false, at);
  }

  lemma ClearAhead(h: Hasher, config: Config, w: World, from: Session, to: Session, id: CaseId)
    requires WorldInv(h, config, w) && IsActive(w.store, id, from) && from != to && Free(w.store, to, id)
    ensures ActiveOf(w.store, to).None?
  {
    hide WorldInv;
  }

  // ----------------------------------------------------------------- adoption

  /** The newest ancestor that owns anything is the one that is looked at. */
  lemma {:induction false} AdoptsNewest(h: Hasher, config: Config, w: World, ancestors: seq<Session>, child: Session,
                                        keep: bool, at: int, k: nat)
    requires k < |ancestors| && Owner(w.store, ancestors[k])
    requires forall j :: k < j < |ancestors| ==> !Owner(w.store, ancestors[j])
    ensures AdoptFrom(h, config, w, ancestors, child, keep, at) ==
            if ActiveOf(w.store, ancestors[k]).Some? then MigrateLocked(h, config, w, ancestors[k], child, false, at)
            else MigratePausedLocked(h, config, w, EligibleOf(w.store, ancestors[k]).value, child, keep, at)
    decreases |ancestors|
  {
    hide MigrateLocked, MigratePausedLocked, Vacant;
    var n := |ancestors| - 1;
    if k < n {
      assert !Owner(w.store, ancestors[n]);
      AdoptsNewest(h, config, w, ancestors[..n], child, keep, at, k);
    }
  }

  lemma {:induction false} AdoptsNothing(h: Hasher, config: Config, w: World, ancestors: seq<Session>, child: Session,
                                         keep: bool, at: int)
    requires forall j :: 0 <= j < |ancestors| ==> !Owner(w.store, ancestors[j])
    ensures AdoptFrom(h, config, w, ancestors, child, keep, at) == Ok(w)
    decreases |ancestors|
  {
    hide MigrateLocked, MigratePausedLocked, Vacant;
    if ancestors != [] {
      assert !Owner(w.store, ancestors[|ancestors| - 1]);
      AdoptsNothing(h, config, w, ancestors[..|ancestors| - 1], child, keep, at);
    }
  }

  lemma PausedPlan(config: Config, now: int, session: Session, c: Case, events: seq<Event>, to: Session, keep: bool)
    ensures var p := Perform(config, now, session, c, events, MigratePaused(to, keep));
            && (p.Some? <==> c.status.Paused? && c.marker.Some? && to != "")
            && (p.Some? ==>
                  p.value.entry == SessionMigrated(c.session, to)
                  && p.value.state
                     == c.(session := to, marker := if keep then Some(c.marker.value.(number := None)) else None))
  {
  }

  lemma AppendedCount(st: Store, id: CaseId, ch: Change, after: Store)
    requires Shifted(st, id, ch, after) && ch.state.session != ""
    ensures Count(after.log, ch.state.session)
            == Count(st.log, ch.state.session) + if IsDisposition(ch.entry) then 1 else 0
  {
    hide Filled;
    assert after.log[..|st.log|] == st.log;
  }

  /** A paused case adopted with its marker can be resumed on the child session,
      and one adopted without stays dormant. */
  lemma PausedAdoption(h: Hasher, config: Config, w: World, id: CaseId, child: Session, keep: bool, at: int)
    requires WorldInv(h, config, w) && child != "" && Exists(w.store, id)
             && Eligible(w.store, id, StateOf(w.store, id).session)
    requires id !in w.leased
    ensures
      var r := MigratePausedLocked(h, config, w, id, child, keep, at);
      && r.Ok? && Exists(r.value.store, id) && StateOf(r.value.store, id).session == child
      && (if keep then Eligible(r.value.store, id, child) else Dormant(r.value.store, id))
  {
    hide LifeInv, Perform, Outline, Wrote, Write, Count;
    var a := MigratePaused(child, keep);
    AttemptKeeps(h, config, 0, w.store, id, child, a, at);
    PausedPlan(config, 0, child, StateOf(w.store, id), w.store.slots[id].events, child, keep);
    var p := Perform(config, 0, child, StateOf(w.store, id), w.store.slots[id].events, a);
    var after := MigratePausedLocked(h, config, w, id, child, keep, at).value.store;
    AppendedCount(w.store, id, p.value, after);
  }

  /** Some case, in its record or in any event of its Timeline, names the session. */
  ghost predicate Named(st: Store, s: Session) {
    exists id :: Exists(st, id) && (StateOf(st, id).session == s || NamedIn(st.slots[id].events, s))
  }

  predicate NamedIn(events: seq<Event>, s: Session) {
    exists e :: e in events && e.body.session == s
  }

  lemma PristineIsUnnamed(st: Store, s: Session)
    ensures Pristine(st, s) <==> !Named(st, s)
  {
    forall id | Exists(st, id) ensures Unnamed(st.slots[id].events, s) <==> !NamedIn(st.slots[id].events, s) {
      var events := st.slots[id].events;
      assert forall k :: 0 <= k < |events| ==> events[k] in events;
    }
  }

  /** Before the child's first place in the lineage, nothing newer than `k` holds an
      active case or one that still waits for a sign of life. */
  ghost predicate NoneNewer(st: Store, lineage: seq<Session>, child: Session, p: nat, k: int) {
    && -1 <= k < p < |lineage| && lineage[p] == child && child !in lineage[..p]
    && forall j, id :: k < j < p ==> !IsActive(st, id, lineage[j]) && !Eligible(st, id, lineage[j])
  }

  lemma {:induction false} AncestorsAre(lineage: seq<Session>, child: Session, p: nat)
    requires p < |lineage| && lineage[p] == child && child !in lineage[..p]
    ensures Ancestors(lineage, child) == lineage[..p]
  {
    if p > 0 {
      assert lineage[0] in lineage[..p];
      assert lineage[1..][..p - 1] == lineage[..p][1..];
      AncestorsAre(lineage[1..], child, p - 1);
    }
  }

  lemma {:induction false} AdoptIs(h: Hasher, config: Config, w: World, lineage: seq<Session>, child: Session, at: int,
                                   p: nat, k: int)
    requires child != "" && Vacant(w.store, child) && NoneNewer(w.store, lineage, child, p, k)
    ensures Next(h, config, w, Adopts(lineage, child), at)
            == AdoptFrom(h, config, w, lineage[..p], child, Pristine(w.store, child), at)
    ensures forall j :: k < j < p ==> !Owner(w.store, lineage[..p][j])
  {
    hide AdoptFrom, Pristine, IsActive, Eligible;
    AncestorsAre(lineage, child, p);
    assert child in lineage;
    assert Next(h, config, w, Adopts(lineage, child), at) == Adopt(h, config, w, lineage, child, at);
  }

  /** Adoption of a paused case: afterwards it waits on the child for a sign of life
      exactly if nothing had named the child before; otherwise it lies dormant there.
      While its lease is held the adoption is refused. */
  lemma AdoptionDecides(h: Hasher, config: Config, w: World, lineage: seq<Session>, child: Session, at: int, p: nat,
                        k: nat, id: CaseId)
    requires WorldInv(h, config, w) && child != "" && Vacant(w.store, child)
    requires NoneNewer(w.store, lineage, child, p, k) && Vacant(w.store, lineage[k])
    requires Eligible(w.store, id, lineage[k])
    ensures var r := Next(h, config, w, Adopts(lineage, child), at);
            && (id in w.leased ==> r == Err(ProbeBusy))
            && (id !in w.leased ==>
                  && r.Ok? && Exists(r.value.store, id) && StateOf(r.value.store, id).session == child
                  && if Named(w.store, child) then Dormant(r.value.store, id) else Eligible(r.value.store, id, child))
  {
    hide WorldInv, Next, AdoptFrom, Pristine, Named, MigratePausedLocked, IsActive, Eligible, Dormant;
    AdoptIs(h, config, w, lineage, child, at, p, k);
    PristineIsUnnamed(w.store, child);
    OnlyEligible(h, config, w, lineage[k], id);
    AdoptsNewest(h, config, w, lineage[..p], child, Pristine(w.store, child), at, k);
    if id !in w.leased {
      PausedAdoption(h, config, w, id, child, Pristine(w.store, child), at);
    } else {
      LeaseRefuses(h, config, w, id, child, Pristine(w.store, child), at);
    }
  }

  lemma LeaseRefuses(h: Hasher, config: Config, w: World, id: CaseId, child: Session, keep: bool, at: int)
    requires Exists(w.store, id) && id in w.leased
    ensures MigratePausedLocked(h, config, w, id, child, keep, at) == Err(ProbeBusy)
  {
  }

  lemma OnlyEligible(h: Hasher, config: Config, w: World, s: Session, id: CaseId)
    requires WorldInv(h, config, w) && Eligible(w.store, id, s)
    ensures EligibleOf(w.store, s) == Some(id) && Exists(w.store, id) && StateOf(w.store, id).session == s
    ensures Owner(w.store, s)
  {
    hide LifeInv;
    OneEligible(h, config, w.store, s, id, EligibleOf(w.store, s).value);
  }

  /** Adoption of an active case: it is active on the child afterwards, and no other
      case has moved. */
  lemma AdoptionMoves(h: Hasher, config: Config, w: World, lineage: seq<Session>, child: Session, at: int, p: nat,
                      k: nat, id: CaseId)
    requires WorldInv(h, config, w) && child != "" && Vacant(w.store, child)
    requires NoneNewer(w.store, lineage, child, p, k) && IsActive(w.store, id, lineage[k])
    ensures var r := Next(h, config, w, Adopts(lineage, child), at);
            && (id in w.leased ==> r == Err(ProbeBusy))
            && (id !in w.leased ==> r.Ok? && IsActive(r.value.store, id, child)
                                    && SameActive(w.store, id, r.value.store))
  {
    hide WorldInv, Next, AdoptFrom, Pristine, IsActive, Eligible, SameActive, Attempt, Free;
    AdoptIs(h, config, w, lineage, child, at, p, k);
    OnlyActive(h, config, w, id, lineage[k]);
    AdoptsNewest(h, config, w, lineage[..p], child, Pristine(w.store, child), at, k);
    VacantFree(w.store, child, id);
    if id !in w.leased {
      MigrationAccepted(h, config, w, id, lineage[k], child, at);
      MigrationMoves(h, config, w, lineage[k], child, false, at);
    }
  }

  lemma VacantFree(st: Store, s: Session, id: CaseId)
    requires Vacant(st, s)
    ensures Free(st, s, id)
  {
  }

  lemma MigrationAccepted(h: Hasher, config: Config, w: World, id: CaseId, from: Session, to: Session, at: int)
    requires WorldInv(h, config, w) && ActiveOf(w.store, from) == Some(id) && id !in w.leased && to != ""
    requires Free(w.store, to, id)
    ensures MigrateLocked(h, config, w, from, to, false, at).Ok?
  {
    hide LifeInv, Perform, Shifted, Outline, Wrote, Write, Free;
    AttemptKeeps(h, config, 0, w.store, id, from, MigrateTo(to), at);
    MovePlan(config, 0, from, StateOf(w.store, id), w.store.slots[id].events, false, to);
  }

  /** Without an owner before the child, or with the child not in the lineage or
      active already, adoption changes nothing. */
  lemma AdoptionLeaves(h: Hasher, config: Config, w: World, lineage: seq<Session>, child: Session, at: int, p: nat)
    requires child == "" || child !in lineage || !Vacant(w.store, child) || NoneNewer(w.store, lineage, child, p, -1)
    ensures Next(h, config, w, Adopts(lineage, child), at) == Ok(w)
  {
    hide AdoptFrom, Pristine, IsActive, Eligible;
    if child != "" && child in lineage && Vacant(w.store, child) {
      AdoptIs(h, config, w, lineage, child, at, p, -1);
      AdoptsNothing(h, config, w, lineage[..p], child, Pristine(w.store, child), at);
    }
  }

  /** A sign of life resumes the eligible case, and then none is eligible. */
  lemma ResumedOnce(h: Hasher, config: Config, w: World, s: Session, at: int)
    requires WorldInv(h, config, w) && Vacant(w.store, s) && EligibleOf(w.store, s).Some?
    ensures
      var r := TryAutoResume(h, config, w, s, true, at);
      && r.Ok? && IsActive(r.value.store, EligibleOf(w.store, s).value, s)
      && forall id :: !Eligible(r.value.store, id, s)
  {
    hide LifeInv, Perform, Outline, Wrote, Write, Count;
    var id := EligibleOf(w.store, s).value;
    AttemptKeeps(h, config, 0, w.store, id, s, Action.AutoResume, at);
    AutoPlan(config, 0, s, StateOf(w.store, id), w.store.slots[id].events);
    var p := Perform(config, 0, s, StateOf(w.store, id), w.store.slots[id].events, Action.AutoResume);
    var v := TryAutoResume(h, config, w, s, true, at).value;
    AppendedCount(w.store, id, p.value, v.store);
    forall other ensures !Eligible(v.store, other, s) {
      if other != id && Exists(w.store, other) && Eligible(v.store, other, s) {
        MarkerBelow(h, config, w.store, other);
      }
    }
  }

  /** No sign of life resumes anything on a session that holds an active case or has
      none waiting, or while the case that waits does not replay. */
  lemma NothingResumed(h: Hasher, config: Config, w: World, s: Session, replayOk: bool, at: int)
    requires !replayOk || (exists id :: IsActive(w.store, id, s)) || forall id :: !Eligible(w.store, id, s)
    ensures Next(h, config, w, AutoResumes(s, replayOk), at) == Ok(w)
  {
    hide Attempt, IsActive, Eligible;
  }

  lemma PausePlans(config: Config, now: int, session: Session, c: Case, events: seq<Event>, marked: bool)
    ensures var p := Perform(config, now, session, c, events, LifecyclePause(marked));
            && (p.Some? <==> c.status.Active?)
            && (p.Some? ==> p.value.entry.CasePaused? && p.value.state.status.Paused?
                            && p.value.state.session == c.session
                            && p.value.state.marker == if marked then Some(Marker(None, None)) else c.marker)
  {
  }

  lemma ActiveUnmarked(h: Hasher, config: Config, st: Store, id: CaseId)
    requires LifeInv(h, config, st) && HoldsActive(st, id)
    ensures StateOf(st, id).marker.None?
  {
    hide CaseInv, StoreInv, SingleActive;
    assert SlotOk(config, st.slots[id]);
  }

  /** A lifecycle pause with a marker leaves the case to be resumed on the next
      sign of life; one without leaves it dormant. */
  lemma PauseDecides(h: Hasher, config: Config, w: World, s: Session, marked: bool, at: int)
    requires WorldInv(h, config, w) && ActiveOf(w.store, s).Some?
    ensures
      var r := PauseSession(h, config, w, s, marked, at);
      var id := ActiveOf(w.store, s).value;
      r.Ok? && if marked then Eligible(r.value.store, id, s) else Dormant(r.value.store, id)
  {
    hide LifeInv, Perform, Outline, Wrote, Write, Count;
    var id := ActiveOf(w.store, s).value;
    ActiveUnmarked(h, config, w.store, id);
    AttemptKeeps(h, config, 0, w.store, id, s, LifecyclePause(marked), at);
    PausePlans(config, 0, s, StateOf(w.store, id), w.store.slots[id].events, marked);
    var p := Perform(config, 0, s, StateOf(w.store, id), w.store.slots[id].events, LifecyclePause(marked));
    var v := PauseSession(h, config, w, s, marked, at).value;
    AppendedCount(w.store, id, p.value, v.store);
  }

  lemma AutoPlan(config: Config, now: int, session: Session, c: Case, events: seq<Event>)
    ensures var p := Perform(config, now, session, c, events, Action.AutoResume);
            && (p.Some? <==> c.status.Paused? && c.marker.Some? && c.session != "")
            && (p.Some? ==> p.value.entry == CaseResumed(c.session)
                            && p.value.state == c.(status := Active, marker := None))
  {
  }

  lemma MarkerBelow(h: Hasher, config: Config, st: Store, id: CaseId)
    requires LifeInv(h, config, st) && Exists(st, id)
    ensures var c := StateOf(st, id);
            c.marker.Some? && c.marker.value.number.Some? ==> c.marker.value.number.value <= Count(st.log, c.session)
  {
    hide LifeInv, LogNumbered, Count, LogTrue, LogComplete;
    if StateOf(st, id).marker.Some? {
      var p := MarkerPlace(h, config, st, id);
      Halves(h, config, st);
      Numbers(h, st);
      NumbersBounded(st.log, StateOf(st, id).session, p);
    }
  }
}
