/** Which paused case a sign of life resumes, and why a marker that has lapsed
    never counts again. */
module Resumption {
  import opened Wrappers
  import opened Records
  import opened Dispositions
  import opened History
  import opened Transactions
  import opened Consultation
  import opened Harness
  import opened Invariants
  import opened Sessions
  import opened Lifecycle
  import opened Effects

  lemma {:induction false} CountFlat(log: seq<Stamp>, s: Session, p: nat)
    requires p <= |log|
    requires forall q :: p <= q < |log| ==> !CountedEvent(log[q].event, s)
    ensures Count(log, s) == Count(log[..p], s)
  {
    if p < |log| {
      var n := |log| - 1;
      assert log[..n][..p] == log[..p];
      CountFlat(log[..n], s, p);
    } else {
      assert log[..p] == log;
    }
  }

  /** The place in the log of the disposition that set a marker. */
  lemma MarkerPlace(h: Hasher, config: Config, st: Store, id: CaseId) returns (p: nat)
    requires LifeInv(h, config, st) && Exists(st, id) && StateOf(st, id).marker.Some?
    ensures var c := StateOf(st, id);
            && c.marker.value.number.Some? && c.session != ""
            && p < |st.log| && st.log[p].id == id && SetsMarker(st.log[p].event, c.session, c.marker.value.number.value)
  {
    hide CaseInv, StoreInv, SingleActive, SetsMarker;
    assert SlotOk(config, st.slots[id]);
    var c, s := StateOf(st, id), st.slots[id];
    var i :| 0 <= i < |s.events| && SetsMarker(s.events[i], c.session, c.marker.value.number.value);
    p := Place(h, st, id, i);
  }

  lemma Place(h: Hasher, st: Store, id: CaseId, i: nat) returns (p: nat)
    requires StoreInv(h, st) && id in st.slots && i < |st.slots[id].events|
    ensures p < |st.log| && st.log[p] == Stamp(id, st.slots[id].events[i])
  {
    p := LogPosition(st, id, i);
  }

  lemma Numbers(h: Hasher, st: Store)
    requires StoreInv(h, st)
    ensures LogNumbered(st.log) && LogTrue(st) && LogComplete(st)
  {
  }

  /** Nothing has been disposed of on session `s` after place `p`. */
  ghost predicate LastOf(log: seq<Stamp>, s: Session, p: nat) {
    p < |log| && forall q :: p < q < |log| ==> !CountedEvent(log[q].event, s)
  }

  /** A counted event carries the highest number exactly when it is the last one. */
  lemma {:induction false} HighestIsLast(log: seq<Stamp>, s: Session, p: nat)
    requires LogNumbered(log) && p < |log| && NumberOf(log[p].event, s) >= 1
    ensures NumberOf(log[p].event, s) == Count(log, s) <==> LastOf(log, s, p)
  {
    assert NumberedRight(log, p, s);
    if LastOf(log, s, p) {
      CountFlat(log, s, p + 1);
      assert log[..p + 1][..p] == log[..p];
    } else {
      var q :| p < q < |log| && CountedEvent(log[q].event, s);
      assert NumberedRight(log, q, s);
      NumbersDistinct(log, s, p, q);
      NumbersBounded(log, s, q);
    }
  }

  /** A marked paused case is eligible exactly when the disposition that set its
      marker is the last one of its session across all cases. */
  lemma EligibleIffLast(h: Hasher, config: Config, st: Store, id: CaseId)
    requires LifeInv(h, config, st) && Exists(st, id) && StateOf(st, id).marker.Some?
    ensures
      var c := StateOf(st, id);
      Eligible(st, id, c.session) <==>
      exists p :: 0 <= p < |st.log| && st.log[p].id == id && c.marker.value.number.Some?
                  && SetsMarker(st.log[p].event, c.session, c.marker.value.number.value) && LastOf(st.log, c.session, p)
  {
    hide Count, CaseInv, LastOf, StoreInv;
    var c := StateOf(st, id);
    var p := MarkerPlace(h, config, st, id);
    Numbers(h, st);
    assert c.status.Paused? by { assert SlotOk(config, st.slots[id]); }
    HighestIsLast(st.log, c.session, p);
    if Eligible(st, id, c.session) {
      assert LastOf(st.log, c.session, p);
    }
    if q :| 0 <= q < |st.log| && SetsMarker(st.log[q].event, c.session, c.marker.value.number.value)
            && LastOf(st.log, c.session, q) {
      HighestIsLast(st.log, c.session, q);
    }
  }

  lemma Halves(h: Hasher, config: Config, st: Store)
    requires LifeInv(h, config, st)
    ensures StoreInv(h, st) && AllSlots(config, st) && SingleActive(st)
  {
  }

  /** At most one case of a session is eligible. */
  lemma OneEligible(h: Hasher, config: Config, st: Store, s: Session, a: CaseId, b: CaseId)
    requires LifeInv(h, config, st) && Eligible(st, a, s) && Eligible(st, b, s)
    ensures a == b
  {
    hide LifeInv, LogNumbered, Count, LogTrue, LogComplete;
    var p := MarkerPlace(h, config, st, a);
    var q := MarkerPlace(h, config, st, b);
    assert StoreInv(h, st) by { Halves(h, config, st); }
    Numbers(h, st);
    if p < q {
      NumbersDistinct(st.log, s, p, q);
    } else if q < p {
      NumbersDistinct(st.log, s, q, p);
    }
  }

  // ----------------------------------------------------------- lapsed markers

  /** Paused, and no sign of life will resume it. */
  predicate Dormant(st: Store, id: CaseId) {
    Exists(st, id) && StateOf(st, id).status.Paused? && !Eligible(st, id, StateOf(st, id).session)
  }

  function Situation(st: Store, id: CaseId): (Status, Session, Option<Marker>)
    requires Exists(st, id)
  {
    (StateOf(st, id).status, StateOf(st, id).session, StateOf(st, id).marker)
  }

  lemma LapsedForGood(h: Hasher, config: Config, st: Store, id: CaseId, after: Store)
    requires LifeInv(h, config, st) && Dormant(st, id)
    requires Exists(after, id) && Situation(after, id) == Situation(st, id)
    requires |st.log| <= |after.log| && after.log[..|st.log|] == st.log
    ensures Dormant(after, id)
  {
    hide CaseInv, Count, LogTrue, LogComplete, StoreInv;
    var c := StateOf(st, id);
    if c.marker.Some? {
      var p := MarkerPlace(h, config, st, id);
      Numbers(h, st);
      NumbersBounded(st.log, c.session, p);
      CountMonotone(after.log, c.session, |st.log|);
    }
  }

  /** A paused case with no valid marker stays as it is through every move but
      its own explicit resume. */
  lemma DormantStays(h: Hasher, config: Config, w: World, m: Move, at: int, id: CaseId)
    requires WorldInv(h, config, w) && Next(h, config, w, m, at).Ok? && Dormant(w.store, id)
    ensures
      var v := Next(h, config, w, m, at).value;
      Dormant(v.store, id) || (m.Resumes? && m.id == id && IsActive(v.store, id, m.session))
  {
    hide WorldInv, LifeInv, Next, ChangedBy, OpenedBy, Eligible;
    NextDone(h, config, w, m, at);
    var v := Next(h, config, w, m, at).value;
    assert LifeInv(h, config, w.store) by { StoreOf(h, config, w); }
    assert w.store.log[..|w.store.log|] == w.store.log;
    if v.store == w.store {
    } else if other, ch :| ChangedBy(w.store, w.leased, other, ch, LicenceOf(m), v.store) {
      DormantShift(h, config, w, m, at, id, other, ch, v);
    } else {
      var other, session :| OpenedBy(w.store, other, session, v.store);
      OpenedOther(w.store, other, session, v.store, id);
      LapsedForGood(h, config, w.store, id, v.store);
    }
  }

  lemma StoreOf(h: Hasher, config: Config, w: World)
    requires WorldInv(h, config, w)
    ensures LifeInv(h, config, w.store)
  {
  }

  lemma OpenedOther(st: Store, id: CaseId, session: Session, after: Store, other: CaseId)
    requires OpenedBy(st, id, session, after) && Exists(st, other)
    ensures Exists(after, other) && after.slots[other] == st.slots[other]
    ensures |st.log| <= |after.log| && after.log[..|st.log|] == st.log
  {
  }

  lemma ShiftedOther(st: Store, id: CaseId, ch: Change, after: Store, other: CaseId)
    requires Shifted(st, id, ch, after)
    ensures other != id && Exists(st, other) ==> Exists(after, other) && after.slots[other] == st.slots[other]
    ensures |st.log| <= |after.log| && after.log[..|st.log|] == st.log
  {
    hide NextNumber, Filled;
  }

  lemma DormantShift(h: Hasher, config: Config, w: World, m: Move, at: int, id: CaseId, changed: CaseId, ch: Change,
                     v: World)
    requires LifeInv(h, config, w.store) && WorldInv(h, config, w) && Dormant(w.store, id)
    requires Next(h, config, w, m, at) == Ok(v) && ChangedBy(w.store, w.leased, changed, ch, LicenceOf(m), v.store)
    ensures Dormant(v.store, id) || (m.Resumes? && m.id == id && IsActive(v.store, id, m.session))
  {
    hide LifeInv, WorldInv, Next, Eligible, Shifted;
    ShiftedOther(w.store, changed, ch, v.store, id);
    if changed != id {
      LapsedForGood(h, config, w.store, id, v.store);
    } else if ch.entry.CaseResumed? {
      ResumeLands(h, config, w, id, m, at);
    } else {
      assert ch.entry.OfferFailed?;
      SameSituation(h, config, w.store, id, ch, v.store);
      LapsedForGood(h, config, w.store, id, v.store);
    }
  }

  lemma SameSituation(h: Hasher, config: Config, st: Store, id: CaseId, ch: Change, after: Store)
    requires LifeInv(h, config, st) && Shifted(st, id, ch, after) && ch.state == StateOf(st, id)
    ensures Exists(after, id) && Situation(after, id) == Situation(st, id)
  {
    hide CaseInv, StoreInv, SingleActive, NextNumber;
    assert SlotOk(config, st.slots[id]);
  }

  /** An explicit resume makes the case active on the session it asks for. */
  lemma ResumeLands(h: Hasher, config: Config, w: World, id: CaseId, m: Move, at: int)
    requires WorldInv(h, config, w) && m.Resumes? && m.id == id && Next(h, config, w, m, at).Ok?
    ensures IsActive(Next(h, config, w, m, at).value.store, id, m.session)
  {
    hide LifeInv, Shifted, Write, Wrote, Outline, PlanResume;
    var v := Next(h, config, w, m, at).value;
    assert v == Resume(h, config, w, id, m.session, at).value;
    AttemptKeeps(h, config, 0, w.store, id, m.session, ResumeTo(m.session), at);
    ResumePlan(config, 0, m.session, StateOf(w.store, id), w.store.slots[id].events, m.session);
    var ch := Perform(config, 0, m.session, StateOf(w.store, id), w.store.slots[id].events, ResumeTo(m.session)).value;
    ShiftState(w.store, id, ch, v.store);
  }

  lemma ResumePlan(config: Config, now: int, session: Session, c: Case, events: seq<Event>, s: Session)
    ensures var p := Perform(config, now, session, c, events, ResumeTo(s));
            p.Some? ==> p.value.state.session == s != "" && p.value.state.status.Active?
  {
  }

  lemma ShiftState(st: Store, id: CaseId, ch: Change, after: Store)
    requires Shifted(st, id, ch, after)
    ensures Exists(after, id) && StateOf(after, id).status == ch.state.status
            && StateOf(after, id).session == ch.state.session
  {
    hide NextNumber, Filled;
  }

  /** Over a whole run: once a paused case has no marker that counts, nothing but
      its own explicit resume makes it anything else, whatever is opened, paused,
      resumed, migrated, compressed or adopted meanwhile. */
  lemma {:induction false} DormantUntilResumed(h: Hasher, config: Config, run: seq<World>, moves: seq<Move>,
                                               times: seq<int>,
                                               id: CaseId, i: nat, j: nat)
    requires IsRun(h, config, run, moves, times) && i <= j < |run|
    requires Dormant(run[i].store, id)
    requires forall k :: i <= k < j ==> Resumed(moves[k]) != Some(id)
    ensures Dormant(run[j].store, id)
    decreases j
  {
    hide WorldInv, Next, Dormant;
    if i < j {
      DormantUntilResumed(h, config, run, moves, times, id, i, j - 1);
      RunsKeepWorld(h, config, run, moves, times, j - 1);
      PathStep(h, config, run, moves, times, j);
      DormantStays(h, config, run[j - 1], moves[j - 1], times[j - 1], id);
    }
  }
}
