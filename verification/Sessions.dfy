/** Sessions and the cases bound to them: who is active, whose pause marker still
    counts, and what one committed change does to both. */
module Sessions {
  import opened Wrappers
  import opened Records
  import opened Dispositions
  import opened Journal
  import opened History
  import opened Transactions
  import opened Consultation
  import opened Harness
  import opened Invariants
  import opened Past

  predicate IsActive(st: Store, id: CaseId, s: Session) {
    s != "" && Exists(st, id) && StateOf(st, id).status.Active? && StateOf(st, id).session == s
  }

  /** No other case is active on the session. */
  ghost predicate Free(st: Store, s: Session, id: CaseId) {
    forall other :: IsActive(st, other, s) ==> other == id
  }

  ghost predicate Vacant(st: Store, s: Session) {
    forall other :: !IsActive(st, other, s)
  }

  /** The marker of a paused case still counts: nothing has been disposed of on
      its session since. */
  predicate Eligible(st: Store, id: CaseId, s: Session) {
    && s != "" && Exists(st, id)
    && var c := StateOf(st, id);
    c.status.Paused? && c.session == s && c.marker.Some? && c.marker.value.number == Some(Count(st.log, s))
      && Count(st.log, s) >= 1
  }

  // -------------------------------------------------------------- invariants

  /** The disposition that set a marker. */
  predicate SetsMarker(e: Event, s: Session, number: nat) {
    (e.body.entry.CasePaused? || e.body.entry.SessionMigrated?) && NumberOf(e, s) == number >= 1
  }

  /** Only a paused case carries a marker, and its number is that of a pause or
      migration of its own, on its own session. */
  ghost predicate MarkerOk(s: Slot)
    requires s.file.Some?
  {
    var c := s.file.value.state;
    c.marker.Some? ==>
      && c.status.Paused? && c.marker.value.number.Some? && c.marker.value.pauseEvent.Some?
      && exists i :: 0 <= i < |s.events| && SetsMarker(s.events[i], c.session, c.marker.value.number.value)
  }

  ghost predicate SlotOk(config: Config, s: Slot) {
    s.file.Some? ==> CaseInv(config, s) && PastOk(s) && MarkerOk(s) && s.file.value.state.session != ""
  }

  ghost predicate SingleActive(st: Store) {
    forall a, b, s :: IsActive(st, a, s) && IsActive(st, b, s) ==> a == b
  }

  ghost predicate AllSlots(config: Config, st: Store) {
    forall id :: id in st.slots ==> SlotOk(config, st.slots[id])
  }

  ghost predicate LifeInv(h: Hasher, config: Config, st: Store) {
    StoreInv(h, st) && AllSlots(config, st) && SingleActive(st)
  }

  // ------------------------------------------------------- one change, landed

  lemma Allowed(st: Store, id: CaseId, ch: Change)
    requires Exists(st, id) && StateOf(st, id).id == id && StateOf(st, id).session != "" && MarkerOk(st.slots[id])
    requires Outline(StateOf(st, id), ch)
    ensures Writable(st, ch.state, ch.entry, ch.target) && ch.state.id == id && ch.state.session != ""
  {
  }

  lemma WroteLands(h: Hasher, st: Store, id: CaseId, ch: Change, at: int, after: Store)
    requires ch.state.id == id && Wrote(h, st, ch.state, ch.entry, ch.archive, ch.target, at, after)
    ensures Exists(st, id) && Exists(after, id)
    ensures Lands(st.slots[id], ch, NextNumber(st, ch.state, ch.entry), after.slots[id])
  {
    hide Landed, Count;
  }

  /** The store after the change, seen from the lifecycle. */
  ghost predicate Shifted(st: Store, id: CaseId, ch: Change, after: Store) {
    && Exists(st, id) && Exists(after, id)
    && after.slots == st.slots[id := after.slots[id]]
    && var s, t, n := st.slots[id], after.slots[id], NextNumber(st, ch.state, ch.entry);
    && |t.events| == |s.events| + 1 && t.events[..|s.events|] == s.events
    && after.log == st.log + [Stamp(id, t.events[|s.events|])]
    && t.events[|s.events|].body.entry == ch.entry && t.events[|s.events|].body.session == ch.state.session
    && t.events[|s.events|].body.number == n
    && var c := StateOf(after, id);
       c.revision == ch.state.revision + 1 && c.probe == AimedProbe(ch.state.probe, ch.target, |t.events|)
       && c.status == ch.state.status && c.session == ch.state.session
         && c.marker == Filled(ch.state.marker, n, |t.events|)
  }

  lemma WroteShifts(h: Hasher, st: Store, id: CaseId, ch: Change, at: int, after: Store)
    requires ch.state.id == id && Wrote(h, st, ch.state, ch.entry, ch.archive, ch.target, at, after)
    ensures Shifted(st, id, ch, after)
  {
    hide Count, NextNumber, Filled;
    assert after.slots[id].events[..|st.slots[id].events|] == st.slots[id].events;
  }

  lemma ShiftGrows(st: Store, id: CaseId, ch: Change, after: Store, other: CaseId)
    requires Shifted(st, id, ch, after) && Exists(st, other)
    ensures Exists(after, other) && st.slots[other].events <= after.slots[other].events
  {
    hide NextNumber, Filled;
  }

  lemma ShiftMarker(st: Store, id: CaseId, ch: Change, after: Store)
    requires Shifted(st, id, ch, after) && MarkerOk(st.slots[id]) && StateOf(st, id).session != ""
    requires Outline(StateOf(st, id), ch)
    ensures MarkerOk(after.slots[id]) && StateOf(after, id).session != ""
  {
    hide Count;
    var c, d, s, t := StateOf(st, id), StateOf(after, id), st.slots[id], after.slots[id];
    if d.marker.Some? {
      if d.marker == c.marker {
        var i :| 0 <= i < |s.events| && SetsMarker(s.events[i], c.session, c.marker.value.number.value);
        assert t.events[i] == s.events[i];
      } else {
        assert SetsMarker(t.events[|s.events|], d.session, d.marker.value.number.value);
      }
    }
  }

  lemma ShiftActive(st: Store, id: CaseId, ch: Change, after: Store, s: Session, other: CaseId)
    requires Shifted(st, id, ch, after) && Outline(StateOf(st, id), ch)
    ensures other != id ==> (IsActive(after, other, s) <==> IsActive(st, other, s))
    ensures IsActive(after, id, s) ==> ch.state.status.Active? && ch.state.session == s
  {
  }

  lemma ShiftSingle(st: Store, id: CaseId, ch: Change, after: Store)
    requires Shifted(st, id, ch, after) && Outline(StateOf(st, id), ch) && SingleActive(st)
    requires ch.state.status.Active? ==> Free(st, ch.state.session, id)
    ensures SingleActive(after)
  {
    hide Shifted, Outline, IsActive;
    forall a, b, s | IsActive(after, a, s) && IsActive(after, b, s) ensures a == b {
      ShiftActive(st, id, ch, after, s, a);
      ShiftActive(st, id, ch, after, s, b);
    }
  }

  /** Every change that fits is accepted by the store and keeps everything, as
      long as it does not make the case active on a session another case holds. */
  lemma Acts(h: Hasher, config: Config, st: Store, id: CaseId, ch: Change, at: int)
    requires LifeInv(h, config, st) && Exists(st, id)
    requires Fits(config, StateOf(st, id), st.slots[id].events, ch)
    requires ch.state.status.Active? ==> Free(st, ch.state.session, id)
    ensures
      var r := Write(h, st, ch.state, ch.entry, ch.archive, ch.target, at);
      && r.Ok? && Wrote(h, st, ch.state, ch.entry, ch.archive, ch.target, at, r.value)
      && Shifted(st, id, ch, r.value)
      && LifeInv(h, config, r.value)
  {
    hide Fits, Outline, CaseInv, PastOk, MarkerOk, Write, Wrote, Shifted, SingleActive, StoreInv, Free, Writable, Lands;
    var r := Write(h, st, ch.state, ch.entry, ch.archive, ch.target, at);
    assert StateOf(st, id).id == id && AllSettled(h, st) by { Identity(h, st, id); }
    FitsOutline(config, StateOf(st, id), st.slots[id].events, ch);
    Allowed(st, id, ch);
    WriteSucceeds(h, st, ch.state, ch.entry, ch.archive, ch.target, at);
    WroteLands(h, st, id, ch, at, r.value);
    WroteShifts(h, st, id, ch, at, r.value);
    KeepsCase(config, st.slots[id], ch, NextNumber(st, ch.state, ch.entry), r.value.slots[id]);
    KeepsPast(config, st.slots[id], ch, NextNumber(st, ch.state, ch.entry), r.value.slots[id]);
    ShiftMarker(st, id, ch, r.value);
    ShiftSingle(st, id, ch, r.value);
    WriteKeepsStore(h, st, ch, at);
    ShiftSlots(config, st, id, ch, r.value);
  }

  lemma Identity(h: Hasher, st: Store, id: CaseId)
    requires StoreInv(h, st) && Exists(st, id)
    ensures StateOf(st, id).id == id && AllSettled(h, st)
  {
    assert Settled(h, id, st.slots[id]);
  }

  lemma WriteKeepsStore(h: Hasher, st: Store, ch: Change, at: int)
    requires StoreInv(h, st)
    requires Write(h, st, ch.state, ch.entry, ch.archive, ch.target, at).Ok?
    ensures StoreInv(h, Write(h, st, ch.state, ch.entry, ch.archive, ch.target, at).value)
  {
    hide Transact, StoreInv;
    TransactKeepsStore(h, st, ch.state, [Request(ch.entry, ch.state.session)], ch.archive, ch.target, at);
  }

  lemma ShiftSlots(config: Config, st: Store, id: CaseId, ch: Change, after: Store)
    requires Shifted(st, id, ch, after) && AllSlots(config, st) && SlotOk(config, after.slots[id])
    ensures AllSlots(config, after)
  {
    hide SlotOk;
  }
}
