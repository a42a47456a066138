/** The store itself: the files of every case, the sequence cache beside them,
    and the operations that rewrite them one file at a time. */
module CaseStores {
  import opened Wrappers
  import opened Records
  import opened Timeline
  import opened Dispositions
  import opened Journal
  import opened Recovery
  import opened History

  /** Is the journal's own run of events a chain that continues the Timeline? */
  method ContinuesChain(h: Hasher, previous: seq<Event>, events: seq<Event>) returns (valid: bool)
    requires Chained(h, previous)
    ensures valid <==> Chained(h, previous + events)
  {
    var all := previous + events;
    var prevHash := if previous == [] then ZERO_HASH else previous[|previous| - 1].hash;
    forall j | 0 <= j < |previous| ensures Linked(h, all, j) {
      assert Linked(h, previous, j);
    }
    for i := 0 to |events|
      invariant forall j :: 0 <= j < |previous| + i ==> Linked(h, all, j)
      invariant prevHash == if |previous| + i == 0 then ZERO_HASH else all[|previous| + i - 1].hash
    {
      var event := events[i];
      assert all[|previous| + i] == event;
      if event.body.id != |previous| + i + 1 || event.body.prevHash != prevHash || event.hash != h.event(event.body) {
        assert !Linked(h, all, |previous| + i);
        return false;
      }
      prevHash := event.hash;
    }
    forall j | 0 <= j < |all| ensures Linked(h, all, j) {
    }
    return true;
  }

  /** Every check recovery makes before its first write, on any disk at all. */
  method CheckJournal(h: Hasher, id: CaseId, s: Slot) returns (ok: bool)
    requires s.journal.Some?
    ensures ok <==> Acceptable(h, id, s)
  {
    var j := s.journal.value;
    if j.events == [] || j.snapshot.state.id != id {
      return false;
    }
    var valid := VerifyChain(h, s.events);
    if !valid || First(j) < 0 || |s.events| < First(j) {
      return false;
    }
    var prefix := s.events[..First(j)];
    if s.file.Some? {
      if s.file.value.state.id != id || !(Binds(h, s.file.value, prefix) || Binds(h, s.file.value, s.events)) {
        return false;
      }
    }
    PrefixChained(h, s.events, First(j));
    valid := ContinuesChain(h, prefix, j.events);
    if !valid {
      return false;
    }
    var overlap := Overlap(s, j);
    if s.events[First(j)..][..overlap] != j.events[..overlap] || |s.events| > First(j) + |j.events| {
      return false;
    }
    return Binds(h, j.snapshot, j.events);
  }

  class CaseStore {
    const hasher: Hasher
    var slots: map<CaseId, Slot>
    var cache: CacheFile
    ghost var log: seq<Stamp>

    function Files(): Disk
      reads this
    {
      Disk(slots, cache)
    }

    /** The store as it will be once every pending journal is finished. */
    ghost function Committed(): Store
      reads this
    {
      Store(Recovery.Abstract(Files()), log)
    }

    /** What any crash leaves intact. */
    ghost predicate Sound()
      reads this
    {
      AllSound(hasher, Files()) && CacheBounded(Files()) && StoreInv(hasher, Committed())
    }

    /** Nothing is pending. */
    ghost predicate Quiet()
      reads this
    {
      Sound() && NoJournal(Files())
    }

    constructor (h: Hasher)
      ensures hasher == h && Quiet() && Committed() == Store(map[], [])
    {
      hasher := h;
      slots := map[];
      cache := Missing;
      log := [];
    }

    /** The marks, from the cache, or from all Timelines when the cache cannot be used. */
    method ReadMarks() returns (marks: map<Session, nat>)
      modifies this`cache
      ensures cache == Good(marks)
      ensures old(cache).Good? ==> cache == old(cache)
      ensures !old(cache).Good? ==> forall s :: HighWater(TimelinesOf(Files()), s, Mark(marks, s))
    {
      match cache {
        case Good(known) => marks := known;
        case _ =>
          marks := RebuildMarks(TimelinesOf(Files()));
          cache := Good(marks);
      }
    }

    /** Fold one journal's numbers into the cache. */
    method Reconcile(events: seq<Event>)
      modifies this`cache
      ensures Reconciled(Disk(slots, old(cache)), events, cache)
    {
      var deltas: map<Session, nat> := FoldEvents(map[], events);
      if forall s :: s in deltas ==> deltas[s] == 0 {
        assert forall s :: MaxNumber(events, s) == Mark(deltas, s) == 0;
        return;
      }
      var s :| s in deltas && deltas[s] != 0;
      assert MaxNumber(events, s) == Mark(deltas, s) != 0;
      var before := ReadMarks();
      var marks := RaiseMarks(before, deltas);
      if marks != before {
        cache := Good(marks);
      }
      RaisedReconciles(slots, old(cache), events, deltas, before, marks);
    }

    /** Finish one pending journal, write by write, or refuse it untouched. */
    method ApplyJournal(id: CaseId) returns (ok: bool)
      requires id in slots && slots[id].journal.Some?
      modifies this`slots, this`cache
      ensures ok <==> Acceptable(hasher, id, old(slots[id]))
      ensures !ok ==> slots == old(slots) && cache == old(cache)
      ensures ok ==> slots == old(slots)[id := Finished(old(slots[id]))]
      ensures ok ==> Reconciled(Disk(slots, old(cache)), old(slots[id]).journal.value.events, cache)
    {
      hide *;
      ok := CheckJournal(hasher, id, slots[id]);
      if !ok {
        return;
      }
      ghost var s := slots[id];
      Completed(hasher, id, s);
      if Overlap(slots[id], slots[id].journal.value) < |slots[id].journal.value.events| {
        slots := slots[id := WriteEvents(slots[id])];
      }
      assert slots == old(slots)[id := WriteEvents(s)];
      KeepJournal(s);
      slots := slots[id := WriteCase(slots[id])];
      slots := slots[id := WriteArchive(slots[id])];
      ghost var pending := WriteArchive(WriteCase(WriteEvents(s)));
      assert slots == old(slots)[id := pending];
      Reconcile(slots[id].journal.value.events);
      slots := slots[id := Unlink(slots[id])];
      assert slots == old(slots)[id := Unlink(pending)];
      WritesFinish(hasher, id, s);
      SameReconciled(old(slots), id, pending, Finished(s), old(cache), s.journal.value.events, cache);
    }

    /** Finish every pending journal. It runs at the start of every operation. */
    method Recover() returns (ok: bool)
      requires Sound()
      modifies this`slots, this`cache
      ensures ok && Quiet() && Committed() == old(Committed()) && slots == Committed().slots
    {
      hide AllSound, CacheBounded, StoreInv, Recovery.Abstract, Finished, Acceptable, Reconciled, Pending, NoJournal;
      var todo := Pending(Files());
      while todo != {}
        invariant Sound() && Committed() == old(Committed()) && todo == Pending(Files())
        decreases todo
      {
        ghost var before := Files();
        var id :| id in todo;
        AcceptsPending(hasher, before, id);
        ok := ApplyJournal(id);
        AppliedSound(hasher, before, id, cache);
        todo := todo - {id};
      }
      ok := true;
      NothingPending(Files());
    }

    /** The marks once nothing is pending: every session's true count, whatever
        has happened to the cache. */
    method Counts() returns (marks: map<Session, nat>)
      requires Quiet()
      modifies this`cache
      ensures Quiet() && Committed() == old(Committed())
      ensures forall s :: Mark(marks, s) == Count(log, s)
    {
      hide CacheBounded, AllSound, StoreInv, NoJournal, HighWater, Count, Mark;
      ghost var before := Files();
      marks := ReadMarks();
      CountsExact(hasher, before, log, marks);
      assert Recovery.Abstract(Files()) == Recovery.Abstract(before);
      assert NoJournal(Files()) by { hide *; SamePending(before, Files()); }
    }

    /** Number the dispositions among the requests, session by session. */
    method NumberRequests(requests: seq<Request>) returns (specs: seq<Spec>)
      requires Quiet()
      modifies this`cache
      ensures Quiet() && Committed() == old(Committed())
      ensures specs == Numbered(requests, Counter(log))
    {
      hide Quiet, Committed, Numbered, CountOf;
      specs := [];
      var issued: map<Session, nat> := map[];
      NumberedNothing(Counter(log));
      for i := 0 to |requests|
        invariant Quiet() && Committed() == old(Committed())
        invariant specs == Numbered(requests[..i], Counter(log))
        invariant forall s :: s in issued ==> issued[s] == Count(log, s) + CountOf(requests[..i], s)
        invariant forall s :: s !in issued ==> CountOf(requests[..i], s) == 0
      {
        var r := requests[i];
        NumberedNext(requests, i, Counter(log));
        if Counted(r) {
          if r.session !in issued {
            var marks := Counts();
            issued := issued[r.session := Mark(marks, r.session)];
          }
          issued := issued[r.session := issued[r.session] + 1];
          specs := specs + [Spec(r.entry, r.session, Some(issued[r.session]))];
        } else {
          specs := specs + [Spec(r.entry, r.session, None)];
        }
      }
      assert requests[..|requests|] == requests;
    }

    /** Journal one transition and apply it: the store takes all of it or, when it
        is refused, none of it. */
    method CommitTransaction(case_: Case, requests: seq<Request>, archive: bool, target: Target, at: int)
      returns (r: Result<Snapshot>)
      requires Quiet()
      modifies this
      ensures Quiet()
      ensures match Transact(hasher, old(Committed()), case_, requests, archive, target, at)
              case Err(e) => r == Err(e) && Committed() == old(Committed())
              case Ok(st) => Committed() == st && r.Ok? && case_.id in st.slots
                             && st.slots[case_.id].file == Some(r.value)
    {
      hide AllSound, CacheBounded, StoreInv, Recovery.Abstract, NoJournal, Compose, Transact, Finished, Acceptable,
           Reconciled;
      var id := case_.id;
      QuietSlots(Files());
      var s := if id in slots then slots[id] else EMPTY_SLOT;
      ghost var st := Committed();
      var composed := ComposeJournal(s, case_, requests, archive, target, at);
      TransactIs(hasher, st, case_, requests, archive, target, at);
      match composed {
        case Err(e) => return Err(e);
        case Ok(j) =>
          JournalSound(hasher, Files(), log, case_, requests, archive, target, at);
          slots := slots[id := s.(journal := Some(j))];
          log := log + Stamps(id, j.events);
          ghost var before := Files();
          AcceptsPending(hasher, before, id);
          var ok := ApplyJournal(id);
          AppliedSound(hasher, before, id, cache);
          NothingPending(Files());
          return Ok(j.snapshot);
      }
    }

    /** Everything up to the durable write of the journal. */
    method ComposeJournal(s: Slot, case_: Case, requests: seq<Request>, archive: bool, target: Target, at: int)
      returns (r: Result<Journal>)
      requires Quiet()
      modifies this`cache
      ensures Quiet() && Committed() == old(Committed())
      ensures r == Compose(hasher, s, Counter(log), case_, requests, archive, target, at)
    {
      hide Quiet, Committed, Counter, Numbered, Prepared, FillMarker, Aim, Chained, Binds;
      if s.file.Some? {
        var valid := VerifyChain(hasher, s.events);
        if !valid || !Binds(hasher, s.file.value, s.events) {
          return Err(IntegrityFailure);
        }
        if case_.revision != s.file.value.state.revision {
          return Err(StaleToken);
        }
      }
      if requests == [] {
        return Err(NothingToAppend);
      }
      var revised := case_.(revision := if s.file.Some? then s.file.value.state.revision + 1 else 1);
      var specs := NumberRequests(requests);
      var filled := Fill(revised, specs, |s.events|);
      match filled {
        case Err(e) => return Err(e);
        case Ok(marked) =>
          var last := |s.events| + |requests|;
          match Aim(marked, target, last) {
            case Err(e) => return Err(e);
            case Ok(aimed) =>
              var state := aimed.(lastEvent := last);
              var seal := hasher.state(state);
              var events := PrepareEvents(hasher, s.events, specs, at, seal);
              return Ok(Journal(Snapshot(state, seal), events, archive));
          }
      }
    }
  }

  /** Fill an empty marker, searching the transaction's events from the last. */
  method Fill(case_: Case, specs: seq<Spec>, previous: nat) returns (r: Result<Case>)
    ensures r == FillMarker(case_, specs, previous)
  {
    if case_.marker.None? || case_.marker.value.number.Some? {
      return Ok(case_);
    }
    var i := |specs|;
    assert specs[..i] == specs;
    while i > 0
      invariant 0 <= i <= |specs|
      invariant LastNumbered(specs, case_.session) == LastNumbered(specs[..i], case_.session)
    {
      i := i - 1;
      assert specs[..i + 1][..i] == specs[..i];
      if specs[i].number.Some? && specs[i].session == case_.session {
        var pause := if case_.marker.value.pauseEvent.Some? then case_.marker.value.pauseEvent
                     else Some(previous + i + 1);
        return Ok(case_.(marker := Some(Marker(specs[i].number, pause))));
      }
    }
    return Err(MarkerWithoutDisposition);
  }

  lemma TransactIs(h: Hasher, st: Store, case_: Case, requests: seq<Request>, archive: bool, target: Target, at: int)
    ensures Transact(h, st, case_, requests, archive, target, at) ==
            match Compose(h, SlotAt(st, case_.id), Counter(st.log), case_, requests, archive, target, at)
            case Err(e) => Err(e)
            case Ok(j) => Ok(Commit(st, case_.id, j))
  {
    hide Compose, Counter;
  }

  /** Once the journal is durable the transition is part of the store. */
  lemma JournalSound(h: Hasher, d: Disk, log: seq<Stamp>, case_: Case, requests: seq<Request>, archive: bool,
                     target: Target, at: int)
    requires AllSound(h, d) && CacheBounded(d) && NoJournal(d) && StoreInv(h, Store(d.slots, log))
    requires Compose(h, SlotAt(Store(d.slots, log), case_.id), Counter(log), case_, requests, archive, target, at).Ok?
    ensures
      var st := Store(d.slots, log);
      var s := SlotAt(st, case_.id);
      var j := Compose(h, s, Counter(log), case_, requests, archive, target, at).value;
      var e := d.(slots := d.slots[case_.id := s.(journal := Some(j))]);
      var after := Commit(st, case_.id, j);
      && AllSound(h, e) && CacheBounded(e)
      && Store(Recovery.Abstract(e), log + Stamps(case_.id, j.events)) == after && StoreInv(h, after)
      && case_.id in after.slots && after.slots[case_.id].file == Some(j.snapshot)
      && Pending(e) == {case_.id}
  {
    hide StoreInv, Compose, Counter, AllSound, CacheBounded, Finished, Recoverable, Recovery.Abstract;
    var st, id := Store(d.slots, log), case_.id;
    var s := SlotAt(st, id);
    var j := Compose(h, s, Counter(log), case_, requests, archive, target, at).value;
    SettledSlot(h, st, id);
    TransactIs(h, st, case_, requests, archive, target, at);
    TransactKeepsStore(h, st, case_, requests, archive, target, at);
    JournalCommits(h, id, s, Counter(log), case_, requests, archive, target, at);
    Composed(h, s, Counter(log), case_, requests, archive, target, at);
    NewJournal(h, d, id, j);
    assert Recovery.Abstract(d) == d.slots by { QuietSlots(d); }
  }

  lemma QuietSlots(d: Disk)
    requires NoJournal(d)
    ensures Recovery.Abstract(d) == d.slots
  {
  }

  lemma SettledSlot(h: Hasher, st: Store, id: CaseId)
    requires StoreInv(h, st)
    ensures Settled(h, id, SlotAt(st, id))
  {
  }

  lemma NumberedNothing(base: Session -> nat)
    ensures Numbered([], base) == [] && forall s :: CountOf([], s) == 0
  {
  }

  lemma NumberedNext(requests: seq<Request>, i: nat, base: Session -> nat)
    requires i < |requests|
    ensures var r := requests[i];
            && Numbered(requests[..i + 1], base) == Numbered(requests[..i], base)
               + [Spec(r.entry, r.session,
                       if Counted(r) then Some(base(r.session) + CountOf(requests[..i], r.session) + 1) else None)]
            && forall s ::
                 CountOf(requests[..i + 1], s)
                 == CountOf(requests[..i], s) + if Counted(r) && r.session == s then 1 else 0
  {
    assert requests[..i + 1][..i] == requests[..i];
  }

  /** The cases with a journal still to be finished. */
  function Pending(d: Disk): set<CaseId> {
    set id | id in d.slots && d.slots[id].journal.Some?
  }

  lemma AcceptsPending(h: Hasher, d: Disk, id: CaseId)
    requires AllSound(h, d) && id in Pending(d)
    ensures id in d.slots && d.slots[id].journal.Some? && Acceptable(h, id, d.slots[id])
  {
    assert Sound(h, id, d.slots[id]);
  }

  lemma NothingPending(d: Disk)
    requires Pending(d) == {}
    ensures NoJournal(d) && Recovery.Abstract(d) == d.slots
  {
    assert forall id :: id in d.slots && d.slots[id].journal.Some? ==> id in Pending(d);
  }

  lemma SamePending(d: Disk, e: Disk)
    requires d.slots == e.slots && NoJournal(d)
    ensures NoJournal(e)
  {
  }

  /** The five writes of one recovery, as steps of the crash machine. */
  lemma AppliedSound(h: Hasher, d: Disk, id: CaseId, cache: CacheFile)
    requires AllSound(h, d) && CacheBounded(d) && id in d.slots && d.slots[id].journal.Some?
    requires Reconciled(Disk(d.slots[id := Finished(d.slots[id])], d.cache), d.slots[id].journal.value.events, cache)
    ensures
      var e := Disk(d.slots[id := Finished(d.slots[id])], cache);
      AllSound(h, e) && CacheBounded(e) && Recovery.Abstract(e) == Recovery.Abstract(d)
        && Pending(e) == Pending(d) - {id}
  {
    hide Finished, Acceptable, CacheBounded, AllSound, Recovery.Abstract, Reconciled, Overlap;
    var s := d.slots[id];
    AcceptsPending(h, d, id);
    KeepJournal(s);
    WritesFinish(h, id, s);
    var a, b, c := WriteEvents(s), WriteCase(WriteEvents(s)), WriteArchive(WriteCase(WriteEvents(s)));
    var m0 := Machine(d, Applying(id, AtEvents));
    var m1 := Machine(d.(slots := d.slots[id := a]), Applying(id, AtCase));
    var m2 := Machine(d.(slots := d.slots[id := b]), Applying(id, AtArchive));
    var m3 := Machine(d.(slots := d.slots[id := c]), Applying(id, AtCache));
    var m4 := Machine(m3.disk.(cache := cache), Applying(id, AtUnlink));
    var m5 := Machine(m4.disk.(slots := d.slots[id := Unlink(c)]), Idle);
    SameReconciled(d.slots, id, Finished(s), c, d.cache, s.journal.value.events, cache);
    assert m1.disk.slots[id := b] == m2.disk.slots && m2.disk.slots[id := c] == m3.disk.slots;
    assert m4.disk.slots[id := Unlink(c)] == m5.disk.slots;
    WriteStepRefines(h, m0, m1);
    WriteStepRefines(h, m1, m2);
    WriteStepRefines(h, m2, m3);
    WriteStepRefines(h, m3, m4);
    WriteStepRefines(h, m4, m5);
  }

  lemma {:induction false} CountsExact(h: Hasher, d: Disk, log: seq<Stamp>, marks: map<Session, nat>)
    requires AllSound(h, d) && CacheBounded(d) && NoJournal(d) && StoreInv(h, Store(Recovery.Abstract(d), log))
    requires if d.cache.Good? then marks == d.cache.marks else forall s :: HighWater(TimelinesOf(d), s, Mark(marks, s))
    ensures forall s :: Mark(marks, s) == Count(log, s)
    ensures AllSound(h, d.(cache := Good(marks))) && CacheBounded(d.(cache := Good(marks)))
  {
    var st, e := Store(Recovery.Abstract(d), log), d.(cache := Good(marks));
    assert Recovery.Abstract(d) == d.slots;
    assert Timelines(st) == TimelinesOf(d) == TimelinesOf(e);
    hide StoreInv, HighWater, AllSound, NoJournal, CacheBounded, Count;
    forall s ensures Mark(marks, s) == Count(log, s) && HighWater(TimelinesOf(e), s, Mark(marks, s)) {
      if d.cache.Good? {
        CacheExact(h, d, s);
      }
      TrueCount(h, st, s);
      HighWaterUnique(Timelines(st), s, Mark(marks, s), Count(log, s));
    }
    ExactBounded(h, e);
  }

  lemma {:induction false} TrueCount(h: Hasher, st: Store, s: Session)
    requires StoreInv(h, st)
    ensures HighWater(Timelines(st), s, Count(st.log, s))
  {
    CountIsHighWater(st, s);
  }

  lemma ExactBounded(h: Hasher, d: Disk)
    requires AllSound(h, d) && d.cache.Good? && forall s :: HighWater(TimelinesOf(d), s, Mark(d.cache.marks, s))
    ensures CacheBounded(d)
  {
    forall s
      ensures Covers(BaseTimelines(d), s, Mark(d.cache.marks, s))
              && Attains(AbstractTimelines(d), s, Mark(d.cache.marks, s))
    {
      PhysicalBetween(h, d, s, Mark(d.cache.marks, s));
    }
  }

  /** Raise every mark that a later number exceeds. */
  method RaiseMarks(before: map<Session, nat>, deltas: map<Session, nat>) returns (marks: map<Session, nat>)
    ensures forall s :: Mark(marks, s) == Max(Mark(before, s), Mark(deltas, s))
  {
    marks := before;
    var todo := deltas.Keys;
    while todo != {}
      invariant todo <= deltas.Keys
      invariant forall s :: Mark(marks, s) == if s in todo then Mark(before, s)
                                              else Max(Mark(before, s), Mark(deltas, s))
      decreases todo
    {
      var s :| s in todo;
      if deltas[s] > Mark(marks, s) {
        marks := marks[s := deltas[s]];
      }
      todo := todo - {s};
    }
  }

  lemma {:induction false} RaisedReconciles(slots: map<CaseId, Slot>, cache: CacheFile, events: seq<Event>,
                                            deltas: map<Session, nat>,
                         before: map<Session, nat>, marks: map<Session, nat>)
    requires forall s :: Mark(deltas, s) == MaxNumber(events, s)
    requires exists s :: Mark(deltas, s) != 0
    requires if cache.Good? then before == cache.marks
             else forall s :: HighWater(TimelinesOf(Disk(slots, cache)), s, Mark(before, s))
    requires forall s :: Mark(marks, s) == Max(Mark(before, s), Mark(deltas, s))
    ensures Reconciled(Disk(slots, cache), events, Good(marks))
  {
    hide MaxNumber, HighWater;
    var d := Disk(slots, cache);
    var some :| Mark(deltas, some) != 0;
    assert MaxNumber(events, some) != 0;
    forall s ensures Raised(d, s, MaxNumber(events, s), Mark(marks, s)) {
      assert Mark(deltas, s) == MaxNumber(events, s);
      assert cache.Good? || HighWater(TimelinesOf(d), s, Mark(before, s));
    }
  }

  /** Only the Timelines and the old cache matter to a reconciliation. */
  lemma SameReconciled(slots: map<CaseId, Slot>, id: CaseId, s: Slot, t: Slot, before: CacheFile, events: seq<Event>,
                       after: CacheFile)
    requires Reconciled(Disk(slots[id := s], before), events, after) && s.events == t.events
    ensures Reconciled(Disk(slots[id := t], before), events, after)
  {
    var d, e := Disk(slots[id := s], before), Disk(slots[id := t], before);
    assert TimelinesOf(d) == TimelinesOf(e);
    forall s | Raised(d, s, MaxNumber(events, s), Base(after)(s))
      ensures Raised(e, s, MaxNumber(events, s), Base(after)(s))
    {
    }
  }

  lemma WritesFinish(h: Hasher, id: CaseId, s: Slot)
    requires Acceptable(h, id, s)
    ensures Unlink(WriteArchive(WriteCase(WriteEvents(s)))) == Finished(s)
    ensures WriteArchive(WriteCase(WriteEvents(s))).events == Finished(s).events
  {
    Completed(h, id, s);
    hide Acceptable, Overlap;
    assert First(s.journal.value) >= 0 && |s.events| >= First(s.journal.value) by { Fits(h, id, s); }
  }

  lemma Fits(h: Hasher, id: CaseId, s: Slot)
    requires Acceptable(h, id, s)
    ensures 0 <= First(s.journal.value) <= |s.events|
  {
  }

  /** With the missing events appended the Timeline is the journal's prefix and
      then all of its events, whatever part of them was there already. */
  lemma Completed(h: Hasher, id: CaseId, s: Slot)
    requires Acceptable(h, id, s)
    ensures WriteEvents(s).events == s.events[..First(s.journal.value)] + s.journal.value.events
    ensures Overlap(s, s.journal.value) <= |s.journal.value.events|
    ensures Overlap(s, s.journal.value) == |s.journal.value.events| ==> WriteEvents(s) == s
  {
    var j := s.journal.value;
    var n := Overlap(s, j);
    assert s.events == s.events[..First(j)] + s.events[First(j)..];
    assert s.events[First(j)..][..n] == s.events[First(j)..];
    assert j.events == j.events[..n] + j.events[n..];
  }
}
