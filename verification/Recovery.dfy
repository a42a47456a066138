/** The store's disk under crashes. One machine step is one durable write, one
    check, a crash, or damage to the sequence cache; any of them can come next. */
module Recovery {
  import opened Wrappers
  import opened Records
  import opened Dispositions
  import opened Journal

  /** sessions.json: gone, unreadable, or a table of marks. */
  datatype CacheFile = Missing | Malformed | Good(marks: map<Session, nat>)

  datatype Disk = Disk(slots: map<CaseId, Slot>, cache: CacheFile)

  /** What the process that holds the store lock is doing; a crash forgets it. */
  datatype Phase = Idle | Checking(id: CaseId) | Applying(id: CaseId, stage: Stage) | Refused

  datatype Machine = Machine(disk: Disk, phase: Phase)

  datatype Action =
    | Begin(id: CaseId, state: Case, requests: seq<Request>, archive: bool, target: Target, at: int)
    | StartRecovery(id: CaseId)
    | Check
    | Write
    | Crash
    | LoseCache
    | SpoilCache
    | RebuildCache

  function SlotOf(d: Disk, id: CaseId): Slot {
    if id in d.slots then d.slots[id] else EMPTY_SLOT
  }

  ghost predicate NoJournal(d: Disk) {
    forall id :: id in d.slots ==> d.slots[id].journal.None?
  }

  function TimelinesOf(d: Disk): map<CaseId, seq<Event>> {
    map id | id in d.slots :: d.slots[id].events
  }

  /** The Timelines without the events of journals still pending. */
  function BaseTimelines(d: Disk): map<CaseId, seq<Event>> {
    map id | id in d.slots :: BaseEvents(d.slots[id])
  }

  function BaseEvents(s: Slot): seq<Event> {
    if s.journal.Some? && 0 <= First(s.journal.value) <= |s.events| then s.events[..First(s.journal.value)]
    else s.events
  }

  /** The abstract store: every directory as an uninterrupted recovery leaves it. */
  function Abstract(d: Disk): map<CaseId, Slot> {
    map id | id in d.slots :: Finished(d.slots[id])
  }

  function AbstractTimelines(d: Disk): map<CaseId, seq<Event>> {
    map id | id in d.slots :: Finished(d.slots[id]).events
  }

  function Base(cache: CacheFile): Session -> nat {
    s => if cache.Good? then Mark(cache.marks, s) else 0
  }

  // ------------------------------------------------------------------ steps

  /** The journal's numbers folded into the cache: nothing is read when it holds
      none, and an unusable cache is first re-derived from the Timelines. */
  ghost predicate Reconciled(d: Disk, events: seq<Event>, cache: CacheFile) {
    if forall s :: MaxNumber(events, s) == 0 then cache == d.cache
    else
      && cache.Good?
      && forall s :: Raised(d, s, MaxNumber(events, s), Mark(cache.marks, s))
  }

  /** A mark raised to the journal's own number, from the cached one or from the
      one the Timelines show. */
  ghost predicate Raised(d: Disk, s: Session, own: nat, mark: nat) {
    if d.cache.Good? then mark == Max(Mark(d.cache.marks, s), own)
    else exists n: nat :: HighWater(TimelinesOf(d), s, n) && mark == Max(n, own)
  }

  ghost predicate WriteStep(m: Machine, n: Machine) {
    && m.phase.Applying? && m.phase.id in m.disk.slots && m.disk.slots[m.phase.id].journal.Some?
    && var d, id, s := m.disk, m.phase.id, m.disk.slots[m.phase.id];
    match m.phase.stage
    case AtEvents => n == Machine(d.(slots := d.slots[id := WriteEvents(s)]), Applying(id, AtCase))
    case AtCase => n == Machine(d.(slots := d.slots[id := WriteCase(s)]), Applying(id, AtArchive))
    case AtArchive => n == Machine(d.(slots := d.slots[id := WriteArchive(s)]), Applying(id, AtCache))
    case AtCache =>
      && n.disk.slots == d.slots && n.phase == Applying(id, AtUnlink)
      && Reconciled(d, s.journal.value.events, n.disk.cache)
    case AtUnlink => n == Machine(d.(slots := d.slots[id := Unlink(s)]), Idle)
  }

  ghost predicate BeginStep(h: Hasher, m: Machine, a: Action, n: Machine)
    requires a.Begin?
  {
    && m.phase.Idle? && NoJournal(m.disk) && a.state.id == a.id
    && (m.disk.cache.Good? || forall r :: r in a.requests ==> !Counted(r))
    && var s := SlotOf(m.disk, a.id);
    var composed := Compose(h, s, Base(m.disk.cache), a.state, a.requests, a.archive, a.target, a.at);
    && composed.Ok?
    && n == Machine(m.disk.(slots := m.disk.slots[a.id := s.(journal := Some(composed.value))]), Checking(a.id))
  }

  ghost predicate Micro(h: Hasher, m: Machine, a: Action, n: Machine) {
    match a
    case Begin(_, _, _, _, _, _) => BeginStep(h, m, a, n)
    case StartRecovery(id) =>
      m.phase.Idle? && id in m.disk.slots && m.disk.slots[id].journal.Some? && n == m.(phase := Checking(id))
    case Check =>
      && m.phase.Checking? && m.phase.id in m.disk.slots
      && n == m.(phase := if Acceptable(h, m.phase.id, m.disk.slots[m.phase.id]) then Applying(m.phase.id, AtEvents)
                          else Refused)
    case Write => WriteStep(m, n)
    case Crash => n == m.(phase := Idle)
    case LoseCache => n == m.(disk := m.disk.(cache := Missing))
    case SpoilCache => n == m.(disk := m.disk.(cache := Malformed))
    case RebuildCache =>
      && m.phase.Idle? && NoJournal(m.disk) && !m.disk.cache.Good? && n.disk.cache.Good?
      && n == m.(disk := m.disk.(cache := n.disk.cache))
      && forall s :: HighWater(TimelinesOf(m.disk), s, Mark(n.disk.cache.marks, s))
  }

  // -------------------------------------------------------------- invariant

  ghost predicate AllSound(h: Hasher, d: Disk) {
    forall id :: id in d.slots ==> Sound(h, id, d.slots[id])
  }

  /** A usable cache is never behind the settled Timelines and never ahead of
      what the pending journals will make of them. */
  ghost predicate CacheBounded(d: Disk) {
    d.cache.Good? ==> forall s :: Covers(BaseTimelines(d), s, Mark(d.cache.marks, s))
                               && Attains(AbstractTimelines(d), s, Mark(d.cache.marks, s))
  }

  ghost predicate PhaseOk(h: Hasher, m: Machine) {
    match m.phase
    case Idle => true
    case Refused => false
    case Checking(id) => id in m.disk.slots && m.disk.slots[id].journal.Some?
    case Applying(id, stage) =>
      && id in m.disk.slots && m.disk.slots[id].journal.Some?
      && Reached(m.disk.slots[id], stage)
      && (stage.AtUnlink? && m.disk.cache.Good? ==>
            forall s :: MaxNumber(m.disk.slots[id].journal.value.events, s) <= Mark(m.disk.cache.marks, s))
  }

  ghost predicate Inv(h: Hasher, m: Machine) {
    AllSound(h, m.disk) && CacheBounded(m.disk) && PhaseOk(h, m)
  }

  // ------------------------------------------------- single steps stutter

  /** Every write of a recovery leaves the abstract store as it was. */
  lemma SlotWriteStutters(h: Hasher, id: CaseId, s: Slot, stage: Stage)
    requires Recoverable(h, id, s) && Reached(s, stage) && !stage.AtCache?
    ensures stage.AtEvents? ==>
              Recoverable(h, id, WriteEvents(s)) && Finished(WriteEvents(s)) == Finished(s)
                && Reached(WriteEvents(s), AtCase)
    ensures stage.AtCase? ==>
              Recoverable(h, id, WriteCase(s)) && Finished(WriteCase(s)) == Finished(s)
                && Reached(WriteCase(s), AtArchive)
    ensures stage.AtArchive? ==>
              Recoverable(h, id, WriteArchive(s)) && Finished(WriteArchive(s)) == Finished(s)
                && Reached(WriteArchive(s), AtCache)
    ensures stage.AtUnlink? ==> Settled(h, id, Unlink(s)) && Unlink(s) == Finished(s) == Finished(Unlink(s))
  {
    match stage
    case AtEvents => WriteEventsStutters(h, id, s);
    case AtCase => WriteCaseStutters(h, id, s);
    case AtArchive => WriteArchiveStutters(h, id, s);
    case AtUnlink => UnlinkSettles(h, id, s);
  }

  lemma AllSoundUpdate(h: Hasher, d: Disk, id: CaseId, s: Slot)
    requires AllSound(h, d) && Sound(h, id, s)
    ensures AllSound(h, d.(slots := d.slots[id := s]))
  {
  }

  lemma AbstractUpdate(d: Disk, id: CaseId, s: Slot)
    ensures var e := d.(slots := d.slots[id := s]);
            && Abstract(e) == Abstract(d)[id := Finished(s)]
            && AbstractTimelines(e) == AbstractTimelines(d)[id := Finished(s).events]
            && BaseTimelines(e) == BaseTimelines(d)[id := BaseEvents(s)]
  {
    hide Finished, BaseEvents;
  }

  /** The bounds depend on the cache and on the two families of Timelines only. */
  lemma SameBounds(d: Disk, e: Disk)
    requires CacheBounded(d) && e.cache == d.cache
    requires BaseTimelines(e) == BaseTimelines(d) && AbstractTimelines(e) == AbstractTimelines(d)
    ensures CacheBounded(e)
  {
  }

  /** Replacing a slot by one with the same future and the same settled events. */
  lemma ReplacingSlot(h: Hasher, d: Disk, id: CaseId, s: Slot)
    requires AllSound(h, d) && CacheBounded(d) && id in d.slots
    requires Sound(h, id, s) && Finished(s) == Finished(d.slots[id]) && BaseEvents(s) == BaseEvents(d.slots[id])
    ensures
      var e := d.(slots := d.slots[id := s]);
      AllSound(h, e) && CacheBounded(e) && Abstract(e) == Abstract(d)
  {
    hide Finished, BaseEvents, Sound, CacheBounded;
    AllSoundUpdate(h, d, id, s);
    AbstractUpdate(d, id, s);
    assert Abstract(d)[id := Finished(s)] == Abstract(d);
    assert AbstractTimelines(d)[id := Finished(s).events] == AbstractTimelines(d);
    assert BaseTimelines(d)[id := BaseEvents(s)] == BaseTimelines(d);
    SameBounds(d, d.(slots := d.slots[id := s]));
  }

  lemma FileWrite(h: Hasher, m: Machine, n: Machine)
    requires Inv(h, m) && WriteStep(m, n)
    requires m.phase.stage.AtEvents? || m.phase.stage.AtCase? || m.phase.stage.AtArchive?
    ensures Inv(h, n) && Abstract(n.disk) == Abstract(m.disk)
  {
    var d, id := m.disk, m.phase.id;
    var s, t := d.slots[id], n.disk.slots[id];
    SlotWriteStutters(h, id, s, m.phase.stage);
    assert BaseEvents(t) == BaseEvents(s);
    ReplacingSlot(h, d, id, t);
    assert d.slots[id := t] == n.disk.slots;
  }

  /** A pending journal's highest number is one the abstract Timelines attain. */
  lemma {:induction false} JournalAttained(h: Hasher, d: Disk, id: CaseId, s: Session)
    requires id in d.slots && Acceptable(h, id, d.slots[id])
    ensures Attains(AbstractTimelines(d), s, MaxNumber(d.slots[id].journal.value.events, s))
  {
    var j := d.slots[id].journal.value;
    MaxNumberBounds(j.events, s);
    var k := MaxNumber(j.events, s);
    if k > 0 {
      var i :| 0 <= i < |j.events| && NumberOf(j.events[i], s) == k;
      assert Finished(d.slots[id]).events[First(j) + i] == j.events[i];
      assert NumberOf(AbstractTimelines(d)[id][First(j) + i], s) == k;
    }
  }

  /** Where folding a journal's numbers into the cache leaves a session's mark. */
  lemma {:induction false} ReconciledMark(h: Hasher, d: Disk, id: CaseId, cache: CacheFile, s: Session)
    requires AllSound(h, d) && CacheBounded(d) && id in d.slots && d.slots[id].journal.Some?
    requires Reconciled(d, d.slots[id].journal.value.events, cache) && cache.Good?
    ensures Covers(BaseTimelines(d), s, Mark(cache.marks, s))
    ensures Attains(AbstractTimelines(d), s, Mark(cache.marks, s))
    ensures MaxNumber(d.slots[id].journal.value.events, s) <= Mark(cache.marks, s)
  {
    var events := d.slots[id].journal.value.events;
    JournalAttained(h, d, id, s);
    assert (forall t :: MaxNumber(events, t) == 0) || Raised(d, s, MaxNumber(events, s), Mark(cache.marks, s));
    if forall t :: MaxNumber(events, t) == 0 {
    } else if d.cache.Good? {
      RaisedMark(BaseTimelines(d), AbstractTimelines(d), s, Mark(d.cache.marks, s), MaxNumber(events, s));
    } else {
      var k: nat :| HighWater(TimelinesOf(d), s, k) && Mark(cache.marks, s) == Max(k, MaxNumber(events, s));
      PhysicalBetween(h, d, s, k);
      RaisedMark(BaseTimelines(d), AbstractTimelines(d), s, k, MaxNumber(events, s));
    }
  }

  lemma RaisedMark(base: map<CaseId, seq<Event>>, final: map<CaseId, seq<Event>>, s: Session, m: nat, k: nat)
    requires Covers(base, s, m) && Attains(final, s, m) && Attains(final, s, k)
    ensures Covers(base, s, Max(m, k)) && Attains(final, s, Max(m, k))
  {
  }

  lemma CacheWrite(h: Hasher, m: Machine, n: Machine)
    requires Inv(h, m) && WriteStep(m, n) && m.phase.stage.AtCache?
    ensures Inv(h, n) && Abstract(n.disk) == Abstract(m.disk)
  {
    var d, e, id := m.disk, n.disk, m.phase.id;
    assert e == d.(cache := e.cache);
    assert BaseTimelines(e) == BaseTimelines(d) && AbstractTimelines(e) == AbstractTimelines(d);
    if e.cache.Good? {
      forall s
        ensures Covers(BaseTimelines(e), s, Mark(e.cache.marks, s))
                && Attains(AbstractTimelines(e), s, Mark(e.cache.marks, s))
        ensures MaxNumber(d.slots[id].journal.value.events, s) <= Mark(e.cache.marks, s)
      {
        ReconciledMark(h, d, id, e.cache, s);
      }
    }
  }

  /** The Timelines as they lie on disk are between the settled and the final ones. */
  lemma PhysicalBetween(h: Hasher, d: Disk, s: Session, k: nat)
    requires AllSound(h, d) && HighWater(TimelinesOf(d), s, k)
    ensures Covers(BaseTimelines(d), s, k) && Attains(AbstractTimelines(d), s, k)
  {
    var physical, base, final := TimelinesOf(d), BaseTimelines(d), AbstractTimelines(d);
    forall c, i | c in base && 0 <= i < |base[c]| ensures NumberOf(base[c][i], s) <= k {
      assert base[c][i] == physical[c][i];
    }
    if k > 0 {
      var c, i :| c in physical && 0 <= i < |physical[c]| && NumberOf(physical[c][i], s) == k;
      OnDiskIsFinal(h, c, d.slots[c], i);
      assert final[c][i] == physical[c][i];
    }
  }

  lemma OnDiskIsFinal(h: Hasher, id: CaseId, s: Slot, i: nat)
    requires Sound(h, id, s) && i < |s.events|
    ensures i < |Finished(s).events| && Finished(s).events[i] == s.events[i]
  {
    if s.journal.Some? {
      var j := s.journal.value;
      if Overlap(s, j) == |j.events| {
        FullTimeline(h, id, s);
      } else {
        assert |s.events| == First(j);
      }
    }
  }

  /** The final Timeline of a slot is covered by a mark that covers its settled
      part and its journal. */
  lemma {:induction false} FinishedCovered(h: Hasher, id: CaseId, s: Slot, t: Session, n: nat)
    requires Acceptable(h, id, s)
    requires forall i :: 0 <= i < |BaseEvents(s)| ==> NumberOf(BaseEvents(s)[i], t) <= n
    requires MaxNumber(s.journal.value.events, t) <= n
    ensures forall i :: 0 <= i < |Finished(s).events| ==> NumberOf(Finished(s).events[i], t) <= n
  {
    var j := s.journal.value;
    MaxNumberBounds(j.events, t);
    forall i | 0 <= i < |Finished(s).events| ensures NumberOf(Finished(s).events[i], t) <= n {
      if i < |BaseEvents(s)| {
        assert Finished(s).events[i] == BaseEvents(s)[i];
      } else {
        assert Finished(s).events[i] == j.events[i - First(j)];
      }
    }
  }

  lemma CoversUpdate(timelines: map<CaseId, seq<Event>>, s: Session, n: nat, id: CaseId, events: seq<Event>)
    requires Covers(timelines, s, n)
    requires forall i :: 0 <= i < |events| ==> NumberOf(events[i], s) <= n
    ensures Covers(timelines[id := events], s, n)
  {
  }

  lemma UnlinkWrite(h: Hasher, m: Machine, n: Machine)
    requires Inv(h, m) && WriteStep(m, n) && m.phase.stage.AtUnlink?
    ensures Inv(h, n) && Abstract(n.disk) == Abstract(m.disk)
  {
    var d, id := m.disk, m.phase.id;
    var s := d.slots[id];
    SlotWriteStutters(h, id, s, AtUnlink);
    UnlinkKeepsBounds(h, d, id, Unlink(s));
  }

  lemma UnlinkKeepsBounds(h: Hasher, d: Disk, id: CaseId, t: Slot)
    requires AllSound(h, d) && CacheBounded(d) && id in d.slots && Acceptable(h, id, d.slots[id])
    requires d.cache.Good? ==> forall s :: MaxNumber(d.slots[id].journal.value.events, s) <= Mark(d.cache.marks, s)
    requires Sound(h, id, t) && t.journal.None? && t == Finished(d.slots[id]) == Finished(t)
    ensures var e := d.(slots := d.slots[id := t]);
            AllSound(h, e) && CacheBounded(e) && Abstract(e) == Abstract(d)
  {
    hide Finished, Sound, Covers, Attains, Acceptable;
    var e := d.(slots := d.slots[id := t]);
    AllSoundUpdate(h, d, id, t);
    AbstractUpdate(d, id, t);
    assert Abstract(d)[id := Finished(t)] == Abstract(d);
    assert AbstractTimelines(d)[id := Finished(t).events] == AbstractTimelines(d);
    if d.cache.Good? {
      forall s
        ensures Covers(BaseTimelines(e), s, Mark(d.cache.marks, s))
                && Attains(AbstractTimelines(e), s, Mark(d.cache.marks, s))
      {
        FinishedCoveredToo(h, d, id, s, Mark(d.cache.marks, s));
        CoversUpdate(BaseTimelines(d), s, Mark(d.cache.marks, s), id, t.events);
      }
    }
  }

  lemma {:induction false} FinishedCoveredToo(h: Hasher, d: Disk, id: CaseId, s: Session, n: nat)
    requires id in d.slots && Acceptable(h, id, d.slots[id])
    requires Covers(BaseTimelines(d), s, n) && MaxNumber(d.slots[id].journal.value.events, s) <= n
    ensures forall i :: 0 <= i < |Finished(d.slots[id]).events| ==> NumberOf(Finished(d.slots[id]).events[i], s) <= n
  {
    hide Acceptable, Finished;
    assert BaseTimelines(d)[id] == BaseEvents(d.slots[id]);
    FinishedCovered(h, id, d.slots[id], s, n);
  }

  // ------------------------------------------------------- the commit step

  /** The journal write is the one step that changes the abstract store: the
      transition appears in it all at once, numbered above everything before. */
  lemma BeginCommits(h: Hasher, m: Machine, a: Action, n: Machine)
    requires Inv(h, m) && a.Begin? && BeginStep(h, m, a, n)
    ensures Inv(h, n)
    ensures
      var s := SlotOf(m.disk, a.id);
      var j := Compose(h, s, Base(m.disk.cache), a.state, a.requests, a.archive, a.target, a.at).value;
      Abstract(n.disk) == Abstract(m.disk)[a.id :=
        Slot(s.events + j.events, Some(j.snapshot), None,
             if a.archive then s.archive[j.snapshot.state.version := j.snapshot] else s.archive)]
  {
    var s := SlotOf(m.disk, a.id);
    assert Settled(h, a.id, s);
    var j := Compose(h, s, Base(m.disk.cache), a.state, a.requests, a.archive, a.target, a.at).value;
    JournalCommits(h, a.id, s, Base(m.disk.cache), a.state, a.requests, a.archive, a.target, a.at);
    NewJournal(h, m.disk, a.id, j);
  }

  /** A disk that takes on a recoverable journal over a settled slot. */
  lemma NewJournal(h: Hasher, d: Disk, id: CaseId, j: Journal)
    requires AllSound(h, d) && CacheBounded(d)
    requires var s := SlotOf(d, id);
             && Settled(h, id, s) && Recoverable(h, id, s.(journal := Some(j)))
             && Finished(s.(journal := Some(j))).events == s.events + j.events
    ensures
      var t := SlotOf(d, id).(journal := Some(j));
      var e := d.(slots := d.slots[id := t]);
      AllSound(h, e) && CacheBounded(e) && Abstract(e) == Abstract(d)[id := Finished(t)]
  {
    var s := SlotOf(d, id);
    var t := s.(journal := Some(j));
    AllSoundUpdate(h, d, id, t);
    AbstractUpdate(d, id, t);
    assert |s.events[..First(j)] + j.events| == |s.events + j.events|;
    assert BaseEvents(t) == s.events;
    BeginKeepsCache(h, d, id, t, d.(slots := d.slots[id := t]));
  }

  lemma BeginKeepsCache(h: Hasher, d: Disk, id: CaseId, t: Slot, e: Disk)
    requires CacheBounded(d) && e == d.(slots := d.slots[id := t])
    requires BaseEvents(t) == BaseEvents(SlotOf(d, id))
    requires Finished(SlotOf(d, id)).events <= Finished(t).events
    ensures CacheBounded(e)
  {
    if d.cache.Good? {
      forall s
        ensures Covers(BaseTimelines(e), s, Mark(d.cache.marks, s))
        ensures Attains(AbstractTimelines(e), s, Mark(d.cache.marks, s))
      {
        var k := Mark(d.cache.marks, s);
        forall c, i | c in BaseTimelines(e) && 0 <= i < |BaseTimelines(e)[c]|
          ensures NumberOf(BaseTimelines(e)[c][i], s) <= k
        {
          if c in d.slots {
            assert BaseTimelines(e)[c] == BaseTimelines(d)[c];
          }
        }
        if k > 0 {
          var c, i :| c in AbstractTimelines(d) && 0 <= i < |AbstractTimelines(d)[c]|
                      && NumberOf(AbstractTimelines(d)[c][i], s) == k;
          assert AbstractTimelines(e)[c][i] == AbstractTimelines(d)[c][i];
        }
      }
    }
  }

  /** With no journal pending a usable cache is exact, so the next number never
      depends on what happened to the cache before. */
  lemma CacheExact(h: Hasher, d: Disk, s: Session)
    requires AllSound(h, d) && CacheBounded(d) && NoJournal(d) && d.cache.Good?
    ensures HighWater(TimelinesOf(d), s, Mark(d.cache.marks, s))
  {
    assert BaseTimelines(d) == TimelinesOf(d) == AbstractTimelines(d);
  }

  // ----------------------------------------------------------- whole runs

  lemma CacheStep(h: Hasher, m: Machine, a: Action, n: Machine)
    requires Inv(h, m) && Micro(h, m, a, n)
    requires a.LoseCache? || a.SpoilCache? || a.RebuildCache?
    ensures Inv(h, n) && n.disk.slots == m.disk.slots
  {
    hide Finished, BaseEvents, Sound;
    if a.RebuildCache? {
      forall s
        ensures Covers(BaseTimelines(n.disk), s, Mark(n.disk.cache.marks, s))
        ensures Attains(AbstractTimelines(n.disk), s, Mark(n.disk.cache.marks, s))
      {
        assert TimelinesOf(n.disk) == TimelinesOf(m.disk);
        PhysicalBetween(h, n.disk, s, Mark(n.disk.cache.marks, s));
      }
    }
  }

  lemma VolatileStep(h: Hasher, m: Machine, a: Action, n: Machine)
    requires Inv(h, m) && Micro(h, m, a, n)
    requires a.StartRecovery? || a.Check? || a.Crash?
    ensures Inv(h, n) && n.disk == m.disk
  {
    hide Finished, BaseEvents, CacheBounded, Acceptable;
  }

  /** One step: recovery is never refused, and only a journal write changes the
      abstract store. */
  lemma MicroRefines(h: Hasher, m: Machine, a: Action, n: Machine)
    requires Inv(h, m) && Micro(h, m, a, n)
    ensures Inv(h, n)
    ensures !a.Begin? ==> Abstract(n.disk) == Abstract(m.disk)
  {
    hide Inv, BeginStep, WriteStep, Finished;
    match a
    case Begin(_, _, _, _, _, _) => BeginCommits(h, m, a, n);
    case Write => WriteStepRefines(h, m, n);
    case LoseCache => CacheStep(h, m, a, n);
    case SpoilCache => CacheStep(h, m, a, n);
    case RebuildCache => CacheStep(h, m, a, n);
    case _ => VolatileStep(h, m, a, n);
  }

  lemma WriteStepRefines(h: Hasher, m: Machine, n: Machine)
    requires Inv(h, m) && WriteStep(m, n)
    ensures Inv(h, n) && Abstract(n.disk) == Abstract(m.disk)
  {
    hide Inv;
    match m.phase.stage
    case AtCache => CacheWrite(h, m, n);
    case AtUnlink => UnlinkWrite(h, m, n);
    case _ => FileWrite(h, m, n);
  }

  ghost predicate IsRun(h: Hasher, run: seq<Machine>, actions: seq<Action>) {
    && |run| == |actions| + 1
    && forall k :: 0 <= k < |actions| ==> Micro(h, run[k], actions[k], run[k + 1])
  }

  lemma RunPrefix(h: Hasher, run: seq<Machine>, actions: seq<Action>)
    requires IsRun(h, run, actions) && |actions| > 0
    ensures IsRun(h, run[..|actions|], actions[..|actions| - 1])
    ensures Micro(h, run[|actions| - 1], actions[|actions| - 1], run[|actions|])
  {
    hide Micro;
    forall k | 0 <= k < |actions| - 1
      ensures Micro(h, run[..|actions|][k], actions[..|actions| - 1][k], run[..|actions|][k + 1])
    {
      assert Micro(h, run[k], actions[k], run[k + 1]);
    }
    assert Micro(h, run[|actions| - 1], actions[|actions| - 1], run[|actions| - 1 + 1]);
  }

  /** The invariant holds after any number of writes, crashes, recoveries and
      cache losses. */
  lemma {:induction false} RunsKeepInv(h: Hasher, run: seq<Machine>, actions: seq<Action>)
    requires IsRun(h, run, actions) && Inv(h, run[0])
    ensures Inv(h, run[|actions|])
    decreases |actions|
  {
    hide Inv, Micro;
    if |actions| > 0 {
      RunPrefix(h, run, actions);
      RunsKeepInv(h, run[..|actions|], actions[..|actions| - 1]);
      MicroRefines(h, run[|actions| - 1], actions[|actions| - 1], run[|actions|]);
    }
  }

  /** However often recovery is interrupted and restarted, the abstract store
      stays what it was when the last journal became durable. */
  lemma {:induction false} InterruptionsStutter(h: Hasher, run: seq<Machine>, actions: seq<Action>)
    requires IsRun(h, run, actions) && Inv(h, run[0])
    requires forall k :: 0 <= k < |actions| ==> !actions[k].Begin?
    ensures Abstract(run[|actions|].disk) == Abstract(run[0].disk)
    decreases |actions|
  {
    hide Inv, Micro, Abstract;
    if |actions| > 0 {
      RunPrefix(h, run, actions);
      RunsKeepInv(h, run[..|actions|], actions[..|actions| - 1]);
      InterruptionsStutter(h, run[..|actions|], actions[..|actions| - 1]);
      MicroRefines(h, run[|actions| - 1], actions[|actions| - 1], run[|actions|]);
    }
  }

  /** Once no journal is left the disk is the abstract store itself, and a
      usable cache holds the true high-water marks. */
  lemma QuietDiskIsAbstract(h: Hasher, d: Disk, s: Session)
    requires AllSound(h, d) && CacheBounded(d) && NoJournal(d)
    ensures Abstract(d) == d.slots
    ensures d.cache.Good? ==> HighWater(AbstractTimelines(d), s, Mark(d.cache.marks, s))
  {
    assert BaseTimelines(d) == AbstractTimelines(d);
  }

  /** Crash refinement: after any interleaving of writes, crashes, restarted
      recoveries and cache losses that starts from a durable journal, a disk
      with no journal left is exactly the final state of the uninterrupted
      recovery. */
  lemma InterruptedRecoveryConverges(h: Hasher, run: seq<Machine>, actions: seq<Action>)
    requires IsRun(h, run, actions) && Inv(h, run[0])
    requires forall k :: 0 <= k < |actions| ==> !actions[k].Begin?
    requires NoJournal(run[|actions|].disk)
    ensures run[|actions|].disk.slots == Abstract(run[0].disk)
    ensures run[|actions|].disk.cache.Good? ==>
              forall s :: HighWater(AbstractTimelines(run[|actions|].disk), s, Mark(run[|actions|].disk.cache.marks, s))
  {
    hide Micro, Abstract, AbstractTimelines, HighWater, Mark;
    RunsKeepInv(h, run, actions);
    InterruptionsStutter(h, run, actions);
    QuietDiskIsAbstract(h, run[|actions|].disk, "");
    forall s
      ensures run[|actions|].disk.cache.Good? ==>
                HighWater(AbstractTimelines(run[|actions|].disk), s, Mark(run[|actions|].disk.cache.marks, s))
    {
      QuietDiskIsAbstract(h, run[|actions|].disk, s);
    }
  }

  /** From every state a crash can leave, a recovery pass over one pending
      journal is accepted and its five writes settle the directory. */
  lemma RecoveryNeverStuck(h: Hasher, m: Machine, id: CaseId)
    requires Inv(h, m) && m.phase.Idle? && id in m.disk.slots && m.disk.slots[id].journal.Some?
    ensures
      var checking := m.(phase := Checking(id));
      var applying := m.(phase := Applying(id, AtEvents));
      && Micro(h, m, StartRecovery(id), checking) && Micro(h, checking, Check, applying)
      && Inv(h, applying)
  {
    hide Finished, BaseEvents, CacheBounded;
    assert Sound(h, id, m.disk.slots[id]);
  }
}
