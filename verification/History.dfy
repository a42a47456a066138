/** The store between transactions, with the order in which events were
    committed across all cases. */
module History {
  import opened Wrappers
  import opened Records
  import opened Timeline
  import opened Dispositions
  import opened Journal

  /** One committed event and the case it belongs to. */
  datatype Stamp = Stamp(id: CaseId, event: Event)

  /** Settled case directories and the global commit order. */
  datatype Store = Store(slots: map<CaseId, Slot>, log: seq<Stamp>)

  predicate Exists(st: Store, id: CaseId) {
    id in st.slots && st.slots[id].file.Some?
  }

  function StateOf(st: Store, id: CaseId): Case
    requires Exists(st, id)
  {
    st.slots[id].file.value.state
  }

  function SlotAt(st: Store, id: CaseId): Slot {
    if id in st.slots then st.slots[id] else EMPTY_SLOT
  }

  function Timelines(st: Store): map<CaseId, seq<Event>> {
    map id | id in st.slots :: st.slots[id].events
  }

  // --------------------------------------------------------------- counting

  predicate CountedEvent(e: Event, s: Session) {
    IsDisposition(e.body.entry) && s != "" && e.body.session == s
  }

  /** How many dispositions of session `s` have been committed. */
  function Count(log: seq<Stamp>, s: Session): nat {
    if log == [] then 0
    else
      var n := |log| - 1;
      Count(log[..n], s) + if CountedEvent(log[n].event, s) then 1 else 0
  }

  function Counter(log: seq<Stamp>): Session -> nat {
    s => Count(log, s)
  }

  lemma {:induction false} CountMonotone(log: seq<Stamp>, s: Session, p: nat)
    requires p <= |log|
    ensures Count(log[..p], s) <= Count(log, s)
  {
    if p < |log| {
      var n := |log| - 1;
      assert log[..n][..p] == log[..p];
      CountMonotone(log[..n], s, p);
    } else {
      assert log[..p] == log;
    }
  }

  // -------------------------------------------------------------- invariant

  ghost predicate AllSettled(h: Hasher, st: Store) {
    forall id :: id in st.slots ==> Settled(h, id, st.slots[id])
  }

  /** The log tells of events that are in the Timelines ... */
  ghost predicate LogTrue(st: Store) {
    forall p :: 0 <= p < |st.log| ==> Recorded(st, st.log[p])
  }

  predicate Recorded(st: Store, stamp: Stamp) {
    && stamp.id in st.slots
    && 1 <= stamp.event.body.id <= |st.slots[stamp.id].events|
    && st.slots[stamp.id].events[stamp.event.body.id - 1] == stamp.event
  }

  /** ... of all of them, ... */
  ghost predicate LogComplete(st: Store) {
    forall id, i :: id in st.slots && 0 <= i < |st.slots[id].events| ==> Stamp(id, st.slots[id].events[i]) in st.log
  }

  /** ... and numbers the dispositions of each session in the order of commit. */
  ghost predicate LogNumbered(log: seq<Stamp>) {
    forall p, s :: 0 <= p < |log| ==> NumberedRight(log, p, s)
  }

  ghost predicate NumberedRight(log: seq<Stamp>, p: nat, s: Session)
    requires p < |log|
  {
    NumberOf(log[p].event, s) == if CountedEvent(log[p].event, s) then Count(log[..p], s) + 1 else 0
  }

  ghost predicate StoreInv(h: Hasher, st: Store) {
    AllSettled(h, st) && LogTrue(st) && LogComplete(st) && LogNumbered(st.log)
  }

  // ----------------------------------------- numbers are gap-free and unique

  /** Two different places in the log never carry the same number of a session. */
  lemma NumbersDistinct(log: seq<Stamp>, s: Session, p: nat, q: nat)
    requires LogNumbered(log) && p < q < |log|
    requires NumberOf(log[p].event, s) > 0 && NumberOf(log[q].event, s) > 0
    ensures NumberOf(log[p].event, s) < NumberOf(log[q].event, s)
  {
    assert NumberedRight(log, p, s) && NumberedRight(log, q, s);
    CountMonotone(log[..q], s, p + 1);
    assert log[..q][..p + 1] == log[..p + 1];
    assert log[..p + 1][..p] == log[..p];
  }

  /** Every number from 1 to the count has been used. */
  lemma {:induction false} NumbersDense(log: seq<Stamp>, s: Session, k: nat) returns (p: nat)
    requires LogNumbered(log) && 1 <= k <= Count(log, s)
    ensures p < |log| && NumberOf(log[p].event, s) == k
  {
    var n := |log| - 1;
    assert NumberedRight(log, n, s);
    if k <= Count(log[..n], s) {
      forall i, t | 0 <= i < n ensures NumberedRight(log[..n], i, t) {
        assert NumberedRight(log, i, t);
        assert log[..n][..i] == log[..i];
      }
      p := NumbersDense(log[..n], s, k);
    } else {
      p := n;
    }
  }

  /** No number exceeds the count. */
  lemma {:induction false} NumbersBounded(log: seq<Stamp>, s: Session, p: nat)
    requires LogNumbered(log) && p < |log|
    ensures NumberOf(log[p].event, s) <= Count(log, s)
  {
    assert NumberedRight(log, p, s);
    CountMonotone(log, s, p + 1);
    assert log[..p + 1][..p] == log[..p];
  }

  lemma LogPosition(st: Store, id: CaseId, i: nat) returns (p: nat)
    requires LogComplete(st) && id in st.slots && i < |st.slots[id].events|
    ensures p < |st.log| && st.log[p] == Stamp(id, st.slots[id].events[i])
  {
    var stamp := Stamp(id, st.slots[id].events[i]);
    assert stamp in st.log;
    p :| p < |st.log| && st.log[p] == stamp;
  }

  /** The count is what a scan of all Timelines finds: the value the cache is
      rebuilt to after it was lost. */
  lemma {:induction false} CountIsHighWater(st: Store, s: Session)
    requires LogTrue(st) && LogComplete(st) && LogNumbered(st.log)
    ensures HighWater(Timelines(st), s, Count(st.log, s))
  {
    var n := Count(st.log, s);
    forall id, i | id in st.slots && 0 <= i < |st.slots[id].events| ensures NumberOf(Timelines(st)[id][i], s) <= n {
      var p := LogPosition(st, id, i);
      NumbersBounded(st.log, s, p);
    }
    if n > 0 {
      var p := NumbersDense(st.log, s, n);
      assert Recorded(st, st.log[p]);
      var stamp := st.log[p];
      assert Timelines(st)[stamp.id][stamp.event.body.id - 1] == stamp.event;
    }
  }

  /** Across all Timelines, the numbers of one session are exactly 1 up to its
      count: each of them is used ... */
  lemma SessionNumbersDense(st: Store, s: Session, k: nat) returns (id: CaseId, i: nat)
    requires LogTrue(st) && LogNumbered(st.log)
    requires 1 <= k <= Count(st.log, s)
    ensures id in st.slots && i < |st.slots[id].events| && NumberOf(st.slots[id].events[i], s) == k
  {
    var p := NumbersDense(st.log, s, k);
    assert Recorded(st, st.log[p]);
    id, i := st.log[p].id, st.log[p].event.body.id - 1;
  }

  /** ... by one event only. */
  lemma SessionNumbersUnique(h: Hasher, st: Store, s: Session, a: CaseId, i: nat, b: CaseId, j: nat)
    requires StoreInv(h, st)
    requires a in st.slots && i < |st.slots[a].events| && b in st.slots && j < |st.slots[b].events|
    requires NumberOf(st.slots[a].events[i], s) == NumberOf(st.slots[b].events[j], s) > 0
    ensures a == b && i == j
  {
    var p := LogPosition(st, a, i);
    var q := LogPosition(st, b, j);
    if p < q {
      NumbersDistinct(st.log, s, p, q);
    } else if q < p {
      NumbersDistinct(st.log, s, q, p);
    }
    assert Settled(h, a, st.slots[a]);
    assert Linked(h, st.slots[a].events, i) && Linked(h, st.slots[a].events, j);
  }

  // ------------------------------------------------------------ transactions

  function Stamps(id: CaseId, events: seq<Event>): (stamps: seq<Stamp>)
    ensures |stamps| == |events|
    ensures forall k :: 0 <= k < |events| ==> stamps[k] == Stamp(id, events[k])
  {
    if events == [] then []
    else Stamps(id, events[..|events| - 1]) + [Stamp(id, events[|events| - 1])]
  }

  function Applied(s: Slot, j: Journal): Slot {
    Slot(s.events + j.events, Some(j.snapshot), None,
         if j.archive then s.archive[j.snapshot.state.version := j.snapshot] else s.archive)
  }

  function Commit(st: Store, id: CaseId, j: Journal): Store {
    Store(st.slots[id := Applied(SlotAt(st, id), j)], st.log + Stamps(id, j.events))
  }

  /** The journal of a transition, numbered by the counts of the log. */
  ghost function Planned(h: Hasher, st: Store, case_: Case, requests: seq<Request>, archive: bool, target: Target,
                         at: int): Result<Journal>
  {
    Compose(h, SlotAt(st, case_.id), Counter(st.log), case_, requests, archive, target, at)
  }

  ghost function Transact(h: Hasher, st: Store, case_: Case, requests: seq<Request>, archive: bool, target: Target,
                          at: int): Result<Store>
  {
    match Planned(h, st, case_, requests, archive, target, at)
    case Err(e) => Err(e)
    case Ok(j) => Ok(Commit(st, case_.id, j))
  }

  lemma {:induction false} CountNext(log: seq<Stamp>, stamp: Stamp, s: Session)
    ensures Count(log + [stamp], s) == Count(log, s) + if CountedEvent(stamp.event, s) then 1 else 0
  {
    assert (log + [stamp])[..|log|] == log;
  }

  /** Stamping the events of a transition counts its requests. */
  lemma {:induction false} CountStamps(log: seq<Stamp>, id: CaseId, events: seq<Event>, requests: seq<Request>,
                                       s: Session, k: nat)
    requires |events| == |requests| && k <= |requests|
    requires forall i :: 0 <= i < |events| ==>
               events[i].body.entry == requests[i].entry && events[i].body.session == requests[i].session
    ensures s != "" ==> Count(log + Stamps(id, events)[..k], s) == Count(log, s) + CountOf(requests[..k], s)
    decreases k
  {
    hide Count, CountOf, Stamps;
    var stamps := Stamps(id, events);
    if k == 0 {
      assert log + stamps[..0] == log;
      assert requests[..0] == [];
      NoneCounted(s);
    } else {
      CountStamps(log, id, events, requests, s, k - 1);
      assert log + stamps[..k] == (log + stamps[..k - 1]) + [stamps[k - 1]];
      CountNext(log + stamps[..k - 1], stamps[k - 1], s);
      RequestNext(requests, s, k - 1);
    }
  }

  lemma {:induction false} NoneCounted(s: Session)
    ensures CountOf([], s) == 0
  {
  }

  lemma {:induction false} RequestNext(requests: seq<Request>, s: Session, k: nat)
    requires k < |requests|
    ensures CountOf(requests[..k + 1], s)
            == CountOf(requests[..k], s) + if Counted(requests[k]) && requests[k].session == s then 1 else 0
  {
    assert requests[..k + 1][..k] == requests[..k];
  }

  /** The events of a planned journal answer its requests, in order. */
  lemma PlannedEvents(h: Hasher, st: Store, case_: Case, requests: seq<Request>, archive: bool, target: Target,
                      at: int, k: nat)
    requires Planned(h, st, case_, requests, archive, target, at).Ok? && k < |requests|
    ensures
      var j := Planned(h, st, case_, requests, archive, target, at).value;
      && |j.events| == |requests|
      && var b, r := j.events[k].body, requests[k];
      && b.id == |SlotAt(st, case_.id).events| + k + 1 && b.entry == r.entry && b.session == r.session && b.at == at
      && b.number == (if Counted(r) then Some(Count(st.log, r.session) + CountOf(requests[..k], r.session) + 1)
                      else None)
  {
    hide Compose, Prepared, Numbered;
    var s := SlotAt(st, case_.id);
    var base := Counter(st.log);
    var j := Planned(h, st, case_, requests, archive, target, at).value;
    Composed(h, s, base, case_, requests, archive, target, at);
    PreparedAt(h, s.events, Numbered(requests, base), at, j.snapshot.seal, k);
    NumberedAt(requests, base, k);
  }

  /** A planned journal numbers its events in continuation of the log. */
  lemma CommitNumbered(h: Hasher, st: Store, case_: Case, requests: seq<Request>, archive: bool, target: Target,
                       at: int)
    requires LogNumbered(st.log)
    requires Planned(h, st, case_, requests, archive, target, at).Ok?
    ensures LogNumbered(Commit(st, case_.id, Planned(h, st, case_, requests, archive, target, at).value).log)
  {
    hide Planned, Applied;
    var j := Planned(h, st, case_, requests, archive, target, at).value;
    var stamps := Stamps(case_.id, j.events);
    var log := st.log + stamps;
    PlannedCount(h, st, case_, requests, archive, target, at);
    forall p, s | 0 <= p < |log| ensures NumberedRight(log, p, s) {
      if p < |st.log| {
        assert NumberedRight(st.log, p, s);
        assert log[..p] == st.log[..p];
      } else {
        var k := p - |st.log|;
        PlannedEvents(h, st, case_, requests, archive, target, at, k);
        forall i | 0 <= i < |j.events|
          ensures j.events[i].body.entry == requests[i].entry && j.events[i].body.session == requests[i].session
        {
          PlannedEvents(h, st, case_, requests, archive, target, at, i);
        }
        CountStamps(st.log, case_.id, j.events, requests, s, k);
        assert log[..p] == st.log + stamps[..k];
      }
    }
  }

  lemma PlannedCount(h: Hasher, st: Store, case_: Case, requests: seq<Request>, archive: bool, target: Target, at: int)
    requires Planned(h, st, case_, requests, archive, target, at).Ok?
    ensures |Planned(h, st, case_, requests, archive, target, at).value.events| == |requests| > 0
  {
    hide Compose, Prepared, Numbered;
    Composed(h, SlotAt(st, case_.id), Counter(st.log), case_, requests, archive, target, at);
  }

  /** Every transition keeps the store's invariant. */
  lemma TransactKeepsStore(h: Hasher, st: Store, case_: Case, requests: seq<Request>, archive: bool, target: Target,
                           at: int)
    requires StoreInv(h, st)
    requires Transact(h, st, case_, requests, archive, target, at).Ok?
    ensures StoreInv(h, Transact(h, st, case_, requests, archive, target, at).value)
  {
    hide Planned, Compose;
    var j := Planned(h, st, case_, requests, archive, target, at).value;
    var id := case_.id;
    var s := SlotAt(st, id);
    CommitNumbered(h, st, case_, requests, archive, target, at);
    AppliedSettled(h, st, case_, requests, archive, target, at);
    PlannedCount(h, st, case_, requests, archive, target, at);
    forall k | 0 <= k < |j.events| ensures j.events[k].body.id == |s.events| + k + 1 {
      PlannedEvents(h, st, case_, requests, archive, target, at, k);
    }
    CommitLog(st, id, j);
  }

  lemma AppliedSettled(h: Hasher, st: Store, case_: Case, requests: seq<Request>, archive: bool, target: Target,
                       at: int)
    requires AllSettled(h, st)
    requires Planned(h, st, case_, requests, archive, target, at).Ok?
    ensures Settled(h, case_.id, Applied(SlotAt(st, case_.id),
                                         Planned(h, st, case_, requests, archive, target, at).value))
  {
    hide Compose, Finished, Recoverable;
    var s := SlotAt(st, case_.id);
    var base := Counter(st.log);
    var j := Planned(h, st, case_, requests, archive, target, at).value;
    JournalCommits(h, case_.id, s, base, case_, requests, archive, target, at);
    RecoverableEndsSettled(h, case_.id, s.(journal := Some(j)));
    Composed(h, s, base, case_, requests, archive, target, at);
  }

  lemma RecoverableEndsSettled(h: Hasher, id: CaseId, s: Slot)
    requires Recoverable(h, id, s)
    ensures Settled(h, id, Finished(s))
  {
    hide Finished, Settled;
    AcceptedEndsSettled(h, id, s);
  }

  lemma CommitLog(st: Store, id: CaseId, j: Journal)
    requires LogTrue(st) && LogComplete(st)
    requires forall k :: 0 <= k < |j.events| ==> j.events[k].body.id == |SlotAt(st, id).events| + k + 1
    ensures LogTrue(Commit(st, id, j)) && LogComplete(Commit(st, id, j))
  {
    var after := Commit(st, id, j);
    var s := SlotAt(st, id);
    forall p | 0 <= p < |after.log| ensures Recorded(after, after.log[p]) {
      if p < |st.log| {
        assert Recorded(st, st.log[p]);
      }
    }
    forall c, i | c in after.slots && 0 <= i < |after.slots[c].events|
      ensures Stamp(c, after.slots[c].events[i]) in after.log
    {
      if c == id && i >= |s.events| {
        var k := i - |s.events|;
        assert after.log[|st.log| + k] == Stamp(id, j.events[k]);
      } else {
        assert Stamp(c, st.slots[c].events[i]) in st.log;
      }
    }
  }
}
