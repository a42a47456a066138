/** Runs of the crash machine as runs of atomic transitions: some order of commits
    explains every disk, whatever crashed and whatever became of the sequence cache. */
module CrashRuns {
  import opened Records
  import opened Dispositions
  import opened Journal
  import opened History
  import Recovery

  type Machine = Recovery.Machine
  type Disk = Recovery.Disk

  // ---------------------------------------- the machine refines the atomic store

  /** The store a disk stands for, once the order of its commits is known. */
  function StoreOn(d: Disk, log: seq<Stamp>): Store {
    Store(Recovery.Abstract(d), log)
  }

  /** `log` tells the commits behind the disk, in order. */
  ghost predicate Backs(h: Hasher, m: Machine, log: seq<Stamp>) {
    Recovery.Inv(h, m) && StoreInv(h, StoreOn(m.disk, log))
  }

  /** The events a new journal commits. */
  ghost function Committed(h: Hasher, m: Machine, a: Recovery.Action): seq<Stamp>
    requires a.Begin?
  {
    match Compose(h, Recovery.SlotOf(m.disk, a.id), Recovery.Base(m.disk.cache), a.state, a.requests, a.archive,
                  a.target, a.at)
    case Err(_) => []
    case Ok(j) => Stamps(a.id, j.events)
  }

  ghost function LogAfter(h: Hasher, m: Machine, log: seq<Stamp>, a: Recovery.Action): seq<Stamp> {
    if a.Begin? then log + Committed(h, m, a) else log
  }

  /** The transition an action asks of the store. */
  ghost function Asked(h: Hasher, st: Store, a: Recovery.Action): Result<Store>
    requires a.Begin?
  {
    Transact(h, st, a.state, a.requests, a.archive, a.target, a.at)
  }

  /** A usable cache counts the dispositions of every session. */
  lemma {:induction false} CacheCounts(h: Hasher, m: Machine, log: seq<Stamp>, s: Session)
    requires Backs(h, m, log) && Recovery.NoJournal(m.disk) && m.disk.cache.Good?
    ensures Recovery.Base(m.disk.cache)(s) == Count(log, s)
  {
    hide AllSettled, Recovery.PhaseOk, Recovery.CacheBounded, Recovery.AllSound, Count;
    var st := StoreOn(m.disk, log);
    CountIsHighWater(st, s);
    Recovery.QuietDiskIsAbstract(h, m.disk, s);
    assert Timelines(st) == Recovery.AbstractTimelines(m.disk);
    HighWaterUnique(Timelines(st), s, Mark(m.disk.cache.marks, s), Count(log, s));
  }

  /** Where nothing is counted, no number depends on the cache. */
  lemma {:induction false} NothingCounted(requests: seq<Request>, a: Session -> nat, b: Session -> nat)
    requires forall r :: r in requests ==> !Counted(r)
    ensures Numbered(requests, a) == Numbered(requests, b)
  {
    if requests != [] {
      NothingCounted(requests[..|requests| - 1], a, b);
    }
  }

  /** The numbers a new journal gives out are the ones the log gives. */
  lemma {:induction false} SameNumbers(h: Hasher, m: Machine, log: seq<Stamp>, a: Recovery.Action, n: Machine)
    requires Backs(h, m, log) && a.Begin? && Recovery.BeginStep(h, m, a, n)
    ensures Numbered(a.requests, Recovery.Base(m.disk.cache)) == Numbered(a.requests, Counter(log))
  {
    hide Backs, Numbered, Compose, Count;
    var base := Recovery.Base(m.disk.cache);
    if m.disk.cache.Good? {
      forall s ensures base(s) == Counter(log)(s) {
        CacheCounts(h, m, log, s);
      }
      NumberedAgrees(a.requests, base, Counter(log));
    } else {
      NothingCounted(a.requests, base, Counter(log));
    }
  }

  /** A journal depends on the counters through the numbers only. */
  lemma {:induction false} ComposeAgrees(h: Hasher, s: Slot, a: Session -> nat, b: Session -> nat, case_: Case,
                                         requests: seq<Request>,
                      archive: bool, target: Target, at: int)
    requires Numbered(requests, a) == Numbered(requests, b)
    ensures Compose(h, s, a, case_, requests, archive, target, at)
            == Compose(h, s, b, case_, requests, archive, target, at)
  {
    hide Numbered;
  }

  /** A new journal is one atomic transition of the store the disk stands for. */
  lemma BeginIsTransaction(h: Hasher, m: Machine, log: seq<Stamp>, a: Recovery.Action, n: Machine)
    requires Backs(h, m, log) && a.Begin? && Recovery.BeginStep(h, m, a, n)
    ensures Asked(h, StoreOn(m.disk, log), a) == Ok(StoreOn(n.disk, LogAfter(h, m, log, a)))
  {
    hide StoreInv, Compose, Numbered, Recovery.Inv;
    var st, s := StoreOn(m.disk, log), Recovery.SlotOf(m.disk, a.id);
    SameNumbers(h, m, log, a, n);
    ComposeAgrees(h, s, Recovery.Base(m.disk.cache), Counter(log), a.state, a.requests, a.archive, a.target, a.at);
    Recovery.BeginCommits(h, m, a, n);
    NothingHidden(h, m);
    assert SlotAt(st, a.id) == s;
    JournalArchives(h, s, Counter(log), a.state, a.requests, a.archive, a.target, a.at);
  }

  lemma NothingHidden(h: Hasher, m: Machine)
    requires Recovery.Inv(h, m) && Recovery.NoJournal(m.disk)
    ensures Recovery.Abstract(m.disk) == m.disk.slots
  {
    Recovery.QuietDiskIsAbstract(h, m.disk, "");
  }

  lemma JournalArchives(h: Hasher, s: Slot, base: Session -> nat, case_: Case, requests: seq<Request>, archive: bool,
                        target: Target, at: int)
    requires Compose(h, s, base, case_, requests, archive, target, at).Ok?
    ensures Compose(h, s, base, case_, requests, archive, target, at).value.archive == archive
  {
    hide Compose;
    Composed(h, s, base, case_, requests, archive, target, at);
  }

  /** One step of the machine is nothing to the store it stands for, or one atomic
      transition. */
  lemma StepBacks(h: Hasher, m: Machine, log: seq<Stamp>, a: Recovery.Action, n: Machine)
    requires Backs(h, m, log) && Recovery.Micro(h, m, a, n)
    ensures Backs(h, n, LogAfter(h, m, log, a))
    ensures var before, after := StoreOn(m.disk, log), StoreOn(n.disk, LogAfter(h, m, log, a));
            if a.Begin? then Asked(h, before, a) == Ok(after) else after == before
  {
    hide StoreInv, Recovery.Inv, Recovery.BeginStep, Committed, Recovery.WriteStep, Transact;
    Recovery.MicroRefines(h, m, a, n);
    if a.Begin? {
      BeginIsTransaction(h, m, log, a, n);
      TransactKeepsStore(h, StoreOn(m.disk, log), a.state, a.requests, a.archive, a.target, a.at);
    }
  }

  const BLANK: Machine := Recovery.Machine(Recovery.Disk(map[], Recovery.Missing), Recovery.Idle)

  lemma BlankBacked(h: Hasher)
    ensures Backs(h, BLANK, []) && StoreOn(BLANK.disk, []) == Store(map[], [])
  {
  }

  /** `logs` follows the run: nothing, or one atomic transition, at every step. */
  ghost predicate Follows(h: Hasher, run: seq<Machine>, actions: seq<Recovery.Action>, logs: seq<seq<Stamp>>) {
    && |logs| == |run| == |actions| + 1
    && (forall k :: 0 <= k < |run| ==> Backs(h, run[k], logs[k]))
    && forall k :: 0 <= k < |actions| ==> FollowsAt(h, run, actions, logs, k)
  }

  ghost predicate FollowsAt(h: Hasher, run: seq<Machine>, actions: seq<Recovery.Action>, logs: seq<seq<Stamp>>, k: nat)
    requires |logs| == |run| == |actions| + 1 && k < |actions|
  {
    var before, after := StoreOn(run[k].disk, logs[k]), StoreOn(run[k + 1].disk, logs[k + 1]);
    if actions[k].Begin? then Asked(h, before, actions[k]) == Ok(after) else after == before
  }

  lemma FollowsFurther(h: Hasher, run: seq<Machine>, actions: seq<Recovery.Action>, logs: seq<seq<Stamp>>,
                       a: Recovery.Action, n: Machine, log: seq<Stamp>)
    requires Follows(h, run, actions, logs) && Backs(h, n, log)
    requires var before, after := StoreOn(run[|actions|].disk, logs[|actions|]), StoreOn(n.disk, log);
             if a.Begin? then Asked(h, before, a) == Ok(after) else after == before
    ensures Follows(h, run + [n], actions + [a], logs + [log])
  {
    hide Backs, Asked, StoreOn;
    forall k | 0 <= k <= |actions| ensures FollowsAt(h, run + [n], actions + [a], logs + [log], k) {
      assert k < |actions| ==> FollowsAt(h, run, actions, logs, k);
    }
  }

  /** Every run of the crash machine from a blank disk is a run of atomic
      transitions: some order of commits explains every disk on the way. */
  lemma {:induction false} CrashRunsAreAtomic(h: Hasher, run: seq<Machine>, actions: seq<Recovery.Action>)
    returns (logs: seq<seq<Stamp>>)
    requires Recovery.IsRun(h, run, actions) && run[0] == BLANK
    ensures Follows(h, run, actions, logs) && logs[0] == []
    decreases |actions|
  {
    hide Backs, Recovery.Micro, Asked, StoreOn, FollowsAt, LogAfter;
    if |actions| == 0 {
      BlankBacked(h);
      logs := [[]];
    } else {
      var n := |actions| - 1;
      Recovery.RunPrefix(h, run, actions);
      var before := CrashRunsAreAtomic(h, run[..n + 1], actions[..n]);
      var log := LogAfter(h, run[n], before[n], actions[n]);
      StepBacks(h, run[n], before[n], actions[n], run[n + 1]);
      FollowsFurther(h, run[..n + 1], actions[..n], before, actions[n], run[n + 1], log);
      assert run[..n + 1] + [run[n + 1]] == run && actions[..n] + [actions[n]] == actions;
      logs := before + [log];
    }
  }

  /** On every disk of every run, crashed or not, the numbers a session has used
      are 1 up to the highest, each of them used once: recovery finds no gap and no
      double, whatever became of the cache. */
  lemma NumbersOnDisk(h: Hasher, run: seq<Machine>, actions: seq<Recovery.Action>, k: nat, s: Session, top: nat, n: nat)
    returns (id: CaseId, i: nat)
    requires Recovery.IsRun(h, run, actions) && run[0] == BLANK && k < |run|
    requires HighWater(Recovery.AbstractTimelines(run[k].disk), s, top) && 1 <= n <= top
    ensures var timelines := Recovery.AbstractTimelines(run[k].disk);
            && id in timelines && i < |timelines[id]| && NumberOf(timelines[id][i], s) == n
            && forall c, j :: c in timelines && 0 <= j < |timelines[c]| && NumberOf(timelines[c][j], s) == n
                              ==> c == id && j == i
  {
    hide Recovery.Inv, Recovery.Micro, Asked, AllSettled, LogTrue, LogComplete, LogNumbered, NumberOf, Count, Finished;
    var logs := CrashRunsAreAtomic(h, run, actions);
    assert Backs(h, run[k], logs[k]);
    var st := StoreOn(run[k].disk, logs[k]);
    CountIsHighWater(st, s);
    assert Timelines(st) == Recovery.AbstractTimelines(run[k].disk);
    HighWaterUnique(Timelines(st), s, top, Count(st.log, s));
    id, i := SessionNumbersDense(st, s, n);
    forall c, j | c in st.slots && 0 <= j < |st.slots[c].events| && NumberOf(st.slots[c].events[j], s) == n
      ensures c == id && j == i
    {
      SessionNumbersUnique(h, st, s, c, j, id, i);
    }
  }
}
