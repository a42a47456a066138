/** The other way: every lifecycle run is had on some disk, so the worlds the disks
    stand for are the worlds of the lifecycle and no others. */
module DiskRuns {
  import opened Wrappers
  import opened Records
  import opened Dispositions
  import opened Journal
  import opened History
  import opened Consultation
  import opened Sessions
  import opened Lifecycle
  import opened Effects
  import opened Compression
  import opened CrashRuns
  import opened SystemRuns

  /** Some run of the system ends here. */
  ghost predicate Arises(h: Hasher, config: Config, a: System) {
    exists run: seq<System>, doings: seq<Doing> :: SystemRun(h, config, run, doings) && run[|doings|] == a
  }

  lemma ArisesFurther(h: Hasher, config: Config, a: System, d: Doing, b: System)
    requires Arises(h, config, a) && SystemStep(h, config, a, d, b)
    ensures Arises(h, config, b) && Backs(h, b.machine, b.log)
  {
    hide SystemStep, Backs;
    var run: seq<System>, doings: seq<Doing> :| SystemRun(h, config, run, doings) && run[|doings|] == a;
    assert SystemRun(h, config, run + [b], doings + [d]);
    assert (run + [b])[|doings + [d]|] == b;
    SystemsAreRuns(h, config, run + [b], doings + [d], |doings| + 1);
  }

  lemma ArisesBacked(h: Hasher, config: Config, a: System)
    requires Arises(h, config, a)
    ensures Backs(h, a.machine, a.log) && LeadsTo(h, config, EMPTY_WORLD, WorldOf(a))
    ensures WorldInv(h, config, WorldOf(a))
  {
    hide Backs, SystemStep, WorldInv, LeadsTo;
    var run: seq<System>, doings: seq<Doing> :| SystemRun(h, config, run, doings) && run[|doings|] == a;
    SystemsAreRuns(h, config, run, doings, |doings|);
    DisksAreSound(h, config, run, doings, |doings|);
  }

  /** A step of the machine that begins nothing. */
  lemma Does(h: Hasher, config: Config, a: System, action: Recovery.Action, n: Machine) returns (b: System)
    requires Arises(h, config, a) && !action.Begin? && Recovery.Micro(h, a.machine, action, n)
    ensures b == a.(machine := n) && Arises(h, config, b) && Backs(h, n, b.log) && WorldOf(b) == WorldOf(a)
  {
    hide Arises, Backs, Recovery.Micro, WorldOf;
    b := a.(machine := n);
    ArisesBacked(h, config, a);
    ArisesFurther(h, config, a, Durable(action), b);
    StepIsMove(h, config, a, Durable(action), b);
  }

  function SessionsOf(events: seq<Event>): set<Session> {
    set i | 0 <= i < |events| :: events[i].body.session
  }

  lemma {:induction false} Unmentioned(events: seq<Event>, s: Session)
    requires s !in SessionsOf(events)
    ensures MaxNumber(events, s) == 0
  {
    if events != [] {
      var n := |events| - 1;
      assert events[n].body.session in SessionsOf(events);
      assert forall t :: t in SessionsOf(events[..n]) ==> t in SessionsOf(events);
      Unmentioned(events[..n], s);
    }
  }

  function Mentioned(log: seq<Stamp>): set<Session> {
    set i | 0 <= i < |log| :: log[i].event.body.session
  }

  lemma {:induction false} Uncounted(log: seq<Stamp>, s: Session)
    requires s !in Mentioned(log)
    ensures Count(log, s) == 0
  {
    if log != [] {
      var n := |log| - 1;
      assert log[n].event.body.session in Mentioned(log);
      assert forall t :: t in Mentioned(log[..n]) ==> t in Mentioned(log);
      Uncounted(log[..n], s);
    }
  }

  /** The marks that count the log. */
  lemma MarksFor(log: seq<Stamp>) returns (marks: map<Session, nat>)
    ensures forall s :: Mark(marks, s) == Count(log, s)
  {
    marks := map s | s in Mentioned(log) :: Count(log, s);
    forall s ensures Mark(marks, s) == Count(log, s) {
      if s !in Mentioned(log) {
        Uncounted(log, s);
      }
    }
  }

  /** The marks raised to a journal's numbers. */
  lemma MarksRaised(before: map<Session, nat>, events: seq<Event>) returns (marks: map<Session, nat>)
    ensures forall s :: Mark(marks, s) == Max(Mark(before, s), MaxNumber(events, s))
  {
    marks := map s | s in before.Keys + SessionsOf(events) :: Max(Mark(before, s), MaxNumber(events, s));
    forall s ensures Mark(marks, s) == Max(Mark(before, s), MaxNumber(events, s)) {
      if s !in SessionsOf(events) {
        Unmentioned(events, s);
      }
    }
  }

  /** Nothing is under way and no journal is left. */
  ghost predicate AtRest(a: System) {
    a.machine.phase.Idle? && Recovery.NoJournal(a.machine.disk)
  }

  /** A lost cache can be rebuilt. */
  lemma {:induction false} Rebuilds(h: Hasher, config: Config, a: System) returns (b: System)
    requires Arises(h, config, a) && AtRest(a)
    ensures Arises(h, config, b) && AtRest(b) && WorldOf(b) == WorldOf(a) && b.machine.disk.cache.Good?
  {
    hide Arises, Recovery.Inv, AllSettled, Count, Mark, HighWater, WorldInv, LeadsTo;
    ArisesBacked(h, config, a);
    if a.machine.disk.cache.Good? {
      b := a;
    } else {
      var d := a.machine.disk;
      var marks := MarksFor(a.log);
      var st := StoreOn(d, a.log);
      NothingHidden(h, a.machine);
      assert Timelines(st) == Recovery.TimelinesOf(d);
      forall s ensures HighWater(Recovery.TimelinesOf(d), s, Mark(marks, s)) {
        CountIsHighWater(st, s);
      }
      b := Does(h, config, a, Recovery.RebuildCache, a.machine.(disk := d.(cache := Recovery.Good(marks))));
    }
  }

  lemma {:induction false} Reconciles(d: Disk, events: seq<Event>) returns (cache: Recovery.CacheFile)
    requires d.cache.Good?
    ensures Recovery.Reconciled(d, events, cache)
  {
    if forall s :: MaxNumber(events, s) == 0 {
      cache := d.cache;
    } else {
      hide MaxNumber, Mark;
      var marks := MarksRaised(d.cache.marks, events);
      cache := Recovery.Good(marks);
      assert forall s :: Recovery.Raised(d, s, MaxNumber(events, s), Mark(marks, s));
    }
  }

  /** One write of a recovery that replaces a file of the case. */
  lemma WritesFile(h: Hasher, config: Config, a: System, id: CaseId, stage: Stage, t: Slot, phase: Recovery.Phase)
    returns (b: System)
    requires Arises(h, config, a) && a.machine.phase == Recovery.Applying(id, stage)
    requires id in a.machine.disk.slots && a.machine.disk.slots[id].journal.Some?
    requires var s := a.machine.disk.slots[id];
             match stage
             case AtEvents => t == WriteEvents(s) && phase == Recovery.Applying(id, AtCase)
             case AtCase => t == WriteCase(s) && phase == Recovery.Applying(id, AtArchive)
             case AtArchive => t == WriteArchive(s) && phase == Recovery.Applying(id, AtCache)
             case AtCache => false
             case AtUnlink => t == Unlink(s) && phase == Recovery.Idle
    ensures Arises(h, config, b) && WorldOf(b) == WorldOf(a)
    ensures b.machine == Recovery.Machine(a.machine.disk.(slots := a.machine.disk.slots[id := t]), phase)
  {
    hide Arises, WorldOf, Backs, WriteEvents, WriteCase, WriteArchive, Unlink;
    var n := Recovery.Machine(a.machine.disk.(slots := a.machine.disk.slots[id := t]), phase);
    b := Does(h, config, a, Recovery.Write, n);
  }

  lemma PassesCheck(h: Hasher, config: Config, a: System, id: CaseId) returns (b: System)
    requires Arises(h, config, a) && a.machine.phase == Recovery.Checking(id)
    requires id in a.machine.disk.slots && a.machine.disk.slots[id].journal.Some?
    ensures Arises(h, config, b) && WorldOf(b) == WorldOf(a)
    ensures b.machine == a.machine.(phase := Recovery.Applying(id, AtEvents))
  {
    hide Arises, WorldOf, Acceptable, StoreInv, WorldInv, LeadsTo;
    ArisesBacked(h, config, a);
    assert Sound(h, id, a.machine.disk.slots[id]);
    b := Does(h, config, a, Recovery.Check, a.machine.(phase := Recovery.Applying(id, AtEvents)));
  }

  /** The last two writes: the cache, and the removal of the journal. */
  lemma Concludes(h: Hasher, config: Config, a: System, id: CaseId) returns (b: System)
    requires Arises(h, config, a) && a.machine.phase == Recovery.Applying(id, AtCache) && a.machine.disk.cache.Good?
    requires id in a.machine.disk.slots && a.machine.disk.slots[id].journal.Some?
    ensures Arises(h, config, b) && WorldOf(b) == WorldOf(a) && b.machine.phase.Idle?
    ensures b.machine.disk.slots == a.machine.disk.slots[id := Unlink(a.machine.disk.slots[id])]
  {
    hide Arises, WorldOf, Recovery.Reconciled, Backs, Unlink;
    var d := a.machine.disk;
    var cache := Reconciles(d, d.slots[id].journal.value.events);
    b := Does(h, config, a, Recovery.Write,
              Recovery.Machine(d.(cache := cache), Recovery.Applying(id, AtUnlink)));
    b := WritesFile(h, config, b, id, AtUnlink, Unlink(d.slots[id]), Recovery.Idle);
  }

  /** A journal just written can be applied, in five writes, and is then gone. */
  lemma Settles(h: Hasher, config: Config, a: System, id: CaseId) returns (b: System)
    requires Arises(h, config, a) && a.machine.phase == Recovery.Checking(id) && a.machine.disk.cache.Good?
    requires id in a.machine.disk.slots && a.machine.disk.slots[id].journal.Some?
    requires forall other :: other in a.machine.disk.slots && other != id ==>
               a.machine.disk.slots[other].journal.None?
    ensures Arises(h, config, b) && AtRest(b) && WorldOf(b) == WorldOf(a)
  {
    hide Arises, WorldOf, WriteEvents, WriteCase, WriteArchive, Unlink;
    var s := a.machine.disk.slots[id];
    KeepJournal(s);
    b := PassesCheck(h, config, a, id);
    b := WritesFile(h, config, b, id, AtEvents, WriteEvents(s), Recovery.Applying(id, AtCase));
    b := WritesFile(h, config, b, id, AtCase, WriteCase(WriteEvents(s)), Recovery.Applying(id, AtArchive));
    var t := WriteArchive(WriteCase(WriteEvents(s)));
    b := WritesFile(h, config, b, id, AtArchive, t, Recovery.Applying(id, AtCache));
    b := Concludes(h, config, b, id);
  }

  /** At rest, with a usable cache, every transition of the store can be begun. */
  lemma CanBegin(h: Hasher, config: Config, a: System, v: World, case_: Case, requests: seq<Request>, archive: bool,
                 target: Target, at: int, m: Move, when: int)
    returns (b: System)
    requires Arises(h, config, a) && AtRest(a) && a.machine.disk.cache.Good?
    requires Next(h, config, WorldOf(a), m, when) == Ok(v) && v == WorldOf(a).(store := v.store)
    requires Transact(h, WorldOf(a).store, case_, requests, archive, target, at) == Ok(v.store)
    ensures Arises(h, config, b) && AtRest(b) && WorldOf(b) == v
  {
    hide Arises, Next, Recovery.Inv, StoreInv, Compose, Count, WorldInv, LeadsTo;
    var action := Recovery.Begin(case_.id, case_, requests, archive, target, at);
    var d, s := a.machine.disk, Recovery.SlotOf(a.machine.disk, case_.id);
    ArisesBacked(h, config, a);
    NothingHidden(h, a.machine);
    assert SlotAt(WorldOf(a).store, case_.id) == s;
    forall t ensures Recovery.Base(d.cache)(t) == Counter(a.log)(t) {
      CacheCounts(h, a.machine, a.log, t);
    }
    NumberedAgrees(requests, Recovery.Base(d.cache), Counter(a.log));
    ComposeAgrees(h, s, Recovery.Base(d.cache), Counter(a.log), case_, requests, archive, target, at);
    var j := Compose(h, s, Recovery.Base(d.cache), case_, requests, archive, target, at).value;
    var n := Recovery.Machine(d.(slots := d.slots[case_.id := s.(journal := Some(j))]), Recovery.Checking(case_.id));
    assert Recovery.BeginStep(h, a.machine, action, n);
    b := a.(machine := n, log := LogAfter(h, a.machine, a.log, action));
    BeginLands(h, config, a, action, m, when, b);
    b := Settles(h, config, b, case_.id);
  }

  lemma BeginLands(h: Hasher, config: Config, a: System, action: Recovery.Action, m: Move, when: int, b: System)
    requires Arises(h, config, a) && action.Begin? && Recovery.BeginStep(h, a.machine, action, b.machine)
    requires Lawful(h, config, WorldOf(a), action, m, when)
    requires b == a.(machine := b.machine, log := LogAfter(h, a.machine, a.log, action))
    ensures Arises(h, config, b) && Next(h, config, WorldOf(a), m, when) == Ok(WorldOf(b))
  {
    hide Arises, Next, Recovery.BeginStep, Backs, WorldOf, Lawful, WorldInv, LeadsTo;
    ArisesBacked(h, config, a);
    ArisesFurther(h, config, a, Plans(action, m, when), b);
    StepIsMove(h, config, a, Plans(action, m, when), b);
  }

  /** A move that leaves the store alone, or everything else. */
  predicate OneSided(w: World, v: World) {
    v.store == w.store || v == w.(store := v.store)
  }

  lemma {:induction false} AdoptOneSided(h: Hasher, config: Config, w: World, ancestors: seq<Session>, child: Session,
                                         keep: bool, at: int)
    ensures var r := AdoptFrom(h, config, w, ancestors, child, keep, at); r.Ok? ==> OneSided(w, r.value)
    decreases |ancestors|
  {
    hide Attempt, Vacant;
    if ancestors != [] {
      AdoptOneSided(h, config, w, ancestors[..|ancestors| - 1], child, keep, at);
    }
  }

  lemma MovesOneSided(h: Hasher, config: Config, w: World, m: Move, at: int)
    requires !m.Recovers? && !m.Aborts? && Next(h, config, w, m, at).Ok?
    ensures OneSided(w, Next(h, config, w, m, at).value)
  {
    hide Attempt, Vacant, AdoptFrom;
    if m.Adopts? {
      AdoptOneSided(h, config, w, Ancestors(m.lineage, m.child), m.child, Pristine(w.store, m.child), at);
    }
  }

  /** Whatever a one-sided move makes of the world, the disk can follow. */
  lemma DiskFollows(h: Hasher, config: Config, a: System, m: Move, at: int, v: World) returns (b: System)
    requires Arises(h, config, a) && AtRest(a)
    requires Next(h, config, WorldOf(a), m, at) == Ok(v) && OneSided(WorldOf(a), v)
    ensures Arises(h, config, b) && AtRest(b) && WorldOf(b) == v
  {
    hide Arises, Next, WorldInv, StoreOn, Backs, LeadsTo, Effect, Transact;
    ArisesBacked(h, config, a);
    if v.store == WorldOf(a).store {
      b := a.(intents := v.intents, leased := v.leased);
      ArisesFurther(h, config, a, Beside(m, at), b);
    } else {
      NextDone(h, config, WorldOf(a), m, at);
      var case_, requests, archive, target, when :|
        Transact(h, WorldOf(a).store, case_, requests, archive, target, when) == Ok(v.store);
      b := Rebuilds(h, config, a);
      b := CanBegin(h, config, b, v, case_, requests, archive, target, when, m, at);
    }
  }

  /** A recovery or rollback that also removes its intent takes two: the commit,
      and the removal. */
  lemma HalvesFirst(h: Hasher, config: Config, a: System, half: Move, whole: Move, at: int, v: World)
    returns (b: System)
    requires Arises(h, config, a) && AtRest(a)
    requires var r := Next(h, config, WorldOf(a), half, at);
             && r.Ok? && OneSided(WorldOf(a), r.value)
             && Next(h, config, r.value, whole, at) == Ok(v) && v.store == r.value.store
    ensures Arises(h, config, b) && AtRest(b) && WorldOf(b) == v
  {
    hide Arises, Next, StoreOn, Backs, AtRest;
    b := DiskFollows(h, config, a, half, at, Next(h, config, WorldOf(a), half, at).value);
    b := RemovesIntent(h, config, b, whole, at, v);
  }

  lemma RemovesIntent(h: Hasher, config: Config, a: System, m: Move, at: int, v: World) returns (b: System)
    requires Arises(h, config, a) && AtRest(a)
    requires Next(h, config, WorldOf(a), m, at) == Ok(v) && v.store == WorldOf(a).store
    ensures Arises(h, config, b) && AtRest(b) && WorldOf(b) == v
  {
    hide Arises, Next, StoreOn, Backs;
    b := a.(intents := v.intents, leased := v.leased);
    ArisesFurther(h, config, a, Beside(m, at), b);
  }

  lemma RecoversInHalves(h: Hasher, config: Config, w: World, to: Session, at: int, i: Intent)
    requires WorldInv(h, config, w) && i in w.intents && i.to == to && OnlyIntent(w, i)
    requires Next(h, config, w, Recovers(to), at).Ok?
    ensures var r := Next(h, config, w, RecoversHalf(i), at);
            && r.Ok? && OneSided(w, r.value)
            && Next(h, config, r.value, Recovers(to), at) == Next(h, config, w, Recovers(to), at)
            && Next(h, config, w, Recovers(to), at).value.store == r.value.store
  {
    hide WorldInv, RecoverMigration, OneSided;
    Nonblank(h, config, w, i);
    RecoverIs(h, config, w, i, at);
    CrashedRecoveryConverges(h, config, w, i, at, at);
    MovesOneSided(h, config, w, RecoversHalf(i), at);
  }

  lemma AbortsInHalves(h: Hasher, config: Config, w: World, i: Intent, at: int)
    requires WorldInv(h, config, w) && Next(h, config, w, Aborts(i), at).Ok? && i in w.intents
    ensures var r := Next(h, config, w, AbortsHalf(i), at);
            && r.Ok? && OneSided(w, r.value)
            && Next(h, config, r.value, Aborts(i), at) == Next(h, config, w, Aborts(i), at)
            && Next(h, config, w, Aborts(i), at).value.store == r.value.store
  {
    hide WorldInv, AbortMigration, OneSided;
    CrashedAbortConverges(h, config, w, i, at, at);
    MovesOneSided(h, config, w, AbortsHalf(i), at);
  }

  lemma NothingToRecover(h: Hasher, config: Config, w: World, m: Move, at: int)
    requires m.Recovers? || m.Aborts?
    requires m.Recovers? ==> forall i :: i in w.intents && i.to == m.to ==> !OnlyIntent(w, i)
    requires m.Aborts? ==> m.intent !in w.intents
    requires Next(h, config, w, m, at).Ok?
    ensures Next(h, config, w, m, at) == Ok(w)
  {
    hide RecoverMigration, AbortMigration;
  }

  /** Whatever a lifecycle move makes of the world, the disk can follow. */
  lemma MoveOnDisk(h: Hasher, config: Config, a: System, m: Move, at: int, v: World) returns (b: System)
    requires Arises(h, config, a) && AtRest(a) && Next(h, config, WorldOf(a), m, at) == Ok(v)
    ensures Arises(h, config, b) && AtRest(b) && WorldOf(b) == v
  {
    hide Arises, Next, WorldInv, StoreOn, Backs, LeadsTo, OneSided, AtRest;
    var w := WorldOf(a);
    ArisesBacked(h, config, a);
    if m.Recovers? && exists i :: i in w.intents && i.to == m.to && OnlyIntent(w, i) {
      var i :| i in w.intents && i.to == m.to && OnlyIntent(w, i);
      RecoversInHalves(h, config, w, m.to, at, i);
      b := HalvesFirst(h, config, a, RecoversHalf(i), m, at, v);
    } else if m.Aborts? && m.intent in w.intents {
      AbortsInHalves(h, config, w, m.intent, at);
      b := HalvesFirst(h, config, a, AbortsHalf(m.intent), m, at, v);
    } else if m.Recovers? || m.Aborts? {
      NothingToRecover(h, config, w, m, at);
      b := a;
    } else {
      MovesOneSided(h, config, w, m, at);
      b := DiskFollows(h, config, a, m, at, v);
    }
  }

  /** Every run of the lifecycle is had on some disk. */
  lemma {:induction false} RunsAreSystems(h: Hasher, config: Config, path: seq<World>, moves: seq<Move>,
                                          times: seq<int>, k: nat)
    returns (a: System)
    requires Effects.IsRun(h, config, path, moves, times) && k < |path|
    ensures Arises(h, config, a) && AtRest(a) && WorldOf(a) == path[k]
  {
    hide Arises, Next, AtRest;
    if k == 0 {
      a := FirstArises(h, config);
    } else {
      hide WorldOf;
      a := RunsAreSystems(h, config, path, moves, times, k - 1);
      PathStep(h, config, path, moves, times, k);
      a := MoveOnDisk(h, config, a, moves[k - 1], times[k - 1], path[k]);
    }
  }

  lemma FirstArises(h: Hasher, config: Config) returns (a: System)
    ensures Arises(h, config, a) && AtRest(a) && WorldOf(a) == EMPTY_WORLD
  {
    hide SystemStep;
    a := FIRST;
    BlankBacked(h);
    var run: seq<System>, doings: seq<Doing> := [FIRST], [];
    assert SystemRun(h, config, run, doings) && run[|doings|] == a;
  }

  /** The worlds the disks of all runs stand for, with crashes anywhere and the cache
      lost at any time, are exactly the worlds of lifecycle runs. */
  lemma DisksAreWorlds(h: Hasher, config: Config, w: World)
    ensures (exists a :: Arises(h, config, a) && WorldOf(a) == w) <==> LeadsTo(h, config, EMPTY_WORLD, w)
  {
    hide Next, SystemStep, StoreOn, Backs, WorldInv;
    if a :| Arises(h, config, a) && WorldOf(a) == w {
      ArisesBacked(h, config, a);
    }
    if LeadsTo(h, config, EMPTY_WORLD, w) {
      var path: seq<World>, moves: seq<Move>, times: seq<int> :|
        IsPath(h, config, path, moves, times) && path[0] == EMPTY_WORLD && path[|path| - 1] == w;
      var a := RunsAreSystems(h, config, path, moves, times, |path| - 1);
    }
  }
}
