/** Where the journals are those that lifecycle moves plan, a run of the crash machine
    is a run of the lifecycle: what holds in every world of such a run holds on every
    disk. */
module SystemRuns {
  import opened Records
  import opened History
  import opened Consultation
  import opened Invariants
  import opened Past
  import opened Sessions
  import opened Lifecycle
  import opened Effects
  import opened CrashRuns

  /** The machine, the order of its commits, the prepared compressions and the
      leases held. */
  datatype System = System(machine: Machine, log: seq<Stamp>, intents: map<Intent, CaseId>, leased: set<CaseId>)

  const FIRST: System := System(BLANK, [], map[], {})

  function WorldOf(a: System): World {
    World(StoreOn(a.machine.disk, a.log), a.intents, a.leased)
  }

  datatype Doing =
    | Durable(action: Recovery.Action)          // a write, a check, a crash, a cache lost or rebuilt
    | Plans(action: Recovery.Action, move: Move, at: int)  // a journal, as a lifecycle move plans it
    | Beside(move: Move, at: int)               // a move that writes no journal

  /** The transition is what the move makes of the store. Intents are removed after
      the commit, by a move of their own. */
  ghost predicate Lawful(h: Hasher, config: Config, w: World, a: Recovery.Action, m: Move, at: int)
    requires a.Begin?
  {
    && Asked(h, w.store, a).Ok?
    && Next(h, config, w, m, at) == Ok(w.(store := Asked(h, w.store, a).value))
  }

  ghost predicate SystemStep(h: Hasher, config: Config, a: System, d: Doing, b: System) {
    match d
    case Durable(action) =>
      !action.Begin? && Recovery.Micro(h, a.machine, action, b.machine) && b == a.(machine := b.machine)
    case Plans(action, move, at) =>
      && action.Begin? && Recovery.Micro(h, a.machine, action, b.machine)
      && Lawful(h, config, WorldOf(a), action, move, at)
      && b == a.(machine := b.machine, log := LogAfter(h, a.machine, a.log, action))
    case Beside(move, at) =>
      var r := Next(h, config, WorldOf(a), move, at);
      r.Ok? && r.value.store == WorldOf(a).store && b == a.(intents := r.value.intents, leased := r.value.leased)
  }

  ghost predicate SystemRun(h: Hasher, config: Config, run: seq<System>, doings: seq<Doing>) {
    && |run| == |doings| + 1 && run[0] == FIRST
    && forall k :: 0 <= k < |doings| ==> SystemStep(h, config, run[k], doings[k], run[k + 1])
  }

  /** Each step is nothing to the world, or one lifecycle move. */
  lemma StepIsMove(h: Hasher, config: Config, a: System, d: Doing, b: System)
    requires Backs(h, a.machine, a.log) && SystemStep(h, config, a, d, b)
    ensures Backs(h, b.machine, b.log)
    ensures match d
            case Durable(_) => WorldOf(b) == WorldOf(a)
            case Plans(_, m, at) => Next(h, config, WorldOf(a), m, at) == Ok(WorldOf(b))
            case Beside(m, at) => Next(h, config, WorldOf(a), m, at) == Ok(WorldOf(b))
  {
    hide Backs, Recovery.Micro, Next, Asked, StoreOn;
    if !d.Beside? {
      StepBacks(h, a.machine, a.log, d.action, b.machine);
    }
  }

  /** Every disk of every run, with crashes anywhere and the cache lost at any time,
      stands for a world of a lifecycle run. */
  lemma {:induction false} SystemsAreRuns(h: Hasher, config: Config, run: seq<System>, doings: seq<Doing>, k: nat)
    requires SystemRun(h, config, run, doings) && k < |run|
    ensures Backs(h, run[k].machine, run[k].log) && LeadsTo(h, config, EMPTY_WORLD, WorldOf(run[k]))
  {
    hide Backs, SystemStep, Next, LeadsTo;
    if k == 0 {
      BlankBacked(h);
      LeadsNowhere(h, config, EMPTY_WORLD);
    } else {
      hide StoreOn;
      SystemsAreRuns(h, config, run, doings, k - 1);
      assert SystemStep(h, config, run[k - 1], doings[k - 1], run[k - 1 + 1]);
      StepIsMove(h, config, run[k - 1], doings[k - 1], run[k]);
      match doings[k - 1]
      case Durable(_) =>
      case Plans(_, m, at) => LeadsFurther(h, config, EMPTY_WORLD, WorldOf(run[k - 1]), m, at, WorldOf(run[k]));
      case Beside(m, at) => LeadsFurther(h, config, EMPTY_WORLD, WorldOf(run[k - 1]), m, at, WorldOf(run[k]));
    }
  }

  /** So everything that holds in every world holds of what lies on every disk with
      no journal pending, and of what recovery makes of every other. */
  lemma DisksAreSound(h: Hasher, config: Config, run: seq<System>, doings: seq<Doing>, k: nat)
    requires SystemRun(h, config, run, doings) && k < |run|
    ensures WorldInv(h, config, WorldOf(run[k]))
    ensures Recovery.NoJournal(run[k].machine.disk) ==> WorldOf(run[k]).store.slots == run[k].machine.disk.slots
  {
    hide Recovery.Inv, WorldInv, Next, LeadsTo, SystemStep, StoreInv;
    SystemsAreRuns(h, config, run, doings, k);
    EmptyWorld(h, config);
    LeadsKeep(h, config, EMPTY_WORLD, WorldOf(run[k]));
    if Recovery.NoJournal(run[k].machine.disk) {
      NothingHidden(h, run[k].machine);
    }
  }

  /** In particular, no disk of any run shows two active cases on one session. */
  lemma OneActiveOnDisk(h: Hasher, config: Config, run: seq<System>, doings: seq<Doing>, k: nat,
                        a: CaseId, b: CaseId)
    requires SystemRun(h, config, run, doings) && k < |run| && Recovery.NoJournal(run[k].machine.disk)
    requires a in run[k].machine.disk.slots && b in run[k].machine.disk.slots
    requires var x, y := run[k].machine.disk.slots[a].file, run[k].machine.disk.slots[b].file;
             && x.Some? && y.Some? && x.value.state.status.Active? && y.value.state.status.Active?
             && x.value.state.session == y.value.state.session
    ensures a == b
  {
    hide SystemRun, StoreInv, CaseInv, PastOk, MarkerOk;
    DisksAreSound(h, config, run, doings, k);
    var st := WorldOf(run[k]).store;
    var s := StateOf(st, a).session;
    assert SlotOk(config, st.slots[a]);
    assert IsActive(st, a, s) && IsActive(st, b, s);
  }
}
