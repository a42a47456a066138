/** Re-entry: an invocation that is let through to a probe in execution. The check
    that lets it through names the session, the tool and the call, but not the
    case; this module shows when that is enough, and a run in which it is not. */
module ReEntry {
  import opened Wrappers
  import opened Records
  import opened History
  import opened Consultation
  import opened Transactions
  import opened Harness
  import opened Invariants
  import opened Sessions
  import opened Lifecycle
  import opened Effects
  import opened Progress
  import opened Walks
  import opened Clients
  import opened Dispatch

  /** The running frame that claimed the pending probe of the case is the one
      that is re-entered. */
  predicate Owns(st: Store, r: Frame, id: CaseId, key: Key) {
    Under(r, key) && r.id == id && Exists(st, id) && StateOf(st, id).probe.Some?
      && StateOf(st, id).probe.value.id == r.probe
  }

  ghost predicate OwnDispatch(st: Store, frames: map<nat, Frame>, id: CaseId, key: Key) {
    exists g :: g in frames && Owns(st, frames[g], id, key)
  }

  /** Some action in flight under the key is of this case. */
  ghost predicate InFlightOn(frames: map<nat, Frame>, id: CaseId, key: Key) {
    exists g :: g in frames && Under(frames[g], key) && frames[g].id == id
  }

  /** No action in flight under the key is of another case. */
  ghost predicate NoStranger(frames: map<nat, Frame>, id: CaseId, key: Key) {
    forall g :: g in frames && Under(frames[g], key) ==> frames[g].id == id
  }

  ghost predicate KeyOnce(frames: map<nat, Frame>, key: Key) {
    forall f, g :: f in frames && g in frames && Under(frames[f], key) && Under(frames[g], key) ==> f == g
  }

  ghost predicate Admitted(a: Hall, id: CaseId, key: Key) {
    && IsActive(a.world.store, id, key.session)
    && var st := a.world.store;
    Admit(StateOf(st, id), st.slots[id].events, a.frames, key.session, key.tool, key.callId).ReEnter?
  }

  // --------------------------------------------------------- one admission

  lemma RunsTheProbe(h: Hasher, config: Config, a: Hall, id: CaseId, g: nat)
    requires HallInv(h, config, a) && g in a.frames && a.frames[g].Running? && a.frames[g].id == id
    ensures Exists(a.world.store, id)
    ensures var p := StateOf(a.world.store, id).probe; p.Some? && p.value.status.Executing? ==>
              p.value.id == a.frames[g].probe
  {
    hide WorldInv, CheckOk, Captured, LeasesHeld;
    assert RunsOwn(a.world.store, a.frames[g]);
  }

  /** Exactly when re-entry meets the dispatch that claimed the probe: when an
      action in flight under its key is of the same case. It is enough that none is
      of another case; and where a key is in flight only once, that is the exact
      condition too. */
  lemma AdmissionExact(h: Hasher, config: Config, a: Hall, id: CaseId, key: Key)
    requires HallInv(h, config, a) && Admitted(a, id, key)
    ensures OwnDispatch(a.world.store, a.frames, id, key) <==> InFlightOn(a.frames, id, key)
    ensures NoStranger(a.frames, id, key) ==> OwnDispatch(a.world.store, a.frames, id, key)
    ensures KeyOnce(a.frames, key) ==>
              (OwnDispatch(a.world.store, a.frames, id, key) <==> NoStranger(a.frames, id, key))
  {
    hide HallInv, Usable;
    var st := a.world.store;
    var some :| some in a.frames && Under(a.frames[some], key);
    forall g | g in a.frames && Under(a.frames[g], key) && a.frames[g].id == id ensures Owns(st, a.frames[g], id, key) {
      RunsTheProbe(h, config, a, id, g);
    }
  }

  // -------------------------------------------------------------- whole runs

  /** Where a re-entered frame comes from. */
  lemma InnerArises(h: Hasher, config: Config, a: Hall, t: Turn, at: int, b: Hall, f: nat)
    requires Fires(h, config, a, t, at, b) && f in b.frames && b.frames[f].Inner?
    ensures (f in a.frames && a.frames[f] == b.frames[f])
            || (var r := b.frames[f];
                && t == Arrive(f, r.id, r.session, r.tool, r.callId)
                && Admitted(a, r.id, Key(r.session, r.tool, r.callId))
                && StateOf(a.world.store, r.id).probe.Some? && StateOf(a.world.store, r.id).probe.value.id == r.probe)
  {
    hide Next, Submit, Usable, InFlight;
  }

  /** Every re-entered frame of every run was let in at some turn, and then exactly
      met its own dispatch if an action in flight under its key was of its case. */
  lemma {:induction false} ReEntryExact(h: Hasher, config: Config, halls: seq<Hall>, turns: seq<Turn>, times: seq<int>,
                                        k: nat, f: nat) returns (i: nat)
    requires HallRun(h, config, halls, turns, times) && k < |halls|
    requires f in halls[k].frames && halls[k].frames[f].Inner?
    ensures i < k
    ensures var r, a := halls[k].frames[f], halls[i];
            var key := Key(r.session, r.tool, r.callId);
            && turns[i] == Arrive(f, r.id, r.session, r.tool, r.callId) && Admitted(a, r.id, key)
            && StateOf(a.world.store, r.id).probe.Some? && StateOf(a.world.store, r.id).probe.value.id == r.probe
            && (OwnDispatch(a.world.store, a.frames, r.id, key) <==> InFlightOn(a.frames, r.id, key))
            && (NoStranger(a.frames, r.id, key) ==> OwnDispatch(a.world.store, a.frames, r.id, key))
            && (KeyOnce(a.frames, key) ==>
                  (OwnDispatch(a.world.store, a.frames, r.id, key) <==> NoStranger(a.frames, r.id, key)))
  {
    hide Fires, HallInv, Admitted, OwnDispatch, InFlightOn, NoStranger, KeyOnce;
    assert k > 0 && Fires(h, config, halls[k - 1], turns[k - 1], times[k - 1], halls[k - 1 + 1]);
    InnerArises(h, config, halls[k - 1], turns[k - 1], times[k - 1], halls[k], f);
    if f in halls[k - 1].frames && halls[k - 1].frames[f] == halls[k].frames[f] {
      i := ReEntryExact(h, config, halls, turns, times, k - 1, f);
    } else {
      i := k - 1;
      var r := halls[k].frames[f];
      HallsKeep(h, config, halls, turns, times, i);
      AdmissionExact(h, config, halls[i], r.id, Key(r.session, r.tool, r.callId));
    }
  }

  lemma RunnerArises(h: Hasher, config: Config, a: Hall, t: Turn, at: int, b: Hall, f: nat)
    requires Fires(h, config, a, t, at, b) && f in b.frames && b.frames[f].Running?
    ensures (t.Claim? && t.f == f) || (f in a.frames && a.frames[f] == b.frames[f])
  {
    hide Next, Submit, Admit;
  }

  /** A running frame is the dispatch that claimed its probe: it did so at some turn
      and has been there ever since. */
  lemma {:induction false} RunnerClaimed(h: Hasher, config: Config, halls: seq<Hall>, turns: seq<Turn>, times: seq<int>,
                                         k: nat, f: nat) returns (i: nat)
    requires HallRun(h, config, halls, turns, times) && k < |halls|
    requires f in halls[k].frames && halls[k].frames[f].Running?
    ensures i < k && turns[i].Claim? && turns[i].f == f
    ensures forall j :: i < j <= k ==> f in halls[j].frames && halls[j].frames[f] == halls[k].frames[f]
  {
    hide Fires;
    assert k > 0 && Fires(h, config, halls[k - 1], turns[k - 1], times[k - 1], halls[k - 1 + 1]);
    RunnerArises(h, config, halls[k - 1], turns[k - 1], times[k - 1], halls[k], f);
    if turns[k - 1].Claim? && turns[k - 1].f == f {
      i := k - 1;
    } else {
      i := RunnerClaimed(h, config, halls, turns, times, k - 1, f);
    }
  }

  // ------------------------------------------------------------ the failing run

  lemma HallGrows(h: Hasher, config: Config, halls: seq<Hall>, turns: seq<Turn>, times: seq<int>, t: Turn, b: Hall)
    requires HallRun(h, config, halls, turns, times) && Fires(h, config, halls[|halls| - 1], t, 0, b)
    ensures HallRun(h, config, halls + [b], turns + [t], times + [0])
  {
    hide Fires;
  }

  /** A run as far as it has got. */
  datatype Story = Story(halls: seq<Hall>, turns: seq<Turn>, times: seq<int>)

  ghost predicate Told(h: Hasher, config: Config, story: Story, last: Hall) {
    HallRun(h, config, story.halls, story.turns, story.times) && story.halls[|story.halls| - 1] == last
  }

  lemma TellOn(h: Hasher, config: Config, story: Story, a: Hall, t: Turn, b: Hall) returns (longer: Story)
    requires Told(h, config, story, a) && Fires(h, config, a, t, 0, b)
    ensures Told(h, config, longer, b) && longer.halls == story.halls + [b]
  {
    hide Fires;
    HallGrows(h, config, story.halls, story.turns, story.times, t, b);
    longer := Story(story.halls + [b], story.turns + [t], story.times + [0]);
  }

  lemma MoveOn(h: Hasher, config: Config, story: Story, a: Hall, m: Move, v: World) returns (longer: Story)
    requires Told(h, config, story, a) && Quiet(m) && !m.Leases? && !m.Releases?
             && Next(h, config, a.world, m, 0) == Ok(v)
    ensures Told(h, config, longer, a.(world := v))
  {
    hide Next, Submit;
    assert Fires(h, config, a, Other(m), 0, a.(world := v));
    hide Fires;
    longer := TellOn(h, config, story, a, Other(m), a.(world := v));
  }

  /** The case is active with a probe that `key`'s call could claim, or has claimed. */
  predicate Stands(st: Store, id: CaseId, key: Key, status: ProbeStatus) {
    && IsActive(st, id, key.session)
    && var c := StateOf(st, id);
    && !c.stale && c.probe.Some? && c.probe.value.status == status && c.probe.value.tool == key.tool
    && (status.Executing? ==> c.probe.value.callId == key.callId)
  }

  lemma StartPlan(config: Config, c: Case, events: seq<Event>, key: Key)
    requires c.status.Active? && c.session == key.session != "" && c.probe.Some? && c.probe.value.status.Committed?
    requires c.probe.value.tool == key.tool
    ensures Perform(config, 0, key.session, c, events, StartProbe(key.tool, key.callId))
            == Some(Change(c.(probe := Some(c.probe.value.(status := Executing, callId := key.callId))),
                           ProbeStarted(c.probe.value.id), false, StartTarget))
  {
  }

  /** A committed probe can be started. */
  lemma Starts(h: Hasher, config: Config, w: World, id: CaseId, key: Key) returns (v: World)
    requires WorldInv(h, config, w) && Stands(w.store, id, key, Committed)
    ensures Next(h, config, w, Operates(id, key.session, StartProbe(key.tool, key.callId), 0), 0) == Ok(v)
    ensures WorldInv(h, config, v) && v.intents == w.intents && v.leased == w.leased
    ensures Stands(v.store, id, key, Executing) && v.store.slots == w.store.slots[id := v.store.slots[id]]
  {
    hide WorldInv, Next;
    StartPlan(config, StateOf(w.store, id), w.store.slots[id].events, key);
    hide Perform;
    var ch: Change;
    v, ch := Performs(h, config, w, id, key.session, StartProbe(key.tool, key.callId), 0, 0);
  }

  lemma ArrivesReady(h: Hasher, config: Config, a: Hall, f: nat, id: CaseId, key: Key)
    requires WorldInv(h, config, a.world) && f !in a.frames && Stands(a.world.store, id, key, Committed)
    ensures Fires(h, config, a, Arrive(f, id, key.session, key.tool, key.callId), 0,
                  a.(frames := a.frames[f := Ready(id, StateOf(a.world.store, id).probe.value.id, key.session,
                                                   key.tool, key.callId)]))
  {
    hide WorldInv, Next, Submit, CaseInv, Usable, InFlight;
    CaseHolds(h, config, a.world, id);
    UsableIsFlags(config, a.world.store.slots[id]);
  }

  /** An invocation arrives, takes the lease and claims the probe. */
  lemma ClaimsProbe(h: Hasher, config: Config, story: Story, a: Hall, f: nat, id: CaseId, key: Key)
    returns (longer: Story, v: World)
    requires Told(h, config, story, a) && WorldInv(h, config, a.world)
    requires Stands(a.world.store, id, key, Committed) && f !in a.frames && id !in a.world.leased
    ensures WorldInv(h, config, v) && v.leased == a.world.leased + {id}
    ensures Stands(v.store, id, key, Executing) && v.store.slots == a.world.store.slots[id := v.store.slots[id]]
    ensures Told(h, config, longer,
                 Hall(v, a.frames[f := Running(id, StateOf(a.world.store, id).probe.value.id, key.session, key.tool,
                                               key.callId)], a.checks))
  {
    hide WorldInv, Next, Submit, Told, Admit;
    var p := StateOf(a.world.store, id).probe.value.id;
    var ready := a.(frames := a.frames[f := Ready(id, p, key.session, key.tool, key.callId)]);
    ArrivesReady(h, config, a, f, id, key);
    var held := World(a.world.store, a.world.intents, a.world.leased + {id});
    var holding := Hall(held, a.frames[f := Holding(id, p, key.session, key.tool, key.callId)], a.checks);
    assert ready.frames[f := Holding(id, p, key.session, key.tool, key.callId)] == holding.frames;
    assert Fires(h, config, ready, Take(f), 0, holding);
    LeasedKeeps(h, config, a.world, held);
    v := Starts(h, config, held, id, key);
    var running := Hall(v, a.frames[f := Running(id, p, key.session, key.tool, key.callId)], a.checks);
    assert holding.frames[f := Running(id, p, key.session, key.tool, key.callId)] == running.frames;
    assert Fires(h, config, holding, Turn.Claim(f, 0), 0, running);
    hide Fires;
    longer := TellOn(h, config, story, a, Arrive(f, id, key.session, key.tool, key.callId), ready);
    longer := TellOn(h, config, longer, ready, Take(f), holding);
    longer := TellOn(h, config, longer, holding, Turn.Claim(f, 0), running);
  }

  lemma LeasedKeeps(h: Hasher, config: Config, w: World, v: World)
    requires WorldInv(h, config, w) && v.store == w.store && v.intents == w.intents
    ensures WorldInv(h, config, v)
  {
    hide LifeInv;
  }

  predicate Ordinary(tool: string) {
    tool != "" && tool != "clarify" && !Reserved(tool)
  }

  /** A case is opened on a vacant session and commits a probe. */
  lemma OpensAndCommits(h: Hasher, config: Config, story: Story, a: Hall, id: CaseId, key: Key)
    returns (longer: Story, v: World)
    requires Told(h, config, story, a) && WorldInv(h, config, a.world) && !config.enabled
    requires key.session != "" && Ordinary(key.tool) && Vacant(a.world.store, key.session) && !Exists(a.world.store, id)
    ensures WorldInv(h, config, v) && v.leased == a.world.leased && Told(h, config, longer, a.(world := v))
    ensures Stands(v.store, id, key, Committed) && v.store.slots == a.world.store.slots[id := v.store.slots[id]]
  {
    hide WorldInv, Next, Told, Vacant;
    var w := OpensOn(h, config, a.world, id, key.session, 0);
    longer := MoveOn(h, config, story, a, Opens(id, key.session, BARE, []), w);
    v := CommitsOn(h, config, w, id, key.session, key.tool, 0);
    longer := MoveOn(h, config, longer, a.(world := w),
                     Operates(id, key.session, CommitProbe(key.tool, SystemState, None), 0), v);
  }

  /** The claiming frame is gone, and its probe still executes. */
  lemma Leaves(h: Hasher, config: Config, story: Story, a: Hall, f: nat) returns (longer: Story, b: Hall)
    requires Told(h, config, story, a) && f in a.frames && a.frames[f].Running?
    ensures b == Hall(World(a.world.store, a.world.intents, a.world.leased - {a.frames[f].id}), a.frames - {f},
                      a.checks)
    ensures Told(h, config, longer, b)
  {
    hide Next, Submit, Told;
    b := Hall(World(a.world.store, a.world.intents, a.world.leased - {a.frames[f].id}), a.frames - {f}, a.checks);
    assert Fires(h, config, a, Leave(f), 0, b);
    hide Fires;
    longer := TellOn(h, config, story, a, Leave(f), b);
  }

  /** The start of the failing run: a dispatch claims the probe of `first`, and while
      its action runs the session pauses that case and opens another one. */
  lemma FirstRuns(h: Hasher, config: Config, first: CaseId, second: CaseId, key: Key) returns (story: Story, a: Hall)
    requires !config.enabled && key.session != "" && Ordinary(key.tool) && first != second
    ensures Told(h, config, story, a) && WorldInv(h, config, a.world) && a.world.leased == {first}
    ensures Vacant(a.world.store, key.session) && !Exists(a.world.store, second)
    ensures a.frames.Keys == {0} && Under(a.frames[0], key) && a.frames[0].id == first
  {
    hide WorldInv, Next, Fires, Vacant;
    var start := Hall(EMPTY_WORLD, map[], map[]);
    story := Story([start], [], []);
    EmptyWorld(h, config);
    assert Vacant(EMPTY_WORLD.store, key.session) by { EmptyIsVacant(key.session); }
    assert Told(h, config, story, start);
    hide Told;
    var v: World;
    story, v := OpensAndCommits(h, config, story, start, first, key);
    a := start.(world := v);
    story, v := ClaimsProbe(h, config, story, a, 0, first, key);
    a := Hall(v, a.frames[0 := Running(first, StateOf(a.world.store, first).probe.value.id, key.session, key.tool,
                                       key.callId)], a.checks);
    v := PausesOn(h, config, a.world, first, key.session, 0);
    story := MoveOn(h, config, story, a, Pauses(key.session, false), v);
    a := a.(world := v);
  }

  lemma EmptyIsVacant(s: Session)
    ensures Vacant(EMPTY_WORLD.store, s)
  {
  }

  /** Re-entry does fail to meet its own dispatch: there is a run in which the action
      of one case lets an invocation in to the probe of another case that nobody
      runs any more. The same session, tool and call claimed both, the first case was
      paused while its action ran, and the second claim was left without a result. */
  lemma StrangerLetsIn(h: Hasher, config: Config, first: CaseId, second: CaseId, key: Key)
    returns (story: Story, a: Hall, b: Hall, f: nat)
    requires !config.enabled && key.session != "" && key.callId != "" && Ordinary(key.tool) && first != second
    ensures Told(h, config, story, b) && |story.halls| > 1 && story.halls[|story.halls| - 2] == a
    ensures Admitted(a, second, key) && !OwnDispatch(a.world.store, a.frames, second, key)
    ensures f in b.frames && b.frames[f].Inner? && b.frames[f].id == second
    ensures forall g :: g in b.frames && b.frames[g].Running? ==> b.frames[g].id == first
  {
    hide WorldInv, Next, Fires, Told, Vacant;
    story, a := FirstRuns(h, config, first, second, key);
    var v: World;
    story, v := OpensAndCommits(h, config, story, a, second, key);
    a := a.(world := v);
    story, v := ClaimsProbe(h, config, story, a, 1, second, key);
    a := Hall(v, a.frames[1 := Running(second, StateOf(a.world.store, second).probe.value.id, key.session, key.tool,
                                       key.callId)], a.checks);
    story, a := Leaves(h, config, story, a, 1);
    assert a.frames.Keys == {0};
    assert Under(a.frames[0], key) && Stands(a.world.store, second, key, Executing);
    f := 2;
    story, b := ReEnters(h, config, story, a, f, second, key);
  }

  lemma ReEnters(h: Hasher, config: Config, story: Story, a: Hall, f: nat, id: CaseId, key: Key)
    returns (longer: Story, b: Hall)
    requires Told(h, config, story, a) && f !in a.frames && key.callId != ""
    requires Stands(a.world.store, id, key, Executing) && InFlight(a.frames, key)
    ensures Admitted(a, id, key) && Told(h, config, longer, b)
    ensures |longer.halls| > 1 && longer.halls[|longer.halls| - 2] == a
    ensures b.frames == a.frames[f := Inner(id, StateOf(a.world.store, id).probe.value.id, key.session, key.tool,
                                            key.callId)]
  {
    hide Next, Submit, Usable, InFlight, Told;
    b := a.(frames := a.frames[f := Inner(id, StateOf(a.world.store, id).probe.value.id, key.session, key.tool,
                                          key.callId)]);
    var t := Arrive(f, id, key.session, key.tool, key.callId);
    assert Fires(h, config, a, t, 0, b);
    hide Fires;
    longer := TellOn(h, config, story, a, t, b);
    LastTold(h, config, story, a);
  }

  lemma LastTold(h: Hasher, config: Config, story: Story, a: Hall)
    requires Told(h, config, story, a)
    ensures |story.halls| > 0 && story.halls[|story.halls| - 1] == a
  {
    hide Fires;
  }

  // ------------------------------------------- when no call names two cases

  /** Turn `i` claims a probe of case `id` for a call of a tool. */
  predicate Claims(halls: seq<Hall>, turns: seq<Turn>, i: nat, id: CaseId, tool: string, callId: string) {
    && i < |turns| && i + 1 < |halls| && turns[i].Claim? && turns[i].f in halls[i + 1].frames
    && var r := halls[i + 1].frames[turns[i].f];
    r.Running? && r.id == id && r.tool == tool && r.callId == callId
  }

  /** The host never uses one call of a tool for the probes of two cases. */
  ghost predicate CallsNameCases(halls: seq<Hall>, turns: seq<Turn>) {
    forall i, j, a, b, tool, callId ::
      Claims(halls, turns, i, a, tool, callId) && Claims(halls, turns, j, b, tool, callId) ==> a == b
  }

  /** The pending probe of a case executes under a call of a tool. */
  predicate ExecutesUnder(st: Store, id: CaseId, tool: string, callId: string) {
    && Exists(st, id) && StateOf(st, id).probe.Some?
    && var p := StateOf(st, id).probe.value;
    p.status.Executing? && p.tool == tool && p.callId == callId
  }

  lemma ShiftedExecutes(st: Store, c: CaseId, ch: Change, after: Store, id: CaseId, tool: string, callId: string)
    requires Shifted(st, c, ch, after) && Outline(StateOf(st, c), ch) && !ch.entry.ProbeStarted?
    requires ExecutesUnder(after, id, tool, callId)
    ensures ExecutesUnder(st, id, tool, callId)
  {
    hide NextNumber, Filled;
  }

  lemma QuietExecutes(h: Hasher, config: Config, w: World, m: Move, at: int, id: CaseId, tool: string, callId: string)
    requires WorldInv(h, config, w) && Quiet(m) && Next(h, config, w, m, at).Ok?
    requires ExecutesUnder(Next(h, config, w, m, at).value.store, id, tool, callId)
    ensures ExecutesUnder(w.store, id, tool, callId)
  {
    hide WorldInv, Next, Outline, Shifted, Quiet, ExecutesUnder;
    NextDone(h, config, w, m, at);
    var v := Next(h, config, w, m, at).value;
    if c, ch :| ChangedBy(w.store, w.leased, c, ch, LicenceOf(m), v.store) {
      ShiftedExecutes(w.store, c, ch, v.store, id, tool, callId);
    } else if c, session :| OpenedBy(w.store, c, session, v.store) {
      OpenedExecutes(w.store, c, session, v.store, id, tool, callId);
    }
  }

  lemma OpenedExecutes(st: Store, c: CaseId, session: Session, after: Store, id: CaseId, tool: string, callId: string)
    requires OpenedBy(st, c, session, after) && ExecutesUnder(after, id, tool, callId)
    ensures ExecutesUnder(st, id, tool, callId)
  {
  }

  lemma HandledExecutes(h: Hasher, config: Config, w: World, c: CaseId, session: Session, a: Action, now: int, at: int,
                        id: CaseId, tool: string, callId: string)
    requires WorldInv(h, config, w) && Handles(a) && Next(h, config, w, Operates(c, session, a, now), at).Ok?
    requires !a.StartProbe? || (a.tool == tool && a.callId == callId ==> c != id)
    requires ExecutesUnder(Next(h, config, w, Operates(c, session, a, now), at).value.store, id, tool, callId)
    ensures ExecutesUnder(w.store, id, tool, callId)
  {
    hide WorldInv, Next, Perform, Outline, Shifted;
    var ch := HandledBy(h, config, w, c, session, a, now, at);
    HandledEntry(config, now, session, StateOf(w.store, c), w.store.slots[c].events, a, ch);
    var v := Next(h, config, w, Operates(c, session, a, now), at).value;
    if a.StartProbe? {
      StartedElsewhere(w.store, c, ch, v.store, id, tool, callId);
    } else {
      ShiftedExecutes(w.store, c, ch, v.store, id, tool, callId);
    }
  }

  lemma StartedElsewhere(st: Store, c: CaseId, ch: Change, after: Store, id: CaseId, tool: string, callId: string)
    requires Shifted(st, c, ch, after) && ch.state.probe.Some? && ch.target.StartTarget?
    requires ch.state.probe.value.tool == tool && ch.state.probe.value.callId == callId ==> c != id
    requires ExecutesUnder(after, id, tool, callId)
    ensures ExecutesUnder(st, id, tool, callId)
  {
    hide NextNumber, Filled;
  }

  /** A probe comes to execute by a claim and in no other way. */
  lemma ExecutingArises(h: Hasher, config: Config, a: Hall, t: Turn, at: int, b: Hall, id: CaseId, tool: string,
                        callId: string)
    requires HallInv(h, config, a) && Fires(h, config, a, t, at, b) && ExecutesUnder(b.world.store, id, tool, callId)
    ensures ExecutesUnder(a.world.store, id, tool, callId)
            || (t.Claim? && t.f in b.frames && b.frames[t.f].Running? && b.frames[t.f].id == id
                && b.frames[t.f].tool == tool && b.frames[t.f].callId == callId)
  {
    hide WorldInv, Next, Submit, Admit, CheckOk, RunsOwn, LeasesHeld, ExecutesUnder;
    match t
    case Claim(f, now) =>
      var r := a.frames[f];
      if !(r.id == id && r.tool == tool && r.callId == callId) {
        HandledExecutes(h, config, a.world, r.id, r.session, StartProbe(r.tool, r.callId), now, at, id, tool, callId);
      }
    case Capture(f, session, status, unknownOrigin, now) =>
      HandledExecutes(h, config, a.world, a.frames[f].id, session, Observe(status, unknownOrigin), now, at, id, tool,
                      callId);
    case Settle(k, session, action, now) =>
      SettleIsMove(h, config, a, k, session, action, now, at);
      HandledExecutes(h, config, a.world, a.checks[k].draft.id, session, action, now, at, id, tool, callId);
    case Other(m) => QuietExecutes(h, config, a.world, m, at, id, tool, callId);
    case _ =>
  }

  lemma {:induction false} ExecutingWasClaimed(h: Hasher, config: Config, halls: seq<Hall>, turns: seq<Turn>,
                                               times: seq<int>,
                                               k: nat, id: CaseId, tool: string, callId: string) returns (i: nat)
    requires HallRun(h, config, halls, turns, times) && k < |halls|
    requires ExecutesUnder(halls[k].world.store, id, tool, callId)
    ensures Claims(halls, turns, i, id, tool, callId)
  {
    hide Fires, HallInv;
    assert k > 0 && Fires(h, config, halls[k - 1], turns[k - 1], times[k - 1], halls[k - 1 + 1]);
    HallsKeep(h, config, halls, turns, times, k - 1);
    ExecutingArises(h, config, halls[k - 1], turns[k - 1], times[k - 1], halls[k], id, tool, callId);
    if ExecutesUnder(halls[k - 1].world.store, id, tool, callId) {
      i := ExecutingWasClaimed(h, config, halls, turns, times, k - 1, id, tool, callId);
    } else {
      i := k - 1;
    }
  }

  /** Under a host that never uses one call of a tool for two cases, every re-entry
      meets the dispatch that claimed the probe, so no frame outside it ever runs the
      action while the probe executes. */
  lemma DistinctCallsKeepApart(h: Hasher, config: Config, halls: seq<Hall>, turns: seq<Turn>, times: seq<int>,
                               k: nat, id: CaseId, key: Key)
    requires HallRun(h, config, halls, turns, times) && k < |halls| && CallsNameCases(halls, turns)
    requires Admitted(halls[k], id, key)
    ensures OwnDispatch(halls[k].world.store, halls[k].frames, id, key)
  {
    hide Fires, HallInv, OwnDispatch, Usable;
    var a := halls[k];
    var i := ExecutingWasClaimed(h, config, halls, turns, times, k, id, key.tool, key.callId);
    forall g | g in a.frames && Under(a.frames[g], key) ensures a.frames[g].id == id {
      var j := RunnerClaimed(h, config, halls, turns, times, k, g);
      assert halls[j + 1].frames[g] == a.frames[g];
      assert Claims(halls, turns, j, a.frames[g].id, key.tool, key.callId);
    }
    HallsKeep(h, config, halls, turns, times, k);
    AdmissionExact(h, config, a, id, key);
  }
}
