/** Tool calls that race for a committed probe: who may run the action, and why
    nothing settles a probe while its action is still running. */
module Dispatch {
  import opened Wrappers
  import opened Records
  import opened Journal
  import opened History
  import opened Transactions
  import opened Claims
  import opened Consultation
  import opened ProbeOrder
  import opened Harness
  import opened Invariants
  import opened Past
  import opened Sessions
  import opened Lifecycle
  import opened Effects
  import opened Clients

  /** One invocation of the tool that a probe has committed to. A frame that
      passes through without a probe is not kept. */
  datatype Frame =
    | Ready(id: CaseId, probe: nat, session: Session, tool: string, callId: string)     // saw the probe committed
    | Holding(id: CaseId, probe: nat, session: Session, tool: string, callId: string)   // took the lease
    | Running(id: CaseId, probe: nat, session: Session, tool: string,
              callId: string)   // claimed the probe; the action runs
    | Inner(id: CaseId, probe: nat, session: Session, tool: string,
            callId: string)     // re-entry of a running dispatch

  /** A call to recover or discard: what it read, and whether it then found the
      execution lease free. */
  datatype Check = Check(draft: Draft, foundFree: bool)

  datatype Hall = Hall(world: World, frames: map<nat, Frame>, checks: map<nat, Check>)

  predicate Holds(f: Frame) {
    f.Holding? || f.Running?
  }

  /** The middleware's decision on an invocation that finds a pending probe of its tool. */
  datatype Admission = PassThrough | Blocked | ReEnter | TryClaim

  /** What a dispatch is known by; the case is not part of it. */
  datatype Key = Key(session: Session, tool: string, callId: string)

  predicate Under(r: Frame, key: Key) {
    r.Running? && r.session == key.session && r.tool == key.tool && r.callId == key.callId
  }

  ghost predicate InFlight(frames: map<nat, Frame>, key: Key) {
    exists g :: g in frames && Under(frames[g], key)
  }

  ghost function Admit(c: Case, events: seq<Event>, frames: map<nat, Frame>, session: Session, tool: string,
                       callId: string): Admission {
    if c.probe.None? || c.probe.value.tool != tool then PassThrough
    else if c.probe.value.status.Executing? then
      if callId != "" && c.probe.value.callId == callId && InFlight(frames, Key(session, tool, callId)) then ReEnter
      else Blocked
    else if !c.probe.value.status.Committed? then PassThrough
    else if !Usable(c, events) then Blocked
    else TryClaim
  }

  /** An invocation of the probe's tool claims a committed probe, which replay then finds
      in order; while the probe executes it is let in if it is part of the very call
      that runs, and blocked otherwise; every other invocation is no concern of it. */
  lemma AdmitsExactly(config: Config, s: Slot, frames: map<nat, Frame>, session: Session, tool: string, callId: string)
    requires CaseInv(config, s)
    ensures s.file.Some?
    ensures var c := s.file.value.state;
            var concerned := c.probe.Some? && c.probe.value.tool == tool;
            var part := callId != "" && c.probe.Some? && c.probe.value.callId == callId
                        && exists g :: g in frames && frames[g].Running? && frames[g].session == session
                                       && frames[g].tool == tool && frames[g].callId == callId;
            match Admit(c, s.events, frames, session, tool, callId)
            case TryClaim => concerned && c.probe.value.status.Committed? && Usable(c, s.events)
            case ReEnter => concerned && c.probe.value.status.Executing? && part
            case Blocked => concerned && c.probe.value.status.Executing? && !part
            case PassThrough => !concerned || c.probe.value.status.Observed?
  {
    UsableIsFlags(config, s);
    PendingIsFresh(config, s);
    hide CaseInv, Usable;
    var key := Key(session, tool, callId);
    assert InFlight(frames, key) <==>
           exists g :: g in frames && frames[g].Running? && frames[g].session == session && frames[g].tool == tool
                       && frames[g].callId == callId by {
      if g :| g in frames && frames[g].Running? && frames[g].session == session && frames[g].tool == tool
              && frames[g].callId == callId {
        assert Under(frames[g], key);
      }
    }
  }

  datatype Turn =
    | Arrive(f: nat, id: CaseId, session: Session, tool: string, callId: string)
    | Take(f: nat)
    | Claim(f: nat, now: int)
    | Capture(f: nat, session: Session, status: Reported, unknownOrigin: bool, now: int)
    | Leave(f: nat)                                   // done, gave up, or died
    | Look(k: nat, id: CaseId)
    | TestLease(k: nat)                               // without keeping it
    | Settle(k: nat, session: Session, action: Action, now: int)
    | Other(move: Move)

  ghost predicate Fires(h: Hasher, config: Config, a: Hall, t: Turn, at: int, b: Hall) {
    var st := a.world.store;
    match t
    case Arrive(f, id, session, tool, callId) =>
      && f !in a.frames && IsActive(st, id, session)
      && var c := StateOf(st, id);
      (match Admit(c, st.slots[id].events, a.frames, session, tool, callId)
       case TryClaim => b == a.(frames := a.frames[f := Ready(id, c.probe.value.id, session, tool, callId)])
       case ReEnter => b == a.(frames := a.frames[f := Inner(id, c.probe.value.id, session, tool, callId)])
       case _ => b == a)
    case Take(f) =>
      && f in a.frames && a.frames[f].Ready? && a.frames[f].id !in a.world.leased
      && var r := a.frames[f];
      b == a.(world := a.world.(leased := a.world.leased + {r.id}),
              frames := a.frames[f := Holding(r.id, r.probe, r.session, r.tool, r.callId)])
    case Claim(f, now) =>
      && f in a.frames && a.frames[f].Holding?
      && var r := a.frames[f];
      && IsActive(st, r.id, r.session) && StateOf(st, r.id).probe.Some? && StateOf(st, r.id).probe.value.id == r.probe
      && var next := Next(h, config, a.world, Operates(r.id, r.session, StartProbe(r.tool, r.callId), now), at);
      && next.Ok?
      && b == a.(world := next.value, frames := a.frames[f := Running(r.id, r.probe, r.session, r.tool, r.callId)])
    case Capture(f, session, status, unknownOrigin, now) =>
      && f in a.frames && a.frames[f].Running?
      && var r := a.frames[f];
      && Exists(st, r.id) && StateOf(st, r.id).probe.Some? && StateOf(st, r.id).probe.value.id == r.probe
      && var next := Next(h, config, a.world, Operates(r.id, session, Observe(status, unknownOrigin), now), at);
      && next.Ok? && b == a.(world := next.value)
    case Leave(f) =>
      && f in a.frames
      && b == a.(world := if Holds(a.frames[f]) then a.world.(leased := a.world.leased - {a.frames[f].id}) else a.world,
                 frames := a.frames - {f})
    case Look(k, id) =>
      Exists(st, id) && b == a.(checks := a.checks[k := Check(Draft(id, StateOf(st, id), Some(st.slots[id].events)),
                                                              false)])
    case TestLease(k) =>
      && k in a.checks && a.checks[k].draft.id !in a.world.leased
      && b == a.(checks := a.checks[k := a.checks[k].(foundFree := true)])
    case Settle(k, session, action, now) =>
      && k in a.checks && (action == RecoverProbe(false) || action == DiscardProbe(false))
      && (SawExecuting(a.checks[k].draft) ==> a.checks[k].foundFree)
      && var r := Submit(h, config, now, a.world, a.checks[k].draft, session, action, at);
      && r.Ok? && b == a.(world := a.world.(store := r.value))
    case Other(m) =>
      && Quiet(m) && !m.Leases? && !m.Releases?
      && Next(h, config, a.world, m, at).Ok? && b == a.(world := Next(h, config, a.world, m, at).value)
  }

  predicate SawExecuting(d: Draft) {
    d.seen.probe.Some? && d.seen.probe.value.status.Executing?
  }

  // -------------------------------------------------------------- invariants

  /** The pending probe is `r`'s, executing, under `r`'s call. */
  predicate Executes(st: Store, r: Frame) {
    && Exists(st, r.id) && StateOf(st, r.id).probe.Some?
    && var p := StateOf(st, r.id).probe.value;
    p.id == r.probe && p.status.Executing? && p.callId == r.callId && p.tool == r.tool
  }

  /** If the pending probe of `r`'s case executes, it is `r`'s. */
  predicate NoneButOwn(st: Store, r: Frame) {
    && Exists(st, r.id)
    && (StateOf(st, r.id).probe.Some? && StateOf(st, r.id).probe.value.status.Executing? ==> Executes(st, r))
  }

  predicate IsObservationOf(e: Entry, p: nat) {
    e.ProbeObserved? && e.probe == p
  }

  /** The result of `r`'s probe is on the Timeline. */
  ghost predicate Captured(st: Store, r: Frame) {
    Exists(st, r.id) && exists i :: 0 <= i < |st.slots[r.id].events|
                                    && IsObservationOf(st.slots[r.id].events[i].body.entry, r.probe)
  }

  predicate SameHold(r: Frame, q: Frame) {
    Holds(r) && Holds(q) && r.id == q.id
  }

  /** Frames hold the lease of their case, and no two frames hold the same. */
  ghost predicate LeasesHeld(leased: set<CaseId>, frames: map<nat, Frame>) {
    && (forall f :: f in frames && Holds(frames[f]) ==> frames[f].id in leased)
    && (forall f, g :: f in frames && g in frames && SameHold(frames[f], frames[g]) ==> f == g)
  }

  /** A running action's probe is executing, or its result has been captured; and
      as long as it runs no other probe of the case executes. */
  ghost predicate RunsOwn(st: Store, r: Frame) {
    r.Running? ==> (Executes(st, r) || Captured(st, r)) && NoneButOwn(st, r)
  }

  /** What was seen executing has been started for good. */
  ghost predicate SeenStarted(st: Store, d: Draft) {
    SawExecuting(d) ==> Exists(st, d.id) && Beyond(st.slots[d.id].events, d.seen.probe.value.id, 1)
  }

  predicate Runs(r: Frame, d: Draft) {
    r.Running? && r.id == d.id && d.seen.probe.Some? && r.probe == d.seen.probe.value.id
  }

  /** A check that found the lease free looked at a probe nobody runs any more. */
  ghost predicate NobodyRuns(frames: map<nat, Frame>, c: Check) {
    c.foundFree && SawExecuting(c.draft) ==> forall f :: f in frames ==> !Runs(frames[f], c.draft)
  }

  ghost predicate CheckOk(st: Store, frames: map<nat, Frame>, c: Check) {
    DraftOk(st, c.draft) && SeenStarted(st, c.draft) && NobodyRuns(frames, c)
  }

  ghost predicate HallInv(h: Hasher, config: Config, a: Hall) {
    && WorldInv(h, config, a.world) && LeasesHeld(a.world.leased, a.frames)
    && (forall f :: f in a.frames ==> RunsOwn(a.world.store, a.frames[f]))
    && (forall k :: k in a.checks ==> CheckOk(a.world.store, a.frames, a.checks[k]))
  }

  // ------------------------------------------------------ what a move leaves

  /** A store step that leaves running probes alone and only ever appends. */
  ghost predicate Undisturbed(st: Store, after: Store, frames: map<nat, Frame>) {
    && (forall id :: Exists(st, id) ==> TokenRises(st, id, after) && st.slots[id].events <= after.slots[id].events)
    && (forall f :: f in frames && RunsOwn(st, frames[f]) ==> RunsOwn(after, frames[f]))
  }

  lemma CapturedStays(st: Store, after: Store, r: Frame)
    requires Captured(st, r) && Exists(after, r.id) && st.slots[r.id].events <= after.slots[r.id].events
    ensures Captured(after, r)
  {
    var i :| 0 <= i < |st.slots[r.id].events| && IsObservationOf(st.slots[r.id].events[i].body.entry, r.probe);
    assert after.slots[r.id].events[i] == st.slots[r.id].events[i];
  }

  lemma ExecutesStays(st: Store, id: CaseId, ch: Change, after: Store, r: Frame)
    requires Shifted(st, id, ch, after) && Outline(StateOf(st, id), ch) && Executes(st, r)
    requires r.id == id ==> !ch.entry.ProbeObserved? && !ch.entry.ProbeDiscarded?
    ensures Executes(after, r)
  {
    hide NextNumber, Filled;
  }

  predicate Spares(e: Entry, r: Frame) {
    (!e.ProbeObserved? && !e.ProbeDiscarded?) || IsObservationOf(e, r.probe)
  }

  lemma OwnStays(st: Store, id: CaseId, ch: Change, after: Store, r: Frame)
    requires Shifted(st, id, ch, after) && Outline(StateOf(st, id), ch) && NoneButOwn(st, r)
    requires r.id == id ==> !ch.entry.ProbeStarted?
    ensures NoneButOwn(after, r)
  {
    hide NextNumber, Filled;
  }

  lemma ShiftRunsOwn(st: Store, id: CaseId, ch: Change, after: Store, r: Frame)
    requires Shifted(st, id, ch, after) && Outline(StateOf(st, id), ch) && RunsOwn(st, r)
    requires r.Running? && r.id == id ==> !ch.entry.ProbeStarted? && (Executes(st, r) ==> Spares(ch.entry, r))
    ensures RunsOwn(after, r)
  {
    hide Outline, Executes, NoneButOwn;
    if r.Running? {
      OwnStays(st, id, ch, after, r);
      if Captured(st, r) {
        ShiftGrows(st, id, ch, after, r.id);
        CapturedStays(st, after, r);
      } else if r.id == id && IsObservationOf(ch.entry, r.probe) {
        assert IsObservationOf(after.slots[id].events[|st.slots[id].events|].body.entry, r.probe);
      } else {
        ExecutesStays(st, id, ch, after, r);
      }
    }
  }

  lemma ShiftUndisturbed(st: Store, id: CaseId, ch: Change, after: Store, frames: map<nat, Frame>)
    requires Shifted(st, id, ch, after) && Outline(StateOf(st, id), ch)
    requires forall f :: f in frames && frames[f].Running? && frames[f].id == id ==>
               !ch.entry.ProbeStarted? && (Executes(st, frames[f]) ==> Spares(ch.entry, frames[f]))
    ensures Undisturbed(st, after, frames)
  {
    hide Shifted, Outline, RunsOwn, Executes, Spares;
    forall other | Exists(st, other)
      ensures TokenRises(st, other, after) && st.slots[other].events <= after.slots[other].events
    {
      ShiftToken(st, id, ch, after, other);
      ShiftGrows(st, id, ch, after, other);
    }
    forall f | f in frames && RunsOwn(st, frames[f]) ensures RunsOwn(after, frames[f]) {
      ShiftRunsOwn(st, id, ch, after, frames[f]);
    }
  }

  lemma OpenUndisturbed(st: Store, id: CaseId, session: Session, after: Store, frames: map<nat, Frame>)
    requires OpenedBy(st, id, session, after)
    ensures Undisturbed(st, after, frames)
  {
    forall f | f in frames && RunsOwn(st, frames[f]) ensures RunsOwn(after, frames[f]) {
    }
  }

  /** Moves that handle no probe leave running actions alone. */
  lemma QuietUndisturbed(h: Hasher, config: Config, w: World, m: Move, at: int, frames: map<nat, Frame>)
    requires WorldInv(h, config, w) && Quiet(m) && Next(h, config, w, m, at).Ok?
    ensures WorldInv(h, config, Next(h, config, w, m, at).value)
    ensures Undisturbed(w.store, Next(h, config, w, m, at).value.store, frames)
  {
    hide WorldInv, Next, OpenedBy, Outline, Shifted, Undisturbed, Quiet, Executes;
    NextDone(h, config, w, m, at);
    var v := Next(h, config, w, m, at).value;
    if c, ch :| ChangedBy(w.store, w.leased, c, ch, LicenceOf(m), v.store) {
      ShiftUndisturbed(w.store, c, ch, v.store, frames);
    } else if c, session :| OpenedBy(w.store, c, session, v.store) {
      OpenUndisturbed(w.store, c, session, v.store, frames);
    } else {
      NothingUndisturbed(w.store, frames);
    }
  }

  lemma NothingUndisturbed(st: Store, frames: map<nat, Frame>)
    ensures Undisturbed(st, st, frames)
  {
  }

  /** A move that handles a probe, and the change it makes. */
  lemma HandledBy(h: Hasher, config: Config, w: World, id: CaseId, session: Session, a: Action, now: int, at: int)
    returns (ch: Change)
    requires WorldInv(h, config, w) && Handles(a) && Next(h, config, w, Operates(id, session, a, now), at).Ok?
    ensures
      var v := Next(h, config, w, Operates(id, session, a, now), at).value;
      && WorldInv(h, config, v) && v.intents == w.intents && v.leased == w.leased
      && Exists(w.store, id) && Shifted(w.store, id, ch, v.store) && Outline(StateOf(w.store, id), ch)
      && Perform(config, now, session, StateOf(w.store, id), w.store.slots[id].events, a) == Some(ch)
  {
    hide LifeInv, Perform, Shifted, Outline, Wrote, Write;
    AttemptKeeps(h, config, now, w.store, id, session, a, at);
    ch := Perform(config, now, session, StateOf(w.store, id), w.store.slots[id].events, a).value;
  }

  lemma HandledEntry(config: Config, now: int, session: Session, c: Case, events: seq<Event>, a: Action, ch: Change)
    requires Perform(config, now, session, c, events, a) == Some(ch)
    ensures a.StartProbe? ==>
              && c.probe.Some? && c.probe.value.status.Committed?
              && c.probe.value.tool == a.tool && ch.entry == ProbeStarted(c.probe.value.id)
              && ch.state.probe == Some(c.probe.value.(status := Executing, callId := a.callId))
              && ch.target.StartTarget?
    ensures a.Observe? ==> c.probe.Some? && IsObservationOf(ch.entry, c.probe.value.id)
    ensures a.RecoverProbe? || a.DiscardProbe? ==> !ch.entry.ProbeStarted?
  {
    hide PlanRevise, PlanCompare, PlanCommit, PlanClose, PlanPause, PlanStartOffer, PlanRecordOffer, PlanChoose,
         PlanExcuseProbe, PlanExcuseClose;
  }

  lemma StartExecutes(st: Store, ch: Change, after: Store, r: Frame)
    requires Shifted(st, r.id, ch, after) && StateOf(st, r.id).probe.Some?
             && StateOf(st, r.id).probe.value.id == r.probe
    requires StateOf(st, r.id).probe.value.tool == r.tool
    requires ch.state.probe == Some(StateOf(st, r.id).probe.value.(status := Executing, callId := r.callId))
             && ch.target.StartTarget?
    ensures Executes(after, r)
  {
    hide NextNumber, Filled;
  }

  // ------------------------------------------------------------- the checks

  lemma InOrder(h: Hasher, config: Config, w: World, id: CaseId)
    requires WorldInv(h, config, w) && Exists(w.store, id)
    ensures OrderOk(w.store.slots[id])
  {
    hide StoreInv, SingleActive, OrderOk, ReplayOk, GateInv, ModelOk, VersionOk, StaleOk, RepairsOk, CloseOk, PastOk,
         MarkerOk;
    assert SlotOk(config, w.store.slots[id]);
  }

  lemma CheckStays(h: Hasher, config: Config, st: Store, v: World, frames: map<nat, Frame>, c: Check)
    requires CheckOk(st, frames, c) && Undisturbed(st, v.store, frames) && WorldInv(h, config, v)
    ensures CheckOk(v.store, frames, c)
  {
    hide WorldInv, NobodyRuns, Beyond, RunsOwn, Orderly;
    var d := c.draft;
    assert TokenRises(st, d.id, v.store);
    DraftStays(st, v.store, d);
    if SawExecuting(d) {
      InOrder(h, config, v, d.id);
      var before, events := st.slots[d.id].events, v.store.slots[d.id].events;
      assert events[..|before|] == before && events[..|events|] == events;
      StaysBeyond(events, d.seen.probe.value.id, 1, |before|, |events|);
    }
  }

  lemma ChecksStay(h: Hasher, config: Config, a: Hall, v: World)
    requires HallInv(h, config, a) && WorldInv(h, config, v) && Undisturbed(a.world.store, v.store, a.frames)
    requires v.leased == a.world.leased
    ensures HallInv(h, config, a.(world := v))
  {
    hide WorldInv, CheckOk, RunsOwn;
    forall k | k in a.checks ensures CheckOk(v.store, a.frames, a.checks[k]) {
      CheckStays(h, config, a.world.store, v, a.frames, a.checks[k]);
    }
  }

  // --------------------------------------------------------------- each turn

  lemma OtherKeeps(h: Hasher, config: Config, a: Hall, m: Move, at: int, b: Hall)
    requires HallInv(h, config, a) && Fires(h, config, a, Other(m), at, b)
    ensures HallInv(h, config, b)
  {
    hide WorldInv, CheckOk, RunsOwn, LeasesHeld, Undisturbed, Next, Submit;
    QuietUndisturbed(h, config, a.world, m, at, a.frames);
    SameLeases(h, config, a.world, m, at);
    ChecksStay(h, config, a, Next(h, config, a.world, m, at).value);
  }

  lemma {:induction false} AdoptLeases(h: Hasher, config: Config, w: World, ancestors: seq<Session>, child: Session,
                                       keep: bool, at: int)
    ensures var r := AdoptFrom(h, config, w, ancestors, child, keep, at); r.Ok? ==> r.value.leased == w.leased
    decreases |ancestors|
  {
    hide Attempt, Vacant;
    if ancestors != [] {
      AdoptLeases(h, config, w, ancestors[..|ancestors| - 1], child, keep, at);
    }
  }

  lemma SameLeases(h: Hasher, config: Config, w: World, m: Move, at: int)
    requires !m.Leases? && !m.Releases? && Next(h, config, w, m, at).Ok?
    ensures Next(h, config, w, m, at).value.leased == w.leased
  {
    hide Attempt, Vacant, AcceptsModel, DeclaredOk, OpeningContext, AdoptFrom;
    if m.Adopts? {
      AdoptLeases(h, config, w, Ancestors(m.lineage, m.child), m.child, Pristine(w.store, m.child), at);
    }
  }

  lemma LeaseHolder(a: Hall, f: nat, g: nat)
    requires LeasesHeld(a.world.leased, a.frames) && f in a.frames && g in a.frames && Holds(a.frames[f])
             && Holds(a.frames[g])
    ensures a.frames[f].id == a.frames[g].id ==> f == g
  {
  }

  /** Claiming turns the holder of the lease into the runner of the probe. */
  lemma ClaimKeeps(h: Hasher, config: Config, a: Hall, f: nat, now: int, at: int, b: Hall)
    requires HallInv(h, config, a) && Fires(h, config, a, Turn.Claim(f, now), at, b)
    ensures HallInv(h, config, b)
  {
    hide WorldInv, Next, Perform, Outline, Shifted, CheckOk, RunsOwn, LeasesHeld, Undisturbed, Executes;
    var r, st := a.frames[f], a.world.store;
    var action := StartProbe(r.tool, r.callId);
    var ch := HandledBy(h, config, a.world, r.id, r.session, action, now, at);
    HandledEntry(config, now, r.session, StateOf(st, r.id), st.slots[r.id].events, action, ch);
    forall g | g in a.frames && a.frames[g].Running? ensures a.frames[g].id != r.id {
      LeaseHolder(a, f, g);
    }
    ShiftUndisturbed(st, r.id, ch, b.world.store, a.frames);
    ChecksStay(h, config, a, b.world);
    StartExecutes(st, ch, b.world.store, b.frames[f]);
    assert RunsOwn(b.world.store, b.frames[f]) by { ExecutesRuns(b.world.store, b.frames[f]); }
    ClaimLeases(a, f, b);
    ClaimChecks(h, config, a, f, b);
  }

  lemma ExecutesRuns(st: Store, r: Frame)
    requires Executes(st, r)
    ensures RunsOwn(st, r)
  {
  }

  lemma ClaimLeases(a: Hall, f: nat, b: Hall)
    requires LeasesHeld(a.world.leased, a.frames) && f in a.frames && Holds(a.frames[f])
             && b.world.leased == a.world.leased
    requires f in b.frames && b.frames == a.frames[f := b.frames[f]] && Holds(b.frames[f])
             && b.frames[f].id == a.frames[f].id
    ensures LeasesHeld(b.world.leased, b.frames)
  {
  }

  /** Nobody has looked at the newly claimed probe and seen it executing. */
  lemma ClaimChecks(h: Hasher, config: Config, a: Hall, f: nat, b: Hall)
    requires HallInv(h, config, a) && WorldInv(h, config, b.world) && b.checks == a.checks
    requires forall k :: k in a.checks ==> CheckOk(b.world.store, a.frames, a.checks[k])
    requires f in a.frames && f in b.frames && b.frames == a.frames[f := b.frames[f]]
    requires var r := b.frames[f];
             && Exists(a.world.store, r.id) && StateOf(a.world.store, r.id).probe.Some?
             && StateOf(a.world.store, r.id).probe.value.id == r.probe
               && StateOf(a.world.store, r.id).probe.value.status.Committed?
    ensures forall k :: k in b.checks ==> CheckOk(b.world.store, b.frames, b.checks[k])
  {
    hide WorldInv, LeasesHeld, RunsOwn, DraftOk;
    var r := b.frames[f];
    forall k | k in b.checks ensures CheckOk(b.world.store, b.frames, b.checks[k]) {
      var c := b.checks[k];
      assert CheckOk(a.world.store, a.frames, c);
      if Runs(r, c.draft) && SawExecuting(c.draft) {
        InOrder(h, config, a.world, r.id);
        assert false;
      }
    }
  }

  lemma CaptureKeeps(h: Hasher, config: Config, a: Hall, f: nat, session: Session, status: Reported,
                     unknownOrigin: bool, now: int, at: int, b: Hall)
    requires HallInv(h, config, a) && Fires(h, config, a, Capture(f, session, status, unknownOrigin, now), at, b)
    ensures HallInv(h, config, b)
  {
    hide WorldInv, Next, Perform, Outline, Shifted, CheckOk, RunsOwn, LeasesHeld, Undisturbed, Executes;
    var r, st := a.frames[f], a.world.store;
    var action := Observe(status, unknownOrigin);
    var ch := HandledBy(h, config, a.world, r.id, session, action, now, at);
    HandledEntry(config, now, session, StateOf(st, r.id), st.slots[r.id].events, action, ch);
    forall g | g in a.frames && a.frames[g].Running? && a.frames[g].id == r.id ensures Spares(ch.entry, a.frames[g]) {
      LeaseHolder(a, f, g);
    }
    ShiftUndisturbed(st, r.id, ch, b.world.store, a.frames);
    ChecksStay(h, config, a, b.world);
  }

  /** A check that succeeds is a client's write back, and so an atomic operation. */
  lemma SettleIsMove(h: Hasher, config: Config, a: Hall, k: nat, session: Session, action: Action, now: int, at: int)
    requires HallInv(h, config, a) && k in a.checks
             && Submit(h, config, now, a.world, a.checks[k].draft, session, action, at).Ok?
    ensures
      var d := a.checks[k].draft;
      && Exists(a.world.store, d.id) && d.seen == StateOf(a.world.store, d.id)
      && Next(h, config, a.world, Operates(d.id, session, action, now), at)
         == Ok(a.world.(store := Submit(h, config, now, a.world, d, session, action, at).value))
  {
    hide WorldInv, Next, Submit, SeenStarted, NobodyRuns, LeasesHeld, RunsOwn;
    assert CheckOk(a.world.store, a.frames, a.checks[k]);
    WriteBackIsAtomic(h, config, now, a.world, a.checks[k].draft, session, action, at);
  }

  /** A recovery or discard that succeeds while the action is still running finds
      the result already on the Timeline: it never settles a probe in execution. */
  lemma SettleSpares(h: Hasher, config: Config, a: Hall, k: nat, session: Session, action: Action, now: int, at: int,
                     b: Hall, f: nat)
    requires k in a.checks && f in a.frames && HallInv(h, config, a)
             && Fires(h, config, a, Settle(k, session, action, now), at, b)
    requires a.frames[f].Running? && a.frames[f].id == a.checks[k].draft.id
    ensures !Executes(a.world.store, a.frames[f]) && Captured(a.world.store, a.frames[f])
  {
    hide WorldInv, Next, Submit, SeenStarted, LeasesHeld, Captured, DraftOk;
    assert CheckOk(a.world.store, a.frames, a.checks[k]);
    SettleIsMove(h, config, a, k, session, action, now, at);
    assert RunsOwn(a.world.store, a.frames[f]);
    assert !Runs(a.frames[f], a.checks[k].draft) || !SawExecuting(a.checks[k].draft);
  }

  lemma SettleKeeps(h: Hasher, config: Config, a: Hall, k: nat, session: Session, action: Action, now: int, at: int,
                    b: Hall)
    requires HallInv(h, config, a) && Fires(h, config, a, Settle(k, session, action, now), at, b)
    ensures HallInv(h, config, b)
  {
    hide WorldInv, Next, Submit, Perform, CheckOk, RunsOwn, LeasesHeld, Undisturbed, Executes;
    var d := a.checks[k].draft;
    SettleIsMove(h, config, a, k, session, action, now, at);
    forall f | f in a.frames && a.frames[f].Running? && a.frames[f].id == d.id
      ensures !Executes(a.world.store, a.frames[f])
    {
      SettleSpares(h, config, a, k, session, action, now, at, b, f);
    }
    HandledKeeps(h, config, a, d.id, session, action, now, at);
  }

  /** Handling a probe that no frame is running. */
  lemma HandledKeeps(h: Hasher, config: Config, a: Hall, id: CaseId, session: Session, action: Action, now: int,
                     at: int)
    requires HallInv(h, config, a) && (action.RecoverProbe? || action.DiscardProbe?)
             && Next(h, config, a.world, Operates(id, session, action, now), at).Ok?
    requires forall f :: f in a.frames && a.frames[f].Running? && a.frames[f].id == id ==>
               !Executes(a.world.store, a.frames[f])
    ensures HallInv(h, config, a.(world := Next(h, config, a.world, Operates(id, session, action, now), at).value))
  {
    hide WorldInv, Next, Perform, Outline, Shifted, CheckOk, RunsOwn, LeasesHeld, Undisturbed, Executes;
    var v := Next(h, config, a.world, Operates(id, session, action, now), at).value;
    var ch := HandledBy(h, config, a.world, id, session, action, now, at);
    HandledEntry(config, now, session, StateOf(a.world.store, id), a.world.store.slots[id].events, action, ch);
    ShiftUndisturbed(a.world.store, id, ch, v.store, a.frames);
    ChecksStay(h, config, a, v);
  }

  lemma LookKeeps(h: Hasher, config: Config, a: Hall, k: nat, id: CaseId, at: int, b: Hall)
    requires HallInv(h, config, a) && Fires(h, config, a, Look(k, id), at, b)
    ensures HallInv(h, config, b)
  {
    hide WorldInv, LeasesHeld, RunsOwn, Orderly, Next, Submit;
    var c := b.checks[k];
    ReadTrue(h, config, a.world, id);
    InOrder(h, config, a.world, id);
    PendingCommitted(a.world.store.slots[id].events);
    assert CheckOk(b.world.store, b.frames, c);
  }

  lemma TestLeaseKeeps(h: Hasher, config: Config, a: Hall, k: nat, at: int, b: Hall)
    requires HallInv(h, config, a) && Fires(h, config, a, TestLease(k), at, b)
    ensures HallInv(h, config, b)
  {
    hide WorldInv, RunsOwn, SeenStarted, DraftOk, Next, Submit;
    assert CheckOk(a.world.store, a.frames, a.checks[k]);
    assert CheckOk(b.world.store, b.frames, b.checks[k]);
  }

  /** Turns that only move frames about. */
  lemma FramesKeep(h: Hasher, config: Config, a: Hall, b: Hall)
    requires HallInv(h, config, a) && b.world.store == a.world.store && b.world.intents == a.world.intents
             && b.checks == a.checks
    requires forall f :: f in b.frames && b.frames[f].Running? ==> f in a.frames && a.frames[f] == b.frames[f]
    requires LeasesHeld(b.world.leased, b.frames)
    ensures HallInv(h, config, b)
  {
    hide LifeInv, Executes, Captured, SeenStarted, DraftOk, LeasesHeld;
    forall f | f in b.frames ensures RunsOwn(b.world.store, b.frames[f]) {
      if b.frames[f].Running? {
        assert RunsOwn(a.world.store, a.frames[f]);
      }
    }
    forall k | k in b.checks ensures CheckOk(b.world.store, b.frames, b.checks[k]) {
      assert CheckOk(a.world.store, a.frames, a.checks[k]);
    }
  }

  lemma ArriveKeeps(h: Hasher, config: Config, a: Hall, t: Turn, at: int, b: Hall)
    requires HallInv(h, config, a) && Fires(h, config, a, t, at, b) && t.Arrive?
    ensures HallInv(h, config, b)
  {
    hide WorldInv, Admit, CheckOk, RunsOwn, IsActive, Next, Submit;
    FramesKeep(h, config, a, b);
  }

  lemma TakeKeeps(h: Hasher, config: Config, a: Hall, t: Turn, at: int, b: Hall)
    requires HallInv(h, config, a) && Fires(h, config, a, t, at, b) && (t.Take? || t.Leave?)
    ensures HallInv(h, config, b)
  {
    hide WorldInv, CheckOk, RunsOwn, Next, Submit;
    FramesKeep(h, config, a, b);
  }

  /** Every turn keeps the invariant. */
  lemma TurnKeeps(h: Hasher, config: Config, a: Hall, t: Turn, at: int, b: Hall)
    requires HallInv(h, config, a) && Fires(h, config, a, t, at, b)
    ensures HallInv(h, config, b)
  {
    hide Fires, HallInv;
    match t
    case Arrive(_, _, _, _, _) => ArriveKeeps(h, config, a, t, at, b);
    case Take(_) => TakeKeeps(h, config, a, t, at, b);
    case Leave(_) => TakeKeeps(h, config, a, t, at, b);
    case Claim(f, now) => ClaimKeeps(h, config, a, f, now, at, b);
    case Capture(f, session, status, unknownOrigin, now) => CaptureKeeps(h, config, a, f, session, status,
                                                                         unknownOrigin, now, at, b);
    case Look(k, id) => LookKeeps(h, config, a, k, id, at, b);
    case TestLease(k) => TestLeaseKeeps(h, config, a, k, at, b);
    case Settle(k, session, action, now) => SettleKeeps(h, config, a, k, session, action, now, at, b);
    case Other(m) => OtherKeeps(h, config, a, m, at, b);
  }

  // ----------------------------------------------------------------- all runs

  ghost predicate HallRun(h: Hasher, config: Config, halls: seq<Hall>, turns: seq<Turn>, times: seq<int>) {
    && |halls| == |turns| + 1 == |times| + 1
    && halls[0] == Hall(EMPTY_WORLD, map[], map[])
    && forall i :: 0 <= i < |turns| ==> Fires(h, config, halls[i], turns[i], times[i], halls[i + 1])
  }

  lemma {:induction false} HallsKeep(h: Hasher, config: Config, halls: seq<Hall>, turns: seq<Turn>, times: seq<int>,
                                     k: nat)
    requires HallRun(h, config, halls, turns, times) && k < |halls|
    ensures HallInv(h, config, halls[k])
  {
    hide Fires;
    if k == 0 {
      hide WorldInv;
      EmptyWorld(h, config);
    } else {
      hide HallInv;
      HallsKeep(h, config, halls, turns, times, k - 1);
      assert Fires(h, config, halls[k - 1], turns[k - 1], times[k - 1], halls[k - 1 + 1]);
      TurnKeeps(h, config, halls[k - 1], turns[k - 1], times[k - 1], halls[k]);
    }
  }

  /** In every run, two actions never run for the same case at once, and while an
      action runs its probe stays executing under its own call until its result
      has been captured. */
  lemma RunnersAlone(h: Hasher, config: Config, halls: seq<Hall>, turns: seq<Turn>, times: seq<int>, k: nat, f: nat,
                     g: nat)
    requires HallRun(h, config, halls, turns, times) && k < |halls|
    requires f in halls[k].frames && g in halls[k].frames && halls[k].frames[f].Running? && halls[k].frames[g].Running?
    ensures halls[k].frames[f].id == halls[k].frames[g].id ==> f == g
    ensures Executes(halls[k].world.store, halls[k].frames[f]) || Captured(halls[k].world.store, halls[k].frames[f])
  {
    HallsKeep(h, config, halls, turns, times, k);
    hide HallRun, WorldInv, CheckOk, Executes, Captured;
    assert RunsOwn(halls[k].world.store, halls[k].frames[f]);
    LeaseHolder(halls[k], f, g);
  }

  /** A claim is the first start of its probe, and nothing ever starts it again. */
  lemma ClaimedOnce(h: Hasher, config: Config, a: Hall, f: nat, now: int, at: int, b: Hall, i: nat)
    requires HallInv(h, config, a) && Fires(h, config, a, Turn.Claim(f, now), at, b) && f in b.frames
             && Exists(b.world.store, b.frames[f].id)
    requires i < |b.world.store.slots[b.frames[f].id].events|
    ensures b.world.store.slots[b.frames[f].id].events[i].body.entry == ProbeStarted(b.frames[f].probe)
            <==> i == |b.world.store.slots[b.frames[f].id].events| - 1
  {
    hide WorldInv, Next, Perform, Outline, CheckOk, RunsOwn, LeasesHeld, Undisturbed, Executes, Orderly;
    var r, st := a.frames[f], a.world.store;
    var action := StartProbe(r.tool, r.callId);
    var ch := HandledBy(h, config, a.world, r.id, r.session, action, now, at);
    HandledEntry(config, now, r.session, StateOf(st, r.id), st.slots[r.id].events, action, ch);
    var events := b.world.store.slots[r.id].events;
    InOrder(h, config, b.world, r.id);
    if i < |events| - 1 && events[i].body.entry == ProbeStarted(r.probe) {
      StartedOnce(events, i, |events| - 1);
    }
  }

  /** Every turn leaves the world alone or is one move on it. */
  lemma TurnIsMove(h: Hasher, config: Config, a: Hall, t: Turn, at: int, b: Hall) returns (m: Move)
    requires HallInv(h, config, a) && Fires(h, config, a, t, at, b)
    ensures b.world == a.world || Next(h, config, a.world, m, at) == Ok(b.world)
  {
    hide Next, Submit, WorldInv, CheckOk, RunsOwn, Admit;
    m := Leases("");
    match t
    case Take(f) =>
      m := Leases(a.frames[f].id);
      LeaseMoves(h, config, a.world, a.frames[f].id, at);
    case Leave(f) =>
      m := Releases(a.frames[f].id);
      LeaseMoves(h, config, a.world, a.frames[f].id, at);
    case Claim(f, now) =>
      var r := a.frames[f];
      m := Operates(r.id, r.session, StartProbe(r.tool, r.callId), now);
    case Capture(f, session, status, unknownOrigin, now) => m := Operates(a.frames[f].id, session,
                                                                          Observe(status, unknownOrigin), now);
    case Settle(k, session, action, now) =>
      SettleIsMove(h, config, a, k, session, action, now, at);
      m := Operates(a.checks[k].draft.id, session, action, now);
    case Other(other) => m := other;
    case _ =>
  }

  /** So what holds in every world of a run of moves holds here too. */
  lemma {:induction false} HallsSerialise(h: Hasher, config: Config, halls: seq<Hall>, turns: seq<Turn>,
                                          times: seq<int>, k: nat)
    returns (run: seq<World>, moves: seq<Move>, at: seq<int>)
    requires HallRun(h, config, halls, turns, times) && k < |halls|
    ensures IsRun(h, config, run, moves, at) && run[|run| - 1] == halls[k].world
  {
    hide HallInv, Fires, Next;
    if k == 0 {
      run, moves, at := [EMPTY_WORLD], [], [];
    } else {
      run, moves, at := HallsSerialise(h, config, halls, turns, times, k - 1);
      HallsKeep(h, config, halls, turns, times, k - 1);
      assert Fires(h, config, halls[k - 1], turns[k - 1], times[k - 1], halls[k - 1 + 1]);
      var m := TurnIsMove(h, config, halls[k - 1], turns[k - 1], times[k - 1], halls[k]);
      if halls[k].world != halls[k - 1].world {
        PathGrows(h, config, run, moves, at, m, times[k - 1], halls[k].world);
        run, moves, at := run + [halls[k].world], moves + [m], at + [times[k - 1]];
      }
    }
  }
}
