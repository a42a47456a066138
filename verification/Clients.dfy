/** Clients that read a case, think, and write back later, under the write token
    of the case: every write that succeeds is one atomic move. */
module Clients {
  import opened Wrappers
  import opened Records
  import opened Journal
  import opened History
  import opened Transactions
  import opened Consultation
  import opened Harness
  import opened Sessions
  import opened Lifecycle
  import opened Effects
  import opened Resumption

  /** What a client holds: the record it read, and, from a later read, the Timeline. */
  datatype Draft = Draft(id: CaseId, seen: Case, events: Option<seq<Event>>)

  /** The shared world and what each client has read so far. */
  datatype Office = Office(world: World, drafts: map<nat, Draft>)

  datatype ClientStep =
    | ReadCase(client: nat, id: CaseId)
    | ReadEvents(client: nat)
    | WriteBack(client: nat, session: Session, action: Action, now: int)
    | Elsewhere(move: Move)

  /** Writing back what was planned from the draft. Refused writes change nothing. */
  ghost function Submit(h: Hasher, config: Config, now: int, w: World, d: Draft, session: Session, a: Action,
                        at: int): Result<Store> {
    if IsLifecycle(a) || d.events.None? then Err(NotAllowed)
    else match Perform(config, now, session, d.seen, d.events.value, a)
      case None => Err(NotAllowed)
      case Some(ch) => Write(h, w.store, ch.state, ch.entry, ch.archive, ch.target, at)
  }

  ghost predicate ClientTurn(h: Hasher, config: Config, o: Office, step: ClientStep, at: int, p: Office) {
    match step
    case ReadCase(client, id) =>
      Exists(o.world.store, id) && p == o.(drafts := o.drafts[client := Draft(id, StateOf(o.world.store, id), None)])
    case ReadEvents(client) =>
      && client in o.drafts && Exists(o.world.store, o.drafts[client].id)
      && var d := o.drafts[client];
      p == o.(drafts := o.drafts[client := d.(events := Some(o.world.store.slots[d.id].events))])
    case WriteBack(client, session, a, now) =>
      && client in o.drafts
      && var r := Submit(h, config, now, o.world, o.drafts[client], session, a, at);
      p == o.(world := if r.Ok? then o.world.(store := r.value) else o.world)
    case Elsewhere(m) =>
      Next(h, config, o.world, m, at).Ok? && p == o.(world := Next(h, config, o.world, m, at).value)
  }

  /** A draft whose token is current tells the truth about the case. */
  predicate DraftOk(st: Store, d: Draft) {
    && Exists(st, d.id) && d.seen.id == d.id
    && d.seen.revision <= StateOf(st, d.id).revision
    && (d.seen.revision == StateOf(st, d.id).revision ==>
          d.seen == StateOf(st, d.id) && (d.events.Some? ==> d.events.value == st.slots[d.id].events))
  }

  ghost predicate OfficeInv(h: Hasher, config: Config, o: Office) {
    WorldInv(h, config, o.world) && forall k :: k in o.drafts ==> DraftOk(o.world.store, o.drafts[k])
  }

  // ------------------------------------------------------------ what moves do

  /** A case is left alone, or its token rises. */
  predicate TokenRises(st: Store, id: CaseId, after: Store)
    requires Exists(st, id)
  {
    Exists(after, id) && (after.slots[id] == st.slots[id]
                          || StateOf(after, id).revision == StateOf(st, id).revision + 1)
  }

  lemma ShiftToken(st: Store, id: CaseId, ch: Change, after: Store, other: CaseId)
    requires Shifted(st, id, ch, after) && Outline(StateOf(st, id), ch) && Exists(st, other)
    ensures TokenRises(st, other, after)
  {
    hide NextNumber, Filled;
  }

  lemma MoveToken(h: Hasher, config: Config, w: World, m: Move, at: int, id: CaseId)
    requires WorldInv(h, config, w) && Exists(w.store, id) && Next(h, config, w, m, at).Ok?
    ensures TokenRises(w.store, id, Next(h, config, w, m, at).value.store)
  {
    hide WorldInv, Next, OpenedBy, Licensed, Outline, Shifted;
    NextDone(h, config, w, m, at);
    var v := Next(h, config, w, m, at).value;
    if c, ch :| ChangedBy(w.store, w.leased, c, ch, LicenceOf(m), v.store) {
      ShiftToken(w.store, c, ch, v.store, id);
    } else if c, session :| OpenedBy(w.store, c, session, v.store) {
      OpenedOther(w.store, c, session, v.store, id);
    }
  }

  lemma DraftStays(st: Store, after: Store, d: Draft)
    requires DraftOk(st, d) && TokenRises(st, d.id, after)
    ensures DraftOk(after, d)
  {
  }

  lemma DraftsStay(h: Hasher, config: Config, o: Office, m: Move, at: int)
    requires OfficeInv(h, config, o) && Next(h, config, o.world, m, at).Ok?
    ensures OfficeInv(h, config, o.(world := Next(h, config, o.world, m, at).value))
  {
    hide WorldInv, Next, DraftOk, Effect;
    NextDone(h, config, o.world, m, at);
    var v := Next(h, config, o.world, m, at).value;
    forall k | k in o.drafts ensures DraftOk(v.store, o.drafts[k]) {
      assert Exists(o.world.store, o.drafts[k].id) by { DraftExists(o.world.store, o.drafts[k]); }
      MoveToken(h, config, o.world, m, at, o.drafts[k].id);
      DraftStays(o.world.store, v.store, o.drafts[k]);
    }
  }

  lemma DraftExists(st: Store, d: Draft)
    requires DraftOk(st, d)
    ensures Exists(st, d.id)
  {
  }

  // --------------------------------------------------------- writing it back

  /** Whatever a plan is computed from, it carries the token and id it read. */
  lemma PlanCarriesToken(config: Config, now: int, session: Session, c: Case, events: seq<Event>, a: Action)
    ensures var p := Perform(config, now, session, c, events, a);
            p.Some? ==> p.value.state.revision == c.revision && p.value.state.id == c.id
  {
    hide Perform, Fits;
    PerformFits(config, now, session, c, events, a);
    if Perform(config, now, session, c, events, a).Some? {
      FitsOutline(config, c, events, Perform(config, now, session, c, events, a).value);
    }
  }

  lemma StaleRefused(h: Hasher, st: Store, ch: Change, at: int)
    requires StoreInv(h, st) && Exists(st, ch.state.id) && ch.state.revision != StateOf(st, ch.state.id).revision
    ensures Write(h, st, ch.state, ch.entry, ch.archive, ch.target, at) == Err(StaleToken)
  {
    assert Settled(h, ch.state.id, st.slots[ch.state.id]);
  }

  /** With nothing committed since the reads, submitting is the operation itself. */
  lemma CurrentIsAtomic(h: Hasher, config: Config, now: int, w: World, d: Draft, session: Session, a: Action, at: int)
    requires Exists(w.store, d.id) && d.seen == StateOf(w.store, d.id) && d.events == Some(w.store.slots[d.id].events)
             && !IsLifecycle(a)
    ensures Next(h, config, w, Operates(d.id, session, a, now), at)
            == WithStore(w, Submit(h, config, now, w, d, session, a, at))
  {
    hide Perform, Write;
    assert Next(h, config, w, Operates(d.id, session, a, now), at) == Operate(h, config, now, w, d.id, session, a, at);
  }

  lemma OldIsRefused(h: Hasher, config: Config, now: int, w: World, d: Draft, session: Session, a: Action, at: int)
    requires StoreInv(h, w.store) && Exists(w.store, d.id) && d.seen.id == d.id
             && d.seen.revision != StateOf(w.store, d.id).revision
    ensures Submit(h, config, now, w, d, session, a, at).Err?
  {
    hide StoreInv, Perform, Write;
    if d.events.Some? && Perform(config, now, session, d.seen, d.events.value, a).Some? {
      PlanCarriesToken(config, now, session, d.seen, d.events.value, a);
      StaleRefused(h, w.store, Perform(config, now, session, d.seen, d.events.value, a).value, at);
    }
  }

  /** A write back from an old read is refused if anything was committed to the
      case since. Otherwise it is exactly the atomic operation on the case as it
      now is: nobody's transition is overwritten by one computed from an older
      read. */
  lemma WriteBackIsAtomic(h: Hasher, config: Config, now: int, w: World, d: Draft, session: Session, a: Action, at: int)
    requires WorldInv(h, config, w) && DraftOk(w.store, d)
    ensures
      var r := Submit(h, config, now, w, d, session, a, at);
      && Exists(w.store, d.id)
      && (r.Ok? ==> d.seen == StateOf(w.store, d.id)
                    && Next(h, config, w, Operates(d.id, session, a, now), at) == Ok(w.(store := r.value)))
      && (d.seen.revision != StateOf(w.store, d.id).revision ==> r.Err?)
  {
    hide StoreInv, AllSlots, SingleActive, Submit, Next;
    if d.seen.revision == StateOf(w.store, d.id).revision {
      if !IsLifecycle(a) && d.events.Some? {
        CurrentIsAtomic(h, config, now, w, d, session, a, at);
      } else {
        NothingSubmitted(h, config, now, w, d, session, a, at);
      }
    } else {
      OldIsRefused(h, config, now, w, d, session, a, at);
    }
  }

  lemma NothingSubmitted(h: Hasher, config: Config, now: int, w: World, d: Draft, session: Session, a: Action, at: int)
    requires IsLifecycle(a) || d.events.None?
    ensures Submit(h, config, now, w, d, session, a, at).Err?
  {
    hide Perform, Write;
  }

  /** Every turn leaves the world alone or is one move on it, and keeps everything. */
  lemma TurnRefines(h: Hasher, config: Config, o: Office, step: ClientStep, at: int, p: Office)
    requires OfficeInv(h, config, o) && ClientTurn(h, config, o, step, at, p)
    ensures OfficeInv(h, config, p)
    ensures p.world == o.world || exists m :: Next(h, config, o.world, m, at) == Ok(p.world)
  {
    hide WorldInv, Next, Submit;
    match step
    case ReadCase(client, id) =>
      ReadTrue(h, config, o.world, id);
    case ReadEvents(client) =>
      assert DraftOk(o.world.store, o.drafts[client]);
    case WriteBack(client, session, a, now) =>
      WriteBackIsAtomic(h, config, now, o.world, o.drafts[client], session, a, at);
      var m := Operates(o.drafts[client].id, session, a, now);
      if Submit(h, config, now, o.world, o.drafts[client], session, a, at).Ok? {
        DraftsStay(h, config, o, m, at);
      }
    case Elsewhere(m) => DraftsStay(h, config, o, m, at);
  }

  lemma ReadTrue(h: Hasher, config: Config, w: World, id: CaseId)
    requires WorldInv(h, config, w) && Exists(w.store, id)
    ensures StateOf(w.store, id).id == id
  {
    hide AllSlots, SingleActive;
    Identity(h, w.store, id);
  }

  // --------------------------------------------------------------- all runs

  ghost predicate ClientRun(h: Hasher, config: Config, offices: seq<Office>, steps: seq<ClientStep>, times: seq<int>) {
    && |offices| == |steps| + 1 == |times| + 1
    && offices[0] == Office(EMPTY_WORLD, map[])
    && forall i :: 0 <= i < |steps| ==> ClientTurn(h, config, offices[i], steps[i], times[i], offices[i + 1])
  }

  /** However clients interleave, the world they share has gone through a run of
      atomic moves. */
  lemma {:induction false} ClientsSerialise(h: Hasher, config: Config, offices: seq<Office>, steps: seq<ClientStep>,
                                            times: seq<int>, k: nat)
    returns (run: seq<World>, moves: seq<Move>, at: seq<int>)
    requires ClientRun(h, config, offices, steps, times) && k < |offices|
    ensures IsRun(h, config, run, moves, at) && run[|run| - 1] == offices[k].world
    ensures OfficeInv(h, config, offices[k])
  {
    hide OfficeInv, ClientTurn, Next;
    if k == 0 {
      run, moves, at := [EMPTY_WORLD], [], [];
      NoDrafts(h, config);
    } else {
      run, moves, at := ClientsSerialise(h, config, offices, steps, times, k - 1);
      assert ClientTurn(h, config, offices[k - 1], steps[k - 1], times[k - 1], offices[k - 1 + 1]);
      TurnRefines(h, config, offices[k - 1], steps[k - 1], times[k - 1], offices[k]);
      if offices[k].world != offices[k - 1].world {
        var m :| Next(h, config, offices[k - 1].world, m, times[k - 1]) == Ok(offices[k].world);
        PathGrows(h, config, run, moves, at, m, times[k - 1], offices[k].world);
        run, moves, at := run + [offices[k].world], moves + [m], at + [times[k - 1]];
      }
    }
  }

  lemma NoDrafts(h: Hasher, config: Config)
    ensures OfficeInv(h, config, Office(EMPTY_WORLD, map[]))
  {
    hide WorldInv;
    EmptyWorld(h, config);
  }
}
