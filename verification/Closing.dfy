/** How a case comes to its end: from every reachable world each case can be paused
    owing nothing, and exactly those that may yet close have a run that closes them. */
module Closing {
  import opened Wrappers
  import opened Records
  import opened Journal
  import opened History
  import opened Transactions
  import opened Staleness
  import opened Claims
  import opened Calibration
  import opened Consultation
  import opened CallBudget
  import opened Replay
  import opened Harness
  import opened Invariants
  import opened Past
  import opened Sessions
  import opened Lifecycle
  import opened Effects
  import opened Progress
  import opened Walks
  import opened Closable

  // ----------------------------------------------------------- runs in time

  /** When the checks of a move look at the clock. */
  function Looks(m: Move, at: int): int {
    if m.Operates? then m.now else at
  }

  /** What a caller says about a running probe is what the lease shows. */
  predicate Honest(w: World, m: Move) {
    m.Operates? && (m.action.RecoverProbe? || m.action.DiscardProbe?) ==> (m.action.live <==> m.id in w.leased)
  }

  predicate InOrder(w: World, m: Move, before: int, at: int) {
    before <= Looks(m, at) <= at && Honest(w, m)
  }

  function Clock(times: seq<int>, now: int): int {
    if times == [] then now else times[|times| - 1]
  }

  /** A path from `now` on, on which the clock never goes back. */
  ghost predicate Onward(h: Hasher, config: Config, path: seq<World>, moves: seq<Move>, times: seq<int>, now: int) {
    && IsPath(h, config, path, moves, times)
    && forall k :: 0 <= k < |moves| ==> InOrder(path[k], moves[k], Clock(times[..k], now), times[k])
  }

  /** A world and the time it is seen at. */
  datatype Moment = Moment(world: World, time: int)

  /** Some path leads from one moment to another. */
  ghost predicate Arrives(h: Hasher, config: Config, from: Moment, to: Moment) {
    exists path: seq<World>, moves: seq<Move>, times: seq<int>
      {:trigger Onward(h, config, path, moves, times, from.time)} ::
      Onward(h, config, path, moves, times, from.time)
      && path[0] == from.world && to == Moment(path[|path| - 1], Clock(times, from.time))
  }

  lemma ArrivesNowhere(h: Hasher, config: Config, from: Moment)
    ensures Arrives(h, config, from, from)
  {
    hide Next;
    var path: seq<World>, moves: seq<Move>, times: seq<int> := [from.world], [], [];
    assert Onward(h, config, path, moves, times, from.time);
  }

  lemma ArrivesFurther(h: Hasher, config: Config, from: Moment, p: Moment, m: Move, at: int, v: World)
    requires Arrives(h, config, from, p)
    requires Next(h, config, p.world, m, at) == Ok(v) && InOrder(p.world, m, p.time, at)
    ensures Arrives(h, config, from, Moment(v, at))
  {
    hide Next, Honest, Looks;
    var path: seq<World>, moves: seq<Move>, times: seq<int> :|
      Onward(h, config, path, moves, times, from.time)
      && path[0] == from.world && p == Moment(path[|path| - 1], Clock(times, from.time));
    PathGrows(h, config, path, moves, times, m, at, v);
    var path', moves', times' := path + [v], moves + [m], times + [at];
    forall k | 0 <= k < |moves'| ensures InOrder(path'[k], moves'[k], Clock(times'[..k], from.time), times'[k]) {
      if k < |moves| {
        assert InOrder(path[k], moves[k], Clock(times[..k], from.time), times[k]);
        assert times'[..k] == times[..k];
      } else {
        assert times'[..k] == times;
      }
    }
    assert Onward(h, config, path', moves', times', from.time);
  }

  // ------------------------------------------------------- what decisions see

  lemma PerformDecides(config: Config, now: int, session: Session, c: Case, events: seq<Event>, a: Action)
    ensures var p := Perform(config, now, session, c, events, a);
            p.Some? ==> Decided(config, c, events, now, p.value.entry, p.value.state)
  {
    hide Account, ModelClean, ConsultedAtTip, CaseLabel, EventsById, BudgetLeft, FreshOffer, ValidOffer, WaiverDue,
         CooldownActive, PreviousMethod;
    hide AcceptsModel, NormalModel, RevisionContext, PreserveAuthorities, Repairs, StaleClosure, AffectedOk,
         DescriptorOk, MayFail, OwnStart;
  }

  lemma BindingDecides(config: Config, now: int, c: Case, events: seq<Event>, ch: Change)
    requires Outline(c, ch) && OnlyBinds(ch.entry)
    ensures Decided(config, c, events, now, ch.entry, ch.state)
  {
  }

  // ------------------------------------------------------ what cannot come back

  /** What one move does to one case. */
  ghost predicate Untouched(w: World, id: CaseId, v: World) {
    Exists(w.store, id) && Exists(v.store, id) && v.store.slots[id] == w.store.slots[id]
  }

  /** One event was added by a decision made at `decided`. */
  ghost predicate Added(config: Config, w: World, id: CaseId, decided: int, v: World) {
    && Exists(w.store, id) && Exists(v.store, id)
    && var s, t := w.store.slots[id].events, v.store.slots[id].events;
    && |t| == |s| + 1 && t == s + [t[|s|]]
    && Decided(config, StateOf(w.store, id), s, decided, t[|s|].body.entry, StateOf(v.store, id))
  }

  lemma DecidedLands(config: Config, c: Case, events: seq<Event>, now: int, e: Entry, planned: Case, d: Case)
    requires Decided(config, c, events, now, e, planned)
    requires d.status == planned.status && (Unencumbered(d) ==> Unencumbered(planned))
    ensures Decided(config, c, events, now, e, d)
  {
    hide CallsLeft, WaiverDue, CloseOfferWaits, Consulted;
  }

  lemma OperationAdds(h: Hasher, config: Config, w: World, id: CaseId, session: Session, a: Action, now: int, at: int,
                      v: World)
    requires WorldInv(h, config, w) && Next(h, config, w, Operates(id, session, a, now), at) == Ok(v)
    ensures Added(config, w, id, now, v) && WorldInv(h, config, v)
    ensures forall other :: other != id && Exists(w.store, other) ==> Untouched(w, other, v)
  {
    hide WorldInv, Perform, Decided, Next;
    var c, events := OperationPlanned(h, config, w, id, session, a, now, at);
    var u, ch := Performs(h, config, w, id, session, a, now, at);
    assert u == v;
    PerformDecides(config, now, session, c, events, a);
    DecidedLands(config, c, events, now, ch.entry, ch.state, StateOf(v.store, id));
  }

  lemma OperationPlanned(h: Hasher, config: Config, w: World, id: CaseId, session: Session, a: Action, now: int,
                         at: int)
    returns (c: Case, events: seq<Event>)
    requires WorldInv(h, config, w) && Next(h, config, w, Operates(id, session, a, now), at).Ok?
    ensures !IsLifecycle(a) && Exists(w.store, id) && c == StateOf(w.store, id) && events == w.store.slots[id].events
    ensures Perform(config, now, session, c, events, a).Some?
  {
    hide WorldInv, Perform, Write;
    c, events := StateOf(w.store, id), w.store.slots[id].events;
  }

  lemma BindingAdds(h: Hasher, config: Config, w: World, id: CaseId, m: Move, at: int, v: World)
    requires WorldInv(h, config, w) && Exists(w.store, id) && !m.Operates? && Next(h, config, w, m, at) == Ok(v)
    ensures Untouched(w, id, v) || Added(config, w, id, at, v)
  {
    hide WorldInv, Next, Outline, Decided, Transacted, NextNumber, Filled;
    NextDone(h, config, w, m, at);
    if v.store != w.store {
      if c, ch :| ChangedBy(w.store, w.leased, c, ch, LicenceOf(m), v.store) {
        if c == id {
          var events := w.store.slots[id].events;
          BindingDecides(config, at, StateOf(w.store, id), events, ch);
          Undecided(config, StateOf(w.store, id), events, at, ch.entry, ch.state, StateOf(v.store, id));
          assert v.store.slots[id].events == events + [v.store.slots[id].events[|events|]];
        }
      } else {
        var c, session :| OpenedBy(w.store, c, session, v.store);
        assert c != id;
      }
    }
  }

  lemma Undecided(config: Config, c: Case, events: seq<Event>, now: int, e: Entry, planned: Case, d: Case)
    requires Decided(config, c, events, now, e, planned) && OnlyBinds(e) && d.status == planned.status
    ensures Decided(config, c, events, now, e, d)
  {
    hide CallsLeft, WaiverDue, CloseOfferWaits, Consulted;
  }

  lemma LaterMeansNow(config: Config, c: Case, events: seq<Event>, now: int, later: int)
    requires MayYetClose(config, c, events, later) && now <= later
    ensures MayYetClose(config, c, events, now)
  {
    hide ConsultedAtTip, CallsLeft, CloseCallOpen, FailuresUseUp;
  }

  /** A move never makes a case closable that was not. */
  lemma MoveKeepsStuck(h: Hasher, config: Config, w: World, id: CaseId, m: Move, before: int, at: int, v: World)
    requires WorldInv(h, config, w) && Exists(w.store, id) && Next(h, config, w, m, at) == Ok(v)
    requires InOrder(w, m, before, at)
    ensures WorldInv(h, config, v) && Exists(v.store, id)
    ensures MayYetClose(config, StateOf(v.store, id), v.store.slots[id].events, at) ==>
              MayYetClose(config, StateOf(w.store, id), w.store.slots[id].events, before)
  {
    hide WorldInv, Next, MayYetClose, Decided, Effect;
    NextDone(h, config, w, m, at);
    if m.Operates? {
      OperationAdds(h, config, w, m.id, m.session, m.action, m.now, at, v);
    } else {
      BindingAdds(h, config, w, id, m, at, v);
    }
    if MayYetClose(config, StateOf(v.store, id), v.store.slots[id].events, at) {
      var c, d, s, t := StateOf(w.store, id), StateOf(v.store, id), w.store.slots[id].events, v.store.slots[id].events;
      if Untouched(w, id, v) {
        LaterMeansNow(config, c, s, before, at);
      } else {
        CaseHolds(h, config, v, id);
        InGate(config, v.store.slots[id]);
        MayBefore(config, c, s, t[|s|], d, before, Looks(m, at), at);
      }
    }
  }

  lemma InGate(config: Config, s: Slot)
    requires CaseInv(config, s)
    ensures GateInv(config, s.events) && Sequential(s.events)
  {
    hide ReplayOk, OrderOk, GateInv, ModelOk, VersionOk, StaleOk, RepairsOk, CloseOk, ClaimKept, RecordsOk, Sequential;
  }

  /** So a run that closes a case starts where the case may yet close. */
  lemma {:induction false} ClosedMay(h: Hasher, config: Config, path: seq<World>, moves: seq<Move>, times: seq<int>,
                                     now: int, id: CaseId, k: nat)
    requires Onward(h, config, path, moves, times, now) && WorldInv(h, config, path[0]) && Exists(path[0].store, id)
    requires k < |path|
    ensures WorldInv(h, config, path[k]) && Exists(path[k].store, id)
    ensures MayYetClose(config, StateOf(path[k].store, id), path[k].store.slots[id].events, Clock(times[..k], now)) ==>
              MayYetClose(config, StateOf(path[0].store, id), path[0].store.slots[id].events, now)
  {
    hide WorldInv, Next, MayYetClose, InOrder;
    if k > 0 {
      ClosedMay(h, config, path, moves, times, now, id, k - 1);
      PathStep(h, config, path, moves, times, k);
      assert InOrder(path[k - 1], moves[k - 1], Clock(times[..k - 1], now), times[k - 1]);
      MoveKeepsStuck(h, config, path[k - 1], id, moves[k - 1], Clock(times[..k - 1], now), times[k - 1], path[k]);
      assert Clock(times[..k], now) == times[k - 1];
    }
  }

  // ------------------------------------------------------------ one step on

  /** The case is active on `s` at a moment that can be reached. */
  ghost predicate Here(h: Hasher, config: Config, from: Moment, p: Moment, id: CaseId, s: Session) {
    Arrives(h, config, from, p) && WorldInv(h, config, p.world) && IsActive(p.world.store, id, s)
  }

  function CaseAt(p: Moment, id: CaseId): Case
    requires Exists(p.world.store, id)
  {
    StateOf(p.world.store, id)
  }

  function EventsAt(p: Moment, id: CaseId): seq<Event>
    requires Exists(p.world.store, id)
  {
    p.world.store.slots[id].events
  }

  /** An operation that is decided on takes the case one event further. */
  lemma Goes(h: Hasher, config: Config, from: Moment, p: Moment, id: CaseId, s: Session, a: Action, at: int)
    returns (q: Moment, ch: Change, e: Event)
    requires Here(h, config, from, p, id, s) && p.time <= at && !IsLifecycle(a)
    requires a.RecoverProbe? || a.DiscardProbe? ==> (a.live <==> id in p.world.leased)
    requires Perform(config, at, s, CaseAt(p, id), EventsAt(p, id), a).Some?
    ensures Perform(config, at, s, CaseAt(p, id), EventsAt(p, id), a) == Some(ch)
    ensures Arrives(h, config, from, q) && WorldInv(h, config, q.world) && q.time == at
    ensures OneEvent(p.world, id, ch, q.world) && Exists(q.world.store, id)
    ensures EventsAt(q, id) == EventsAt(p, id) + [e] && e.body.entry == ch.entry && e.body.at == at
    ensures GateInv(config, EventsAt(q, id)) && Sequential(EventsAt(q, id))
  {
    hide WorldInv, Next, Perform, Arrives, CaseInv, GateInv, Sequential;
    var v: World;
    v, ch := Performs(h, config, p.world, id, s, a, at, at);
    q := Moment(v, at);
    e := EventsAt(q, id)[|EventsAt(p, id)|];
    ArrivesFurther(h, config, from, p, Operates(id, s, a, at), at, v);
    CaseHolds(h, config, v, id);
    InGate(config, v.store.slots[id]);
  }

  /** Some run from here closes the case. */
  ghost predicate CanClose(h: Hasher, config: Config, from: Moment, id: CaseId) {
    exists q {:trigger Arrives(h, config, from, q)} ::
      Arrives(h, config, from, q) && Exists(q.world.store, id) && CaseAt(q, id).status.Closed?
  }

  /** A case that owes nothing and was just consulted on is closed. */
  lemma ClosesNow(h: Hasher, config: Config, from: Moment, p: Moment, id: CaseId, s: Session)
    requires Here(h, config, from, p, id, s) && Unencumbered(CaseAt(p, id))
    requires config.enabled ==> !config.misconfigured && ConsultedAtTip(EventsAt(p, id), ClosePoint)
    ensures CanClose(h, config, from, id)
  {
    hide WorldInv, Arrives, CaseInv, ConsultedAtTip, OneEvent;
    CaseHolds(h, config, p.world, id);
    SettledCanGoOn(config, p.world.store.slots[id], s, "", SystemState);
    if config.enabled {
      ConsultedCanGoOn(config, p.world.store.slots[id], s, "", SystemState);
    }
    ClosePlan(config, p.time, s, CaseAt(p, id), EventsAt(p, id));
    hide Perform;
    var q, ch, e := Goes(h, config, from, p, id, s, Close(Stopped), p.time);
    assert CaseAt(q, id).status.Closed? by { OneStatus(p.world, id, ch, q.world); }
  }

  lemma OneStatus(w: World, id: CaseId, ch: Change, v: World)
    requires OneEvent(w, id, ch, v)
    ensures Exists(v.store, id) && StateOf(v.store, id).status == ch.state.status
    ensures StateOf(v.store, id).session == ch.state.session
    ensures Unencumbered(StateOf(v.store, id)) <==> Unencumbered(ch.state)
    ensures StateOf(v.store, id).stale == ch.state.stale
    ensures StateOf(v.store, id).probe.Some? <==> ch.state.probe.Some?
  {
  }

  lemma ClosePlan(config: Config, now: int, s: Session, c: Case, events: seq<Event>)
    ensures var p := Perform(config, now, s, c, events, Close(Stopped));
            && p == PlanClose(config, c, events, s, Stopped) && (p.Some? ==> p.value.state.status.Closed?)
  {
    hide Usable, Consulted, CaseLabel, EventsById;
  }

  /** An operation that leaves the case record as it was. */
  lemma Notes(h: Hasher, config: Config, from: Moment, p: Moment, id: CaseId, s: Session, a: Action, at: int,
              entry: Entry)
    returns (q: Moment, e: Event)
    requires Here(h, config, from, p, id, s) && p.time <= at && !IsLifecycle(a) && !a.RecoverProbe? && !a.DiscardProbe?
    requires Perform(config, at, s, CaseAt(p, id), EventsAt(p, id), a)
             == Some(Change(CaseAt(p, id), entry, false, NoTarget))
    ensures Here(h, config, from, q, id, s) && q.time == at
    ensures Unencumbered(CaseAt(q, id)) <==> Unencumbered(CaseAt(p, id))
    ensures CaseAt(q, id).probe.Some? <==> CaseAt(p, id).probe.Some?
    ensures EventsAt(q, id) == EventsAt(p, id) + [e] && e.body.entry == entry && e.body.at == at
    ensures GateInv(config, EventsAt(q, id)) && Sequential(EventsAt(q, id))
  {
    hide WorldInv, Arrives, Perform, OneEvent, GateInv, Sequential;
    var ch: Change;
    q, ch, e := Goes(h, config, from, p, id, s, a, at);
    OneStatus(p.world, id, ch, q.world);
  }

  /** The failure of a call for the decision to close is a consultation on it. */
  lemma FailureCloses(h: Hasher, config: Config, from: Moment, p: Moment, id: CaseId, s: Session)
    requires Here(h, config, from, p, id, s) && Unencumbered(CaseAt(p, id)) && !config.misconfigured
    requires CloseCallOpen(EventsAt(p, id))
    ensures CanClose(h, config, from, id)
  {
    hide WorldInv, Arrives, Perform, OneEvent, GateInv, Sequential, OpenCalls, WasStarted;
    var offer :| offer in OpenCalls(EventsAt(p, id)) && WasStarted(EventsAt(p, id), offer, ClosePoint);
    FailureIs(config, p.time, s, CaseAt(p, id), EventsAt(p, id), offer, ClosePoint);
    var q, e := Notes(h, config, from, p, id, s, FailOffer(offer, ClosePoint, TransportError), p.time,
                      OfferFailed(offer, ClosePoint, TransportError));
    ClosesNow(h, config, from, q, id, s);
  }

  /** An answer to a waiting offer is a consultation too. */
  lemma AnswerCloses(h: Hasher, config: Config, from: Moment, p: Moment, id: CaseId, s: Session)
    requires Here(h, config, from, p, id, s) && Unencumbered(CaseAt(p, id)) && !config.misconfigured
    requires CloseOfferWaits(EventsAt(p, id), p.time)
    ensures CanClose(h, config, from, id)
  {
    hide WorldInv, Arrives, OneEvent, GateInv, Sequential;
    var offer := AnswerPlan(config, p.time, s, CaseAt(p, id), EventsAt(p, id));
    hide Perform;
    var q, e := Notes(h, config, from, p, id, s, Choose(Stop, ""), p.time, Chosen(offer, ClosePoint, Stop, None));
    ClosesNow(h, config, from, q, id, s);
  }

  lemma AnswerPlan(config: Config, now: int, s: Session, c: Case, events: seq<Event>) returns (offer: string)
    requires Owns(c, s) && CloseOfferWaits(events, now)
    ensures Perform(config, now, s, c, events, Choose(Stop, ""))
            == Some(Change(c, Chosen(offer, ClosePoint, Stop, None), false, NoTarget))
  {
    hide ValidOffer, PreviousMethod;
    offer := ValidOffer(events, now).value.body.entry.offer;
  }

  const SEEN: Descriptor := Descriptor(ExternalSource, None)

  /** Evidence can be recorded where no probe is pending; nothing waits after it. */
  lemma ClearsTip(h: Hasher, config: Config, from: Moment, p: Moment, id: CaseId, s: Session) returns (q: Moment)
    requires Here(h, config, from, p, id, s) && Unencumbered(CaseAt(p, id))
    ensures Here(h, config, from, q, id, s) && q.time == p.time && Unencumbered(CaseAt(q, id))
    ensures Keeps(config, EventsAt(p, id), EventsAt(q, id), p.time)
    ensures !ConsultedAtTip(EventsAt(q, id), ClosePoint)
    ensures forall now :: ValidOffer(EventsAt(q, id), now).None?
  {
    hide WorldInv, Arrives, OneEvent, GateInv, Sequential, ValidOffer, Keeps;
    EvidencePlan(config, p.time, s, CaseAt(p, id), EventsAt(p, id));
    hide Perform;
    var e: Event;
    q, e := Notes(h, config, from, p, id, s, RecordEvidence(SEEN), p.time, EvidenceRecorded(SEEN));
    NeutralStays(config, EventsAt(p, id), e, p.time);
    forall now ensures ValidOffer(EventsAt(q, id), now).None? {
      NoOfferWaits(EventsAt(q, id), now);
    }
  }

  lemma EvidencePlan(config: Config, now: int, s: Session, c: Case, events: seq<Event>)
    requires Owns(c, s) && c.probe.None?
    ensures Perform(config, now, s, c, events, RecordEvidence(SEEN))
            == Some(Change(c, EvidenceRecorded(SEEN), false, NoTarget))
  {
  }

  /** What advice was ahead in `a` is ahead in `b`. */
  ghost predicate Keeps(config: Config, a: seq<Event>, b: seq<Event>, now: int) {
    && (CallsLeft(config, a) ==> CallsLeft(config, b))
    && (CloseCallOpen(a) ==> CloseCallOpen(b))
    && (WaiverAhead(config, a, now) ==> WaiverAhead(config, b, now))
    && OpenCalls(b) == OpenCalls(a)
  }

  lemma NeutralStays(config: Config, events: seq<Event>, e: Event, now: int)
    requires Unrelated(e.body.entry)
    ensures Keeps(config, events, events + [e], now)
  {
    hide CallsLeft, CloseCallOpen, WaiverAhead, OpenCalls;
    NeutralKeeps(config, events, e, now);
  }

  /** While calls are left another can be made for the decision to close; it fails. */
  lemma CallCloses(h: Hasher, config: Config, from: Moment, p: Moment, id: CaseId, s: Session)
    requires Here(h, config, from, p, id, s) && Unencumbered(CaseAt(p, id)) && config.enabled && !config.misconfigured
    requires CallsLeft(config, EventsAt(p, id))
    ensures CanClose(h, config, from, id)
  {
    hide WorldInv, Arrives, OneEvent, GateInv, Sequential, CallsLeft, ValidOffer, CooldownActive, OpenCalls, CaseInv,
         FreshOffer, CloseCallOpen, WaiverAhead, Usable;
    var q := ClearsTip(h, config, from, p, id, s);
    var events := EventsAt(q, id);
    var later := CooldownEnds(config, events, q.time);
    var offer := Beyond(StartedIds(events));
    StartedMeans(events, offer);
    CaseHolds(h, config, q.world, id);
    UsableIsFlags(config, q.world.store.slots[id]);
    StartPlan(config, later, s, CaseAt(q, id), events, offer);
    hide Perform;
    var r, e := Notes(h, config, from, q, id, s, StartOffer(offer, ClosePoint), later, OfferStarted(offer, ClosePoint));
    StartOpens(config, events, e);
    FailureCloses(h, config, from, r, id, s);
  }

  lemma StartOpens(config: Config, events: seq<Event>, e: Event)
    requires GateInv(config, events + [e]) && e.body.entry.OfferStarted? && e.body.entry.point.ClosePoint?
    ensures CloseCallOpen(events + [e])
  {
    hide GateInv, OpenCalls;
    StartAdds(config, events, e);
    assert e in events + [e];
    assert WasStarted(events + [e], e.body.entry.offer, ClosePoint);
  }

  lemma StartPlan(config: Config, now: int, s: Session, c: Case, events: seq<Event>, offer: string)
    requires Owns(c, s) && c.probe.None? && Usable(c, events) && FreshOffer(events, offer)
    requires config.enabled && !config.misconfigured && CallsLeft(config, events)
    requires ValidOffer(events, now).None? && !CooldownActive(config, events, now)
    ensures Perform(config, now, s, c, events, StartOffer(offer, ClosePoint))
            == Some(Change(c, OfferStarted(offer, ClosePoint), false, NoTarget))
  {
    hide Usable, FreshOffer, BudgetLeft, ValidOffer, CooldownActive;
  }

  /** A name outside any given set. */
  lemma Beyond(names: set<string>) returns (name: string)
    ensures name !in names && name != ""
  {
    var n := Longest(names);
    name := Name(n + 1);
  }

  lemma {:induction false} Longest(names: set<string>) returns (n: nat)
    ensures forall x :: x in names ==> |x| <= n
    decreases names
  {
    n := 0;
    if names != {} {
      var x :| x in names;
      n := Longest(names - {x});
      if n < |x| {
        n := |x|;
      }
    }
  }

  /** Where failures lead on to the waiver, all calls under way can fail; then the
      decision to close is excused. */
  lemma {:induction false} WaiverCloses(h: Hasher, config: Config, from: Moment, p: Moment, id: CaseId, s: Session)
    requires Here(h, config, from, p, id, s) && Unencumbered(CaseAt(p, id)) && config.enabled && !config.misconfigured
    requires WaiverAhead(config, EventsAt(p, id), p.time)
    ensures CanClose(h, config, from, id)
    decreases |OpenCalls(EventsAt(p, id))|
  {
    hide WorldInv, Arrives, OneEvent, GateInv, Sequential, WaiverAhead, OpenCalls, Perform, Unencumbered, CanClose;
    var events := EventsAt(p, id);
    if OpenCalls(events) == {} {
      ExcuseCloses(h, config, from, p, id, s);
    } else {
      var offer :| offer in OpenCalls(events);
      var point := FailurePlan(config, p.time, s, CaseAt(p, id), events, offer);
      var q, e := Notes(h, config, from, p, id, s, FailOffer(offer, point, TransportError), p.time,
                        OfferFailed(offer, point, TransportError));
      FailureKeepsWaiver(config, events, e, p.time);
      WaiverCloses(h, config, from, q, id, s);
    }
  }

  lemma ExcuseCloses(h: Hasher, config: Config, from: Moment, p: Moment, id: CaseId, s: Session)
    requires Here(h, config, from, p, id, s) && Unencumbered(CaseAt(p, id)) && config.enabled && !config.misconfigured
    requires WaiverAhead(config, EventsAt(p, id), p.time) && OpenCalls(EventsAt(p, id)) == {}
    ensures CanClose(h, config, from, id)
  {
    hide WorldInv, Arrives, OneEvent, GateInv, Sequential, WaiverAhead, OpenCalls, ValidOffer, CaseInv, ConsultedAtTip,
         CallsLeft, CloseCallOpen, WaiverDue, Usable;
    var q := ClearsTip(h, config, from, p, id, s);
    WaiverAtLast(config, EventsAt(q, id), q.time);
    CaseHolds(h, config, q.world, id);
    UsableIsFlags(config, q.world.store.slots[id]);
    ExcusePlan(config, q.time, s, CaseAt(q, id), EventsAt(q, id));
    hide Perform;
    var r, e := Notes(h, config, from, q, id, s, ExcuseClose(Stopped), q.time, Excused(ClosePoint));
    assert ConsultedAtTip(EventsAt(r, id), ClosePoint) by { ExcuseConsults(EventsAt(q, id), e); }
    ClosesNow(h, config, from, r, id, s);
  }

  lemma ExcuseConsults(events: seq<Event>, e: Event)
    requires e.body.entry == Excused(ClosePoint)
    ensures ConsultedAtTip(events + [e], ClosePoint)
  {
  }

  lemma ExcusePlan(config: Config, now: int, s: Session, c: Case, events: seq<Event>)
    requires Owns(c, s) && Unencumbered(c) && Usable(c, events) && config.enabled && !config.misconfigured
    requires !ConsultedAtTip(events, ClosePoint) && ValidOffer(events, now).None? && WaiverDue(config, events, now)
    ensures Perform(config, now, s, c, events, ExcuseClose(Stopped))
            == Some(Change(c, Excused(ClosePoint), false, NoTarget))
  {
    hide Usable, ConsultedAtTip, ValidOffer, WaiverDue, CaseLabel, EventsById, Perform;
    ExcuseIs(config, now, s, c, events);
  }

  lemma ExcuseIs(config: Config, now: int, s: Session, c: Case, events: seq<Event>)
    ensures Perform(config, now, s, c, events, ExcuseClose(Stopped))
            == PlanExcuseClose(config, c, events, s, Stopped, now)
  {
    hide PlanExcuseClose;
  }

  // -------------------------------------------------------- settling a case

  /** Still here, with nothing of the advice lost. */
  ghost predicate SettledSince(h: Hasher, config: Config, from: Moment, p: Moment, id: CaseId, s: Session, q: Moment)
    requires Exists(p.world.store, id)
  {
    && Here(h, config, from, q, id, s) && q.time == p.time
    && Keeps(config, EventsAt(p, id), EventsAt(q, id), p.time)
  }

  lemma KeepsOn(config: Config, a: seq<Event>, b: seq<Event>, c: seq<Event>, now: int)
    requires Keeps(config, a, b, now) && Keeps(config, b, c, now)
    ensures Keeps(config, a, c, now)
  {
    hide CallsLeft, CloseCallOpen, WaiverAhead, OpenCalls;
  }

  /** The holder of a lease lets it go, or dies. */
  lemma Released(h: Hasher, config: Config, from: Moment, p: Moment, id: CaseId, s: Session) returns (q: Moment)
    requires Here(h, config, from, p, id, s)
    ensures SettledSince(h, config, from, p, id, s, q) && q.world.store == p.world.store && id !in q.world.leased
  {
    hide WorldInv, Arrives, Next, IsActive, CallsLeft, CloseCallOpen, WaiverAhead, OpenCalls;
    LeaseMoves(h, config, p.world, id, p.time);
    NextDone(h, config, p.world, Releases(id), p.time);
    q := Moment(p.world.(leased := p.world.leased - {id}), p.time);
    ArrivesFurther(h, config, from, p, Releases(id), p.time, q.world);
  }

  /** A pending probe is discarded. */
  lemma Discarded(h: Hasher, config: Config, from: Moment, p: Moment, id: CaseId, s: Session) returns (q: Moment)
    requires Here(h, config, from, p, id, s) && id !in p.world.leased
    ensures SettledSince(h, config, from, p, id, s, q) && CaseAt(q, id).probe.None?
  {
    hide WorldInv, Arrives, CaseInv, OneEvent, GateInv, Sequential, Keeps;
    if CaseAt(p, id).probe.None? {
      q := p;
      assert Keeps(config, EventsAt(p, id), EventsAt(p, id), p.time) by { KeepsSame(config, EventsAt(p, id), p.time); }
    } else {
      CaseHolds(h, config, p.world, id);
      PendingCanBeSettled(config, p.world.store.slots[id], s);
      DiscardPlan(config, p.time, s, CaseAt(p, id), EventsAt(p, id));
      hide Perform;
      var ch, e;
      q, ch, e := Goes(h, config, from, p, id, s, DiscardProbe(false), p.time);
      OneStatus(p.world, id, ch, q.world);
      NeutralStays(config, EventsAt(p, id), e, p.time);
    }
  }

  lemma KeepsSame(config: Config, events: seq<Event>, now: int)
    ensures Keeps(config, events, events, now)
  {
    hide CallsLeft, CloseCallOpen, WaiverAhead, OpenCalls;
  }

  lemma DiscardPlan(config: Config, now: int, s: Session, c: Case, events: seq<Event>)
    ensures var p := Perform(config, now, s, c, events, DiscardProbe(false));
            && p == PlanDiscard(c, s, false)
            && (p.Some? ==> Unrelated(p.value.entry) && p.value.state == c.(probe := None))
  {
  }

  /** A stale model is replaced. */
  lemma Repaired(h: Hasher, config: Config, from: Moment, p: Moment, id: CaseId, s: Session) returns (q: Moment)
    requires Here(h, config, from, p, id, s) && CaseAt(p, id).probe.None?
    ensures SettledSince(h, config, from, p, id, s, q) && Unencumbered(CaseAt(q, id))
  {
    hide WorldInv, Arrives, CaseInv, OneEvent, GateInv, Sequential, Keeps;
    if !CaseAt(p, id).stale {
      q := p;
      assert Keeps(config, EventsAt(p, id), EventsAt(p, id), p.time) by { KeepsSame(config, EventsAt(p, id), p.time); }
    } else {
      CaseHolds(h, config, p.world, id);
      StaleCanBeRepaired(config, p.world.store.slots[id], s);
      var addressed := {CaseAt(p, id).mismatch.value};
      RepairPlan(config, p.time, s, CaseAt(p, id), EventsAt(p, id), addressed);
      hide Perform;
      var ch, e;
      q, ch, e := Goes(h, config, from, p, id, s, Revise(BARE, addressed, true), p.time);
      OneStatus(p.world, id, ch, q.world);
      NeutralStays(config, EventsAt(p, id), e, p.time);
    }
  }

  lemma RepairPlan(config: Config, now: int, s: Session, c: Case, events: seq<Event>, addressed: set<nat>)
    requires c.stale
    ensures var p := Perform(config, now, s, c, events, Revise(BARE, addressed, true));
            && p == PlanRevise(c, events, s, BARE, addressed, true)
            && (p.Some? ==> Unrelated(p.value.entry) && !p.value.state.stale && p.value.state.probe == c.probe
                            && p.value.state.status == c.status && p.value.state.session == c.session)
  {
    hide AcceptsModel, NormalModel, RevisionContext, PreserveAuthorities, Repairs;
  }

  /** Whatever it owes, an active case can be brought to owe nothing. */
  lemma Settles(h: Hasher, config: Config, from: Moment, p: Moment, id: CaseId, s: Session) returns (q: Moment)
    requires Here(h, config, from, p, id, s)
    ensures SettledSince(h, config, from, p, id, s, q) && Unencumbered(CaseAt(q, id))
  {
    hide WorldInv, Arrives, Keeps;
    var a := Released(h, config, from, p, id, s);
    var b := Discarded(h, config, from, a, id, s);
    KeepsOn(config, EventsAt(p, id), EventsAt(a, id), EventsAt(b, id), p.time);
    q := Repaired(h, config, from, b, id, s);
    KeepsOn(config, EventsAt(p, id), EventsAt(b, id), EventsAt(q, id), p.time);
  }

  /** A paused case can be resumed on a session of its own. */
  lemma Wakes(h: Hasher, config: Config, from: Moment, p: Moment, id: CaseId) returns (q: Moment, s: Session)
    requires Arrives(h, config, from, p) && WorldInv(h, config, p.world)
    requires Exists(p.world.store, id) && CaseAt(p, id).status.Paused?
    ensures SettledSince(h, config, from, p, id, s, q)
  {
    hide WorldInv, Arrives, CaseInv, Next, Keeps, IsActive;
    s := Beyond(SessionsIn(p.world.store));
    NobodyOn(p.world.store, s);
    var v, e := ResumesOn(h, config, p.world, id, s, p.time);
    q := Moment(v, p.time);
    ArrivesFurther(h, config, from, p, Resumes(id, s), p.time, v);
    NeutralStays(config, EventsAt(p, id), e, p.time);
  }

  function SessionsIn(st: Store): set<Session> {
    set id | id in st.slots && Exists(st, id) :: StateOf(st, id).session
  }

  lemma NobodyOn(st: Store, s: Session)
    requires s !in SessionsIn(st)
    ensures Vacant(st, s)
  {
  }

  lemma ResumesOn(h: Hasher, config: Config, w: World, id: CaseId, s: Session, at: int) returns (v: World, e: Event)
    requires WorldInv(h, config, w) && Exists(w.store, id) && StateOf(w.store, id).status.Paused?
    requires s != "" && Vacant(w.store, s)
    ensures Next(h, config, w, Resumes(id, s), at) == Ok(v) && WorldInv(h, config, v) && IsActive(v.store, id, s)
    ensures v.store.slots[id].events == w.store.slots[id].events + [e] && Unrelated(e.body.entry)
  {
    hide LifeInv, Perform, Write, Wrote, Outline, Shifted, Vacant, IsActive;
    var c, events := StateOf(w.store, id), w.store.slots[id].events;
    assert Guarded(w.store, id, ResumeTo(s)) by { VacantIsFree(w.store, s, id); }
    AttemptKeeps(h, config, 0, w.store, id, s, ResumeTo(s), at);
    ResumePlan(config, 0, s, c, events);
    v := w.(store := Attempt(h, config, 0, w.store, id, s, ResumeTo(s), at).value);
    assert Next(h, config, w, Resumes(id, s), at) == Resume(h, config, w, id, s, at);
    e := LandsOn(w.store, id, Perform(config, 0, s, c, events, ResumeTo(s)).value, v.store);
    assert IsActive(v.store, id, s) by { ActiveThen(v.store, id, s); }
  }

  lemma VacantIsFree(st: Store, s: Session, id: CaseId)
    requires Vacant(st, s)
    ensures Free(st, s, id)
  {
  }

  lemma ActiveThen(st: Store, id: CaseId, s: Session)
    requires s != "" && Exists(st, id) && StateOf(st, id).status.Active? && StateOf(st, id).session == s
    ensures IsActive(st, id, s)
  {
  }

  lemma ResumePlan(config: Config, now: int, s: Session, c: Case, events: seq<Event>)
    requires c.status.Paused? && s != ""
    ensures Perform(config, now, s, c, events, ResumeTo(s))
            == Some(Change(c.(status := Active, session := s, marker := None), CaseResumed(c.session), false, NoTarget))
  {
  }

  lemma LandsOn(st: Store, id: CaseId, ch: Change, after: Store) returns (e: Event)
    requires Shifted(st, id, ch, after)
    ensures Exists(st, id) && Exists(after, id)
    ensures after.slots[id].events == st.slots[id].events + [e] && e.body.entry == ch.entry
    ensures StateOf(after, id).status == ch.state.status && StateOf(after, id).session == ch.state.session
  {
    hide NextNumber, Filled;
    e := after.slots[id].events[|st.slots[id].events|];
    assert after.slots[id].events == st.slots[id].events + [e];
  }

  // ------------------------------------------------------------- both ways

  /** An active case with advice ahead, or none needed, has a run that closes it. */
  lemma ActiveCloses(h: Hasher, config: Config, from: Moment, p: Moment, id: CaseId, s: Session)
    requires Here(h, config, from, p, id, s)
    requires MayYetClose(config, CaseAt(p, id), EventsAt(p, id), p.time)
    ensures CanClose(h, config, from, id)
  {
    hide WorldInv, Arrives, CallsLeft, CloseCallOpen, WaiverAhead, CanClose, ConsultedAtTip, OpenCalls, CloseOfferWaits;
    if config.enabled && AtClosingTip(CaseAt(p, id), EventsAt(p, id), p.time) {
      if ConsultedAtTip(EventsAt(p, id), ClosePoint) {
        ClosesNow(h, config, from, p, id, s);
      } else {
        AnswerCloses(h, config, from, p, id, s);
      }
    } else {
      var q := Settles(h, config, from, p, id, s);
      if !config.enabled {
        ClosesNow(h, config, from, q, id, s);
      } else if CallsLeft(config, EventsAt(q, id)) {
        CallCloses(h, config, from, q, id, s);
      } else if CloseCallOpen(EventsAt(q, id)) {
        FailureCloses(h, config, from, q, id, s);
      } else {
        WaiverCloses(h, config, from, q, id, s);
      }
    }
  }

  lemma OwnSession(h: Hasher, config: Config, w: World, id: CaseId)
    requires WorldInv(h, config, w) && Exists(w.store, id)
    ensures StateOf(w.store, id).status.Active? ==> IsActive(w.store, id, StateOf(w.store, id).session)
  {
    hide StoreInv, CaseInv, PastOk, MarkerOk, SingleActive;
    assert SlotOk(config, w.store.slots[id]);
  }

  lemma PausedMay(config: Config, c: Case, a: seq<Event>, d: Case, b: seq<Event>, now: int)
    requires MayYetClose(config, c, a, now) && c.status.Paused? && Keeps(config, a, b, now)
    ensures MayYetClose(config, d, b, now)
  {
    hide CallsLeft, CloseCallOpen, WaiverAhead, OpenCalls;
  }

  lemma ClosesIfMay(h: Hasher, config: Config, from: Moment, id: CaseId)
    requires WorldInv(h, config, from.world) && Exists(from.world.store, id)
    requires MayYetClose(config, CaseAt(from, id), EventsAt(from, id), from.time)
    ensures CanClose(h, config, from, id)
  {
    hide WorldInv, Arrives, AdviceAhead, Keeps;
    ArrivesNowhere(h, config, from);
    OwnSession(h, config, from.world, id);
    if CaseAt(from, id).status.Paused? {
      var p, s := Wakes(h, config, from, from, id);
      PausedMay(config, CaseAt(from, id), EventsAt(from, id), CaseAt(p, id), EventsAt(p, id), from.time);
      ActiveCloses(h, config, from, p, id, s);
    } else if CaseAt(from, id).status.Active? {
      ActiveCloses(h, config, from, from, id, CaseAt(from, id).session);
    }
  }

  /** From any world that can be reached, and at any time, a case has a run that
      closes it exactly when it may yet close: when no advice is needed, or a call can
      still be made or is under way for that decision, or failures or the cooldown
      bring the waiver, or the Timeline ends in the consultation or its offer. */
  lemma ClosingExact(h: Hasher, config: Config, from: Moment, id: CaseId)
    requires WorldInv(h, config, from.world) && Exists(from.world.store, id)
    ensures CanClose(h, config, from, id) <==>
            MayYetClose(config, CaseAt(from, id), EventsAt(from, id), from.time)
  {
    hide WorldInv, MayYetClose, Next, InOrder;
    if MayYetClose(config, CaseAt(from, id), EventsAt(from, id), from.time) {
      ClosesIfMay(h, config, from, id);
    }
    if q :| Arrives(h, config, from, q) && Exists(q.world.store, id) && CaseAt(q, id).status.Closed? {
      var path: seq<World>, moves: seq<Move>, times: seq<int> :|
        Onward(h, config, path, moves, times, from.time)
        && path[0] == from.world && q == Moment(path[|path| - 1], Clock(times, from.time));
      ClosedMay(h, config, path, moves, times, from.time, id, |path| - 1);
      assert times[..|path| - 1] == times;
      assert MayYetClose(config, CaseAt(q, id), EventsAt(q, id), q.time) by { ClosedIs(config, q, id); }
    }
  }

  lemma ClosedIs(config: Config, q: Moment, id: CaseId)
    requires Exists(q.world.store, id) && CaseAt(q, id).status.Closed?
    ensures MayYetClose(config, CaseAt(q, id), EventsAt(q, id), q.time)
  {
  }

  /** No case is a dead end: unless it is closed, it has a run to a pause that owes
      nothing. */
  lemma CanAlwaysRest(h: Hasher, config: Config, from: Moment, id: CaseId) returns (q: Moment)
    requires WorldInv(h, config, from.world) && Exists(from.world.store, id) && !CaseAt(from, id).status.Closed?
    ensures Arrives(h, config, from, q) && Exists(q.world.store, id)
    ensures CaseAt(q, id).status.Paused? && Unencumbered(CaseAt(q, id))
  {
    hide WorldInv, Arrives, Keeps, CaseInv;
    ArrivesNowhere(h, config, from);
    OwnSession(h, config, from.world, id);
    var p, s := from, CaseAt(from, id).session;
    if CaseAt(from, id).status.Paused? {
      p, s := Wakes(h, config, from, from, id);
    }
    p := Settles(h, config, from, p, id, s);
    CaseHolds(h, config, p.world, id);
    SettledCanGoOn(config, p.world.store.slots[id], s, "", SystemState);
    RestPlan(config, p.time, s, CaseAt(p, id), EventsAt(p, id));
    hide Perform, OneEvent;
    var ch, e;
    q, ch, e := Goes(h, config, from, p, id, s, Pause, p.time);
    OneStatus(p.world, id, ch, q.world);
  }

  lemma RestPlan(config: Config, now: int, s: Session, c: Case, events: seq<Event>)
    ensures var p := Perform(config, now, s, c, events, Pause);
            && p == PlanPause(c, events, s)
            && (p.Some? ==> p.value.state == c.(status := Paused))
  {
    hide Usable;
  }
}
