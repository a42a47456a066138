/** Moves that are sure to succeed, for runs that show what can happen. */
module Walks {
  import opened Wrappers
  import opened Records
  import opened History
  import opened Transactions
  import opened Claims
  import opened Consultation
  import opened CallBudget
  import opened Harness
  import opened Invariants
  import opened Past
  import opened Opening
  import opened Sessions
  import opened Lifecycle
  import opened Effects
  import opened Resumption
  import opened Progress

  /** `v` is `w` with one more event of case `id`, and the record that goes with it. */
  ghost predicate OneEvent(w: World, id: CaseId, ch: Change, v: World) {
    && Exists(w.store, id) && Exists(v.store, id)
    && v.intents == w.intents && v.leased == w.leased
    && v.store.slots == w.store.slots[id := v.store.slots[id]]
    && var s, t := w.store.slots[id].events, v.store.slots[id].events;
    && |t| == |s| + 1 && t == s + [t[|s|]] && t[|s|].body.entry == ch.entry
    && var c := StateOf(v.store, id);
    && c.status == ch.state.status && c.session == ch.state.session && c.stale == ch.state.stale
    && c.model == ch.state.model && c.probe == AimedProbe(ch.state.probe, ch.target, |t|)
  }

  lemma Written(h: Hasher, st: Store, w: World, id: CaseId, ch: Change, at: int, v: World)
    requires w.store == st && ch.state.id == id && v.intents == w.intents && v.leased == w.leased
    requires Wrote(h, st, ch.state, ch.entry, ch.archive, ch.target, at, v.store)
    ensures OneEvent(w, id, ch, v) && v.store.slots[id].events[|w.store.slots[id].events|].body.at == at
  {
    hide NextNumber, Filled, AimedProbe;
  }

  /** An operation that is decided on is done. */
  lemma Performs(h: Hasher, config: Config, w: World, id: CaseId, session: Session, a: Action, now: int, at: int)
    returns (v: World, ch: Change)
    requires WorldInv(h, config, w) && Exists(w.store, id) && !IsLifecycle(a)
    requires Perform(config, now, session, StateOf(w.store, id), w.store.slots[id].events, a).Some?
    ensures Perform(config, now, session, StateOf(w.store, id), w.store.slots[id].events, a) == Some(ch)
    ensures Next(h, config, w, Operates(id, session, a, now), at) == Ok(v)
    ensures WorldInv(h, config, v) && OneEvent(w, id, ch, v)
    ensures v.store.slots[id].events[|w.store.slots[id].events|].body.at == at
  {
    hide LifeInv, Perform, Write, Wrote, Shifted, OneEvent;
    ch := Perform(config, now, session, StateOf(w.store, id), w.store.slots[id].events, a).value;
    assert Guarded(w.store, id, a);
    AttemptKeeps(h, config, now, w.store, id, session, a, at);
    v := w.(store := Attempt(h, config, now, w.store, id, session, a, at).value);
    assert Next(h, config, w, Operates(id, session, a, now), at) == Operate(h, config, now, w, id, session, a, at);
    assert ch.state.id == id by {
      StoreOf(h, config, w);
      Halves(h, config, w.store);
      Identity(h, w.store, id);
    }
    Written(h, w.store, w, id, ch, at, v);
  }

  /** An active case that owes nothing. */
  predicate IdleOn(st: Store, id: CaseId, s: Session) {
    IsActive(st, id, s) && Unencumbered(StateOf(st, id))
  }

  lemma CaseHolds(h: Hasher, config: Config, w: World, id: CaseId)
    requires WorldInv(h, config, w) && Exists(w.store, id)
    ensures CaseInv(config, w.store.slots[id])
  {
    hide StoreInv, SingleActive, CaseInv, PastOk, MarkerOk;
    assert SlotOk(config, w.store.slots[id]);
  }

  /** A case can be opened on a vacant session. */
  lemma OpensOn(h: Hasher, config: Config, w: World, id: CaseId, s: Session, at: int) returns (v: World)
    requires WorldInv(h, config, w) && s != "" && Vacant(w.store, s) && !Exists(w.store, id)
    ensures Next(h, config, w, Opens(id, s, BARE, []), at) == Ok(v)
    ensures WorldInv(h, config, v) && v.intents == w.intents && v.leased == w.leased
    ensures IdleOn(v.store, id, s) && v.store.slots == w.store.slots[id := v.store.slots[id]]
    ensures |v.store.slots[id].events| == 1 && v.store.slots[id].events[0].body.entry == CaseOpened
  {
    hide LifeInv, AcceptsModel, NormalModel, OpeningContext, OpenTransaction, Effect, Transacted;
    BareAccepted(BARE, OpeningContext([]));
    OpenDone(h, config, w, id, s, BARE, [], at);
    StoreOf(h, config, w);
    Halves(h, config, w.store);
    Parts(h, w.store);
    OpenLands(h, w.store, id, s, BARE, [], at);
    v := w.(store := OpenTransaction(h, w.store, id, s, BARE, [], at).value);
    assert Next(h, config, w, Opens(id, s, BARE, []), at) == Open(h, w, id, s, BARE, [], at);
  }

  /** Where no advice is asked for, an idle case can commit a probe. */
  lemma CommitsOn(h: Hasher, config: Config, w: World, id: CaseId, s: Session, tool: string, at: int) returns (v: World)
    requires WorldInv(h, config, w) && IdleOn(w.store, id, s) && !config.enabled
    requires tool != "" && tool != "clarify" && !Reserved(tool)
    ensures Next(h, config, w, Operates(id, s, CommitProbe(tool, SystemState, None), 0), at) == Ok(v)
    ensures WorldInv(h, config, v) && v.intents == w.intents && v.leased == w.leased
    ensures IsActive(v.store, id, s) && v.store.slots == w.store.slots[id := v.store.slots[id]]
    ensures var c := StateOf(v.store, id);
            !c.stale && c.probe.Some? && c.probe.value.status.Committed? && c.probe.value.tool == tool
  {
    hide WorldInv, Next, Usable, ConsultedAtTip, CaseInv;
    var a := CommitProbe(tool, SystemState, None);
    CaseHolds(h, config, w, id);
    SettledCanGoOn(config, w.store.slots[id], s, tool, SystemState);
    CommitPlan(config, 0, s, StateOf(w.store, id), w.store.slots[id].events, tool);
    hide Perform;
    var ch: Change;
    v, ch := Performs(h, config, w, id, s, a, 0, at);
  }

  lemma CommitPlan(config: Config, now: int, s: Session, c: Case, events: seq<Event>, tool: string)
    ensures var p := Perform(config, now, s, c, events, CommitProbe(tool, SystemState, None));
            && p == PlanCommit(config, c, events, s, tool, SystemState, None)
            && (p.Some? ==> var n := p.value.state;
                            n.status == c.status && n.session == c.session && n.stale == c.stale
                            && n.probe.Some? && n.probe.value.status.Committed? && n.probe.value.tool == tool)
  {
    hide Usable, Consulted;
  }

  /** A lifecycle pause leaves the session vacant. */
  lemma PausesOn(h: Hasher, config: Config, w: World, id: CaseId, s: Session, at: int) returns (v: World)
    requires WorldInv(h, config, w) && IsActive(w.store, id, s)
    ensures Next(h, config, w, Pauses(s, false), at) == Ok(v)
    ensures WorldInv(h, config, v) && v.intents == w.intents && v.leased == w.leased && Vacant(v.store, s)
    ensures Exists(v.store, id) && StateOf(v.store, id).probe == StateOf(w.store, id).probe
    ensures v.store.slots == w.store.slots[id := v.store.slots[id]]
  {
    hide LifeInv, Perform, Write, Wrote, Outline, Shifted, OneEvent, Vacant;
    var a := LifecyclePause(false);
    StoreOf(h, config, w);
    OnlyOn(h, config, w, id, s);
    AttemptKeeps(h, config, 0, w.store, id, s, a, at);
    PausePlan(config, 0, s, StateOf(w.store, id), w.store.slots[id].events);
    var ch := Perform(config, 0, s, StateOf(w.store, id), w.store.slots[id].events, a).value;
    v := w.(store := Attempt(h, config, 0, w.store, id, s, a, at).value);
    assert Next(h, config, w, Pauses(s, false), at) == PauseSession(h, config, w, s, false, at);
    assert ch.state.id == id by {
      Halves(h, config, w.store);
      Identity(h, w.store, id);
    }
    Written(h, w.store, w, id, ch, at, v);
    LeavesVacant(h, config, w, id, s, ch, v);
  }

  lemma OnlyOn(h: Hasher, config: Config, w: World, id: CaseId, s: Session)
    requires WorldInv(h, config, w) && IsActive(w.store, id, s)
    ensures ActiveOf(w.store, s) == Some(id)
  {
    hide StoreInv, AllSlots;
  }

  lemma PausePlan(config: Config, now: int, s: Session, c: Case, events: seq<Event>)
    ensures var p := Perform(config, now, s, c, events, LifecyclePause(false));
            && (p.Some? <==> c.status.Active?)
            && (p.Some? ==> p.value.state == c.(status := Paused) && p.value.target.NoTarget?)
  {
  }

  lemma LeavesVacant(h: Hasher, config: Config, w: World, id: CaseId, s: Session, ch: Change, v: World)
    requires WorldInv(h, config, w) && IsActive(w.store, id, s) && OneEvent(w, id, ch, v)
    requires ch.state == StateOf(w.store, id).(status := Paused) && ch.target.NoTarget?
    ensures Exists(v.store, id) && Vacant(v.store, s) && StateOf(v.store, id).probe == StateOf(w.store, id).probe
    ensures v.store.slots == w.store.slots[id := v.store.slots[id]]
  {
    hide StoreInv, AllSlots;
    forall other ensures !IsActive(v.store, other, s) {
      assert IsActive(v.store, other, s) ==> other != id && IsActive(w.store, other, s);
    }
  }

  /** Nothing has come of any call yet. */
  predicate NoAnswers(events: seq<Event>) {
    forall i :: 0 <= i < |events| ==> !events[i].body.entry.Offered? && !events[i].body.entry.OfferFailed?
  }

  lemma {:induction false} NothingUsed(events: seq<Event>, now: int)
    requires NoAnswers(events)
    ensures Attempts(events) == 0 && Tokens(events) == 0 && ValidOffer(events, now).None?
            && FailureRun(events) == (0, None)
  {
    assert OfferedIds(events) + FailedIds(events) == {};
    var i := NewestOpenIsLast(events, AnsweredIds(events));
    if events != [] {
      NothingUsed(events[..|events| - 1], now);
    }
  }

  /** `after` is `before` and the start of one more call. */
  predicate CallAdded(before: seq<Event>, offer: string, after: seq<Event>) {
    && |after| == |before| + 1 && after == before + [after[|before|]]
    && after[|before|].body.entry == OfferStarted(offer, ProbePoint)
  }

  /** The configuration lets advice be asked for. */
  predicate Callable(config: Config) {
    config.enabled && !config.misconfigured && config.hasKey && config.maxCalls > 0 && config.maxTokens > 0
  }

  lemma StillNoAnswers(before: seq<Event>, offer: string, after: seq<Event>)
    requires NoAnswers(before) && CallAdded(before, offer, after)
    ensures NoAnswers(after)
  {
  }

  /** While nothing has come of earlier calls, an idle case can start another. */
  lemma CallsOn(h: Hasher, config: Config, w: World, id: CaseId, s: Session, offer: string, at: int) returns (v: World)
    requires WorldInv(h, config, w) && IdleOn(w.store, id, s) && NoAnswers(w.store.slots[id].events)
    requires Callable(config)
    requires FreshOffer(w.store.slots[id].events, offer)
    ensures Next(h, config, w, Operates(id, s, StartOffer(offer, ProbePoint), 0), at) == Ok(v)
    ensures WorldInv(h, config, v) && IdleOn(v.store, id, s)
    ensures CallAdded(w.store.slots[id].events, offer, v.store.slots[id].events)
    ensures NoAnswers(v.store.slots[id].events)
  {
    hide WorldInv, Next, Usable, CaseInv, FreshOffer, NoAnswers;
    CaseHolds(h, config, w, id);
    UsableIsFlags(config, w.store.slots[id]);
    NothingUsed(w.store.slots[id].events, 0);
    CallPlan(config, StateOf(w.store, id), w.store.slots[id].events, s, offer);
    hide Perform;
    var ch: Change;
    v, ch := Performs(h, config, w, id, s, StartOffer(offer, ProbePoint), 0, at);
    StillNoAnswers(w.store.slots[id].events, offer, v.store.slots[id].events);
  }

  lemma {:induction false} CallPlan(config: Config, c: Case, events: seq<Event>, s: Session, offer: string)
    requires Owns(c, s) && c.probe.None? && Usable(c, events) && FreshOffer(events, offer)
    requires Callable(config)
    requires Attempts(events) == 0 && Tokens(events) == 0 && ValidOffer(events, 0).None?
             && FailureRun(events) == (0, None)
    ensures Perform(config, 0, s, c, events, StartOffer(offer, ProbePoint))
            == Some(Change(c, OfferStarted(offer, ProbePoint), false, NoTarget))
  {
    hide Usable, FreshOffer, Attempts, Tokens, ValidOffer, FailureRun;
  }

  /** A call under way can fail, and its failure is one of the service. */
  lemma FailureIs(config: Config, now: int, session: Session, c: Case, events: seq<Event>, offer: string, point: Point)
    requires offer in OpenCalls(events) && WasStarted(events, offer, point)
    ensures Perform(config, now, session, c, events, FailOffer(offer, point, TransportError))
            == Some(Change(c, OfferFailed(offer, point, TransportError), false, NoTarget))
  {
    FailedMeans(events, offer);
    hide HasFailed, WasStarted, StartedIds, FailedIds, LostIds, OfferedIds;
    assert MayFail(events, offer, point, TransportError);
  }

  lemma FailurePlan(config: Config, now: int, session: Session, c: Case, events: seq<Event>, offer: string)
    returns (point: Point)
    requires offer in OpenCalls(events)
    ensures Perform(config, now, session, c, events, FailOffer(offer, point, TransportError))
            == Some(Change(c, OfferFailed(offer, point, TransportError), false, NoTarget))
  {
    var e :| e in events && e.body.entry.OfferStarted? && e.body.entry.offer == offer;
    point := e.body.entry.point;
    assert WasStarted(events, offer, point);
    hide OpenCalls, Perform;
    FailureIs(config, now, session, c, events, offer, point);
  }

  /** A string of any length. */
  function Name(k: nat): (s: string)
    ensures |s| == k
  {
    if k == 0 then "" else "a" + Name(k - 1)
  }
}
