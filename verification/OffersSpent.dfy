/** A run that ends in a case which cannot be closed: the calls are used up by
    offers, and the time for an answer is past. */
module OffersSpent {
  import opened Wrappers
  import opened Records
  import opened Consultation
  import opened CallBudget
  import opened Harness
  import opened Invariants
  import opened Sessions
  import opened Lifecycle
  import opened Effects
  import opened Progress
  import opened Walks
  import opened Closable
  import opened Closing

  /** Nothing failed or was answered, and no offer can be. */
  predicate Unanswerable(e: Entry) {
    && !e.OfferFailed? && !e.Chosen? && !e.Excused?
    && (e.Offered? ==> e.tokens == 0 && e.expires.None?)
  }

  ghost predicate Plain(events: seq<Event>) {
    forall i :: 0 <= i < |events| ==> Unanswerable(events[i].body.entry)
  }

  lemma PlainGrows(events: seq<Event>, e: Event)
    requires Plain(events) && Unanswerable(e.body.entry)
    ensures Plain(events + [e])
  {
  }

  lemma {:induction false} PlainUses(events: seq<Event>)
    requires Plain(events)
    ensures Tokens(events) == 0 && FailureRun(events) == (0, None)
    ensures FailedIds(events) == {}
  {
    if events != [] {
      assert Unanswerable(events[|events| - 1].body.entry);
      PlainUses(events[..|events| - 1]);
    }
  }

  lemma {:induction false} PlainWaits(events: seq<Event>, now: int)
    requires Plain(events)
    ensures ValidOffer(events, now).None? && !ConsultedAtTip(events, ClosePoint)
  {
    var i := NewestOpenIsLast(events, AnsweredIds(events));
    if events != [] {
      assert Unanswerable(events[|events| - 1].body.entry);
    }
  }

  /** `k` offers have been made, and no call is under way. */
  ghost predicate Served(events: seq<Event>, k: nat) {
    Plain(events) && |OfferedIds(events)| == k && OpenCalls(events) == {}
  }

  lemma ServedOnce(config: Config, events: seq<Event>, k: nat, start: Event, e: Event)
    requires Served(events, k) && GateInv(config, events + [start] + [e])
    requires start.body.entry.OfferStarted? && e.body.entry.Offered? && Unanswerable(e.body.entry)
    requires start.body.entry.offer == e.body.entry.offer
    ensures Served(events + [start] + [e], k + 1)
  {
    hide GateInv, OpenCalls, OfferedIds, FailedIds, Plain;
    var mid := events + [start];
    LastBacked(config, mid, e);
    StartAdds(config, events, start);
    EndTurns(config, mid, e);
    UsageGrows(events, start);
    UsageGrows(mid, e);
    PlainGrows(events, start);
    PlainGrows(mid, e);
  }

  lemma OfferPlan(config: Config, now: int, s: Session, c: Case, events: seq<Event>, offer: string)
    requires Owns(c, s) && Sequential(events) && events != []
    requires events[|events| - 1].body.entry == OfferStarted(offer, ProbePoint)
    ensures Perform(config, now, s, c, events, RecordOffer(offer, ProbePoint, |events|, 0, None, {}))
            == Some(Change(c, Offered(offer, ProbePoint, |events|, 0, None, {}), false, NoTarget))
  {
  }

  lemma ProbeCallPlan(config: Config, s: Session, c: Case, events: seq<Event>, offer: string)
    requires Owns(c, s) && c.probe.None? && Usable(c, events) && FreshOffer(events, offer) && Callable(config)
    requires Plain(events) && |OfferedIds(events)| < config.maxCalls
    ensures Perform(config, 0, s, c, events, StartOffer(offer, ProbePoint))
            == Some(Change(c, OfferStarted(offer, ProbePoint), false, NoTarget))
  {
    hide Usable, FreshOffer, Tokens, ValidOffer, FailureRun, OfferedIds, FailedIds, Plain, Perform;
    PlainUses(events);
    PlainWaits(events, 0);
    assert OfferedIds(events) + FailedIds(events) == OfferedIds(events);
    StartIs(config, 0, s, c, events, offer);
  }

  lemma StartIs(config: Config, now: int, s: Session, c: Case, events: seq<Event>, offer: string)
    ensures Perform(config, now, s, c, events, StartOffer(offer, ProbePoint))
            == PlanStartOffer(config, c, events, s, offer, ProbePoint, now)
  {
    hide PlanStartOffer;
  }

  /** One more offer. */
  lemma ServesMore(h: Hasher, config: Config, from: Moment, p: Moment, id: CaseId, s: Session, k: nat)
    returns (q: Moment)
    requires Here(h, config, from, p, id, s) && p.time == 0 && Unencumbered(CaseAt(p, id)) && Callable(config)
    requires Served(EventsAt(p, id), k) && k < config.maxCalls
    ensures Here(h, config, from, q, id, s) && q.time == 0 && Unencumbered(CaseAt(q, id))
    ensures Served(EventsAt(q, id), k + 1)
  {
    hide WorldInv, Arrives, CaseInv, OneEvent, GateInv, OpenCalls, OfferedIds, Plain, FreshOffer, Usable;
    var events := EventsAt(p, id);
    var offer := Beyond(StartedIds(events));
    StartedMeans(events, offer);
    CaseHolds(h, config, p.world, id);
    UsableIsFlags(config, p.world.store.slots[id]);
    ProbeCallPlan(config, s, CaseAt(p, id), events, offer);
    hide Perform;
    var start, e;
    q, start := Notes(h, config, from, p, id, s, StartOffer(offer, ProbePoint), 0, OfferStarted(offer, ProbePoint));
    OfferPlan(config, 0, s, CaseAt(q, id), EventsAt(q, id), offer);
    var n := |EventsAt(q, id)|;
    q, e := Notes(h, config, from, q, id, s, RecordOffer(offer, ProbePoint, n, 0, None, {}), 0,
                  Offered(offer, ProbePoint, n, 0, None, {}));
    ServedOnce(config, events, k, start, e);
  }

  lemma {:induction false} Serves(h: Hasher, config: Config, id: CaseId, s: Session, k: nat) returns (p: Moment)
    requires Callable(config) && s != "" && k <= config.maxCalls
    ensures Here(h, config, Moment(EMPTY_WORLD, 0), p, id, s) && p.time == 0
    ensures Unencumbered(CaseAt(p, id)) && Served(EventsAt(p, id), k)
  {
    hide WorldInv, Arrives, Next, Served, Unencumbered;
    var from := Moment(EMPTY_WORLD, 0);
    if k == 0 {
      EmptyWorld(h, config);
      ArrivesNowhere(h, config, from);
      var v := OpensOn(h, config, EMPTY_WORLD, id, s, 0);
      p := Moment(v, 0);
      ArrivesFurther(h, config, from, from, Opens(id, s, BARE, []), 0, v);
      ServedNone(EventsAt(p, id));
    } else {
      p := Serves(h, config, id, s, k - 1);
      p := ServesMore(h, config, from, p, id, s, k - 1);
    }
  }

  lemma ServedNone(events: seq<Event>)
    requires |events| == 1 && events[0].body.entry == CaseOpened
    ensures Served(events, 0)
  {
    assert OfferedIds(events) == {} && StartedIds(events) == {};
  }

  lemma ServedSticks(config: Config, c: Case, events: seq<Event>, now: int)
    requires Callable(config) && Served(events, config.maxCalls) && !c.status.Closed?
    ensures !MayYetClose(config, c, events, now)
  {
    PlainUses(events);
    PlainWaits(events, now);
    assert OfferedIds(events) + FailedIds(events) == OfferedIds(events);
    hide OfferedIds, FailedIds, OpenCalls, Tokens, FailureRun, ValidOffer, ConsultedAtTip, Plain;
    assert |FailedIds(events)| == 0 && |OpenCalls(events)| == 0;
  }

  /** Some runs do end in a case that cannot be closed: once the calls are used up by
      offers, none of them failed, and the last offer is past, no run closes the case
      as long as advice is required. */
  lemma OffersUseUpClosing(h: Hasher, config: Config, id: CaseId, s: Session) returns (p: Moment)
    requires Callable(config) && s != ""
    ensures Arrives(h, config, Moment(EMPTY_WORLD, 0), p) && IsActive(p.world.store, id, s)
    ensures Unencumbered(CaseAt(p, id))
    ensures forall now :: !CanClose(h, config, Moment(p.world, now), id)
  {
    hide WorldInv, Arrives, CanClose, MayYetClose, Served;
    p := Serves(h, config, id, s, config.maxCalls);
    forall now ensures !CanClose(h, config, Moment(p.world, now), id) {
      ServedSticks(config, CaseAt(p, id), EventsAt(p, id), now);
      ClosingExact(h, config, Moment(p.world, now), id);
    }
  }
}
