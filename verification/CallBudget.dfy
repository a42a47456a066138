/** How many calls for advice a case can complete when calls overlap: when the
    limit on them holds, and by how much it can be passed. */
module CallBudget {
  import opened Records
  import opened Consultation

  function StartedIds(events: seq<Event>): set<string> {
    set e | e in events && e.body.entry.OfferStarted? :: e.body.entry.offer
  }

  /** The calls that ended in a failure that does not count. */
  function LostIds(events: seq<Event>): set<string> {
    set e | e in events && e.body.entry.OfferFailed? && !Excusable(e.body.entry.reason) :: e.body.entry.offer
  }

  /** The calls that count as attempts. */
  function EndedIds(events: seq<Event>): set<string> {
    OfferedIds(events) + FailedIds(events)
  }

  /** The calls still under way. */
  function OpenCalls(events: seq<Event>): set<string> {
    StartedIds(events) - EndedIds(events) - LostIds(events)
  }

  /** The attempts there will be if every call under way ends as one. */
  function Prospective(events: seq<Event>): nat {
    Attempts(events) + |OpenCalls(events)|
  }

  // ---------------------------------------------------------------- one event

  lemma CallsGrow(events: seq<Event>, e: Event)
    ensures StartedIds(events + [e])
            == StartedIds(events) + (if e.body.entry.OfferStarted? then {e.body.entry.offer} else {})
    ensures LostIds(events + [e])
            == LostIds(events)
               + (if e.body.entry.OfferFailed? && !Excusable(e.body.entry.reason) then {e.body.entry.offer} else {})
  {
    assert forall x :: x in events + [e] <==> x in events || x == e;
  }

  lemma FailedMeans(events: seq<Event>, offer: string)
    ensures HasFailed(events, offer) <==> offer in FailedIds(events) + LostIds(events)
  {
    if HasFailed(events, offer) {
      var e :| e in events && e.body.entry.OfferFailed? && e.body.entry.offer == offer;
    }
  }

  lemma StartedMeans(events: seq<Event>, offer: string)
    ensures FreshOffer(events, offer) <==> offer !in StartedIds(events)
    ensures forall point :: WasStarted(events, offer, point) ==> offer in StartedIds(events)
  {
  }

  lemma LastBacked(config: Config, events: seq<Event>, e: Event)
    requires GateInv(config, events + [e])
    ensures GateInv(config, events)
    ensures e.body.entry.OfferFailed? ==> MayFail(events, e.body.entry.offer, e.body.entry.point, e.body.entry.reason)
    ensures e.body.entry.OfferStarted? ==> BudgetLeft(config, events) && FreshOffer(events, e.body.entry.offer)
    ensures e.body.entry.Offered? ==>
              events != [] && events[|events| - 1].body.entry == OfferStarted(e.body.entry.offer, e.body.entry.point)
  {
    var more := events + [e];
    hide GateInv;
    assert more[..|events|] == events;
    GatePrefix(config, more, |events|);
    assert Backed(config, more, |events|) by { BackedAt(config, more, |events|); }
  }

  lemma BackedAt(config: Config, events: seq<Event>, i: nat)
    requires GateInv(config, events) && i < |events|
    ensures Backed(config, events, i)
  {
  }

  /** Only calls that were started end. */
  lemma {:induction false} EndedWereStarted(config: Config, events: seq<Event>)
    requires GateInv(config, events)
    ensures EndedIds(events) + LostIds(events) <= StartedIds(events)
  {
    hide StartedIds, LostIds, OfferedIds, FailedIds, GateInv, MayFail, FreshOffer, BudgetLeft, Excusable;
    if events == [] {
      NoCalls();
    } else {
      var n := |events| - 1;
      var rest, e := events[..n], events[n];
      assert events == rest + [e];
      LastBacked(config, rest, e);
      EndedWereStarted(config, rest);
      CallsGrow(rest, e);
      UsageGrows(rest, e);
      if e.body.entry.Offered? {
        LastStarted(rest, e.body.entry.offer, e.body.entry.point);
      } else if e.body.entry.OfferFailed? {
        FailingWasStarted(rest, e.body.entry);
      }
    }
  }

  lemma NoCalls()
    ensures StartedIds([]) == {} && LostIds([]) == {} && OfferedIds([]) == {} && FailedIds([]) == {}
  {
  }

  lemma LastStarted(events: seq<Event>, offer: string, point: Point)
    requires events != [] && events[|events| - 1].body.entry == OfferStarted(offer, point)
    ensures offer in StartedIds(events)
  {
    assert events[|events| - 1] in events;
  }

  lemma FailingWasStarted(events: seq<Event>, e: Entry)
    requires e.OfferFailed? && MayFail(events, e.offer, e.point, e.reason)
    ensures e.offer in StartedIds(events) && e.offer !in FailedIds(events) + LostIds(events)
    ensures Excusable(e.reason) ==> e.offer !in OfferedIds(events)
  {
    StartedMeans(events, e.offer);
    FailedMeans(events, e.offer);
  }

  /** An offer is written by a call that is under way. */
  lemma OfferingIsOpen(config: Config, events: seq<Event>, e: Event)
    requires GateInv(config, events + [e]) && e.body.entry.Offered?
    ensures e.body.entry.offer in OpenCalls(events)
  {
    hide StartedIds, LostIds, OfferedIds, FailedIds, GateInv, MayFail, FreshOffer, BudgetLeft;
    LastBacked(config, events, e);
    var n := |events| - 1;
    var rest, start, offer := events[..n], events[n], e.body.entry.offer;
    assert events == rest + [start];
    LastBacked(config, rest, start);
    EndedWereStarted(config, rest);
    CallsGrow(rest, start);
    UsageGrows(rest, start);
    StartedMeans(rest, offer);
  }

  /** A start adds a call under way. */
  lemma StartAdds(config: Config, events: seq<Event>, e: Event)
    requires GateInv(config, events + [e]) && e.body.entry.OfferStarted?
    ensures Attempts(events) < config.maxCalls && e.body.entry.offer !in OpenCalls(events)
    ensures OpenCalls(events + [e]) == OpenCalls(events) + {e.body.entry.offer}
    ensures EndedIds(events + [e]) == EndedIds(events)
  {
    hide StartedIds, LostIds, OfferedIds, FailedIds, GateInv, MayFail, FreshOffer, Excusable;
    LastBacked(config, events, e);
    CallsGrow(events, e);
    UsageGrows(events, e);
    EndedWereStarted(config, events);
    StartedMeans(events, e.body.entry.offer);
  }

  /** An end that counts turns a call under way into an attempt. */
  lemma EndTurns(config: Config, events: seq<Event>, e: Event)
    requires GateInv(config, events + [e]) && (e.body.entry.Offered? || ServiceFailure(e.body.entry))
    ensures e.body.entry.offer in OpenCalls(events) && e.body.entry.offer !in EndedIds(events)
    ensures OpenCalls(events + [e]) == OpenCalls(events) - {e.body.entry.offer}
    ensures EndedIds(events + [e]) == EndedIds(events) + {e.body.entry.offer}
  {
    hide StartedIds, LostIds, OfferedIds, FailedIds, GateInv, MayFail, FreshOffer, Excusable;
    LastBacked(config, events, e);
    CallsGrow(events, e);
    UsageGrows(events, e);
    if e.body.entry.Offered? {
      OfferingIsOpen(config, events, e);
    } else {
      FailingWasStarted(events, e.body.entry);
    }
  }

  /** Nothing else adds to either. */
  lemma OthersLeave(events: seq<Event>, e: Event)
    requires !e.body.entry.OfferStarted? && !e.body.entry.Offered? && !ServiceFailure(e.body.entry)
    ensures OpenCalls(events + [e]) <= OpenCalls(events) && EndedIds(events + [e]) == EndedIds(events)
  {
    hide StartedIds, LostIds, OfferedIds, FailedIds, Excusable;
    CallsGrow(events, e);
    UsageGrows(events, e);
  }

  lemma AttemptsAre(events: seq<Event>)
    ensures Attempts(events) == |EndedIds(events)|
  {
  }

  lemma ProspectiveStep(config: Config, events: seq<Event>, e: Event)
    requires GateInv(config, events + [e])
    ensures e.body.entry.OfferStarted? ==>
              Attempts(events) < config.maxCalls && Prospective(events + [e]) == Prospective(events) + 1
    ensures !e.body.entry.OfferStarted? ==> Prospective(events + [e]) <= Prospective(events)
    ensures Attempts(events) <= Attempts(events + [e])
  {
    hide EndedIds, OpenCalls, GateInv, Attempts, ServiceFailure;
    var more := events + [e];
    AttemptsAre(events);
    AttemptsAre(more);
    if e.body.entry.OfferStarted? {
      StartAdds(config, events, e);
    } else if e.body.entry.Offered? || ServiceFailure(e.body.entry) {
      EndTurns(config, events, e);
    } else {
      OthersLeave(events, e);
      SubsetSize(OpenCalls(more), OpenCalls(events));
    }
  }

  // ------------------------------------------------------------- when it holds

  ghost predicate NoStart(events: seq<Event>) {
    forall i :: 0 <= i < |events| ==> !events[i].body.entry.OfferStarted?
  }

  /** Until another call starts, there are never more attempts than the ones made
      and the ones under way. */
  lemma {:induction false} AttemptsProspective(config: Config, events: seq<Event>, more: seq<Event>)
    requires GateInv(config, events + more) && NoStart(more)
    ensures Prospective(events + more) <= Prospective(events)
    ensures Attempts(events + more) <= Prospective(events)
  {
    hide GateInv, Prospective;
    if more == [] {
      assert events + more == events;
    } else {
      var n := |more| - 1;
      var rest := events + more[..n];
      assert events + more == rest + [more[n]];
      LastBacked(config, rest, more[n]);
      AttemptsProspective(config, events, more[..n]);
      ProspectiveStep(config, rest, more[n]);
    }
    assert Attempts(events + more) <= Prospective(events + more) by { Within(events + more); }
  }

  lemma Within(events: seq<Event>)
    ensures Attempts(events) <= Prospective(events)
  {
  }

  /** The attempts go past the limit by no more than the calls that were under way
      when the last call was let start. */
  lemma ExcessBounded(config: Config, events: seq<Event>, last: nat)
    requires GateInv(config, events) && last < |events| && events[last].body.entry.OfferStarted?
    requires NoStart(events[last + 1..])
    ensures Attempts(events) <= config.maxCalls + |OpenCalls(events[..last])|
  {
    hide GateInv, OpenCalls, Attempts;
    var before, upto := events[..last], events[..last + 1];
    assert upto == before + [events[last]] && events == upto + events[last + 1..];
    GatePrefix(config, events, last + 1);
    ProspectiveStep(config, before, events[last]);
    AttemptsProspective(config, upto, events[last + 1..]);
  }

  /** A case keeps its limit if every call was let start with room for itself and
      for all the calls then under way. */
  ghost predicate RoomyStarts(config: Config, events: seq<Event>) {
    forall i :: 0 <= i < |events| && events[i].body.entry.OfferStarted? ==> Prospective(events[..i]) < config.maxCalls
  }

  lemma {:induction false} RoomKeepsLimit(config: Config, events: seq<Event>)
    requires GateInv(config, events) && RoomyStarts(config, events)
    ensures Prospective(events) <= (if config.maxCalls < 0 then 0 else config.maxCalls)
  {
    if events == [] {
      NoCalls();
    } else {
      hide GateInv, Prospective;
      var n := |events| - 1;
      var rest := events[..n];
      assert events == rest + [events[n]];
      LastBacked(config, rest, events[n]);
      assert RoomyStarts(config, rest) by {
        forall i | 0 <= i < n && rest[i].body.entry.OfferStarted? ensures Prospective(rest[..i]) < config.maxCalls {
          assert rest[..i] == events[..i] && rest[i] == events[i];
        }
      }
      RoomKeepsLimit(config, rest);
      ProspectiveStep(config, rest, events[n]);
    }
  }

  /** Calls that never overlap never go past the limit. */
  lemma NoOverlapKeepsLimit(config: Config, events: seq<Event>)
    requires GateInv(config, events)
    requires forall i :: 0 <= i < |events| && events[i].body.entry.OfferStarted? ==> OpenCalls(events[..i]) == {}
    ensures Attempts(events) <= (if config.maxCalls < 0 then 0 else config.maxCalls)
  {
    forall i | 0 <= i < |events| && events[i].body.entry.OfferStarted?
      ensures Prospective(events[..i]) < config.maxCalls
    {
      BackedAt(config, events, i);
    }
    hide GateInv, OpenCalls;
    RoomKeepsLimit(config, events);
    Within(events);
  }
}
