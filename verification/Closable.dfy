/** Which cases can still be closed when advice is required: what must be left of
    the calls, the waivers and the time, told from the Timeline and the clock. */
module Closable {
  import opened Wrappers
  import opened Records
  import opened Consultation
  import opened CallBudget
  import opened Harness
  import opened Invariants

  /** Another call for advice can be made, at once or when the cooldown is over. */
  predicate CallsLeft(config: Config, events: seq<Event>) {
    config.hasKey && BudgetLeft(config, events)
  }

  /** A call for the decision to close is under way; its failure is a consultation. */
  predicate CloseCallOpen(events: seq<Event>) {
    exists offer :: offer in OpenCalls(events) && WasStarted(events, offer, ClosePoint)
  }

  /** The failures there are, and those there will be if every call under way fails,
      use the calls up. */
  predicate FailuresUseUp(config: Config, events: seq<Event>) {
    config.maxCalls <= |FailedIds(events)| + |OpenCalls(events)|
  }

  /** The cooldown holds at `now`, or will once every call under way has failed. */
  predicate CooldownAhead(config: Config, events: seq<Event>, now: int) {
    && Tokens(events) < config.maxTokens && config.cooldown > 0
    && (|| CooldownActive(config, events, now)
        || (OpenCalls(events) != {} && FailureRun(events).0 + |OpenCalls(events)| >= config.maxFailures))
  }

  predicate WaiverAhead(config: Config, events: seq<Event>, now: int) {
    config.hasKey && (FailuresUseUp(config, events) || CooldownAhead(config, events, now))
  }

  /** An offer for the decision to close waits for its answer. */
  predicate CloseOfferWaits(events: seq<Event>, now: int) {
    && ValidOffer(events, now).Some?
    && var o := ValidOffer(events, now).value.body.entry; o.Offered? && o.point.ClosePoint?
  }

  /** The last event is a consultation on closing, or an offer of one, and nothing
      has to be settled after it. */
  predicate AtClosingTip(c: Case, events: seq<Event>, now: int) {
    && c.status.Active? && Unencumbered(c)
    && (ConsultedAtTip(events, ClosePoint) || CloseOfferWaits(events, now))
  }

  predicate AdviceAhead(config: Config, c: Case, events: seq<Event>, now: int) {
    || CallsLeft(config, events) || CloseCallOpen(events) || WaiverAhead(config, events, now)
    || AtClosingTip(c, events, now)
  }

  /** From `now` on the case may yet be closed. */
  predicate MayYetClose(config: Config, c: Case, events: seq<Event>, now: int) {
    || c.status.Closed? || !config.enabled
    || (!config.misconfigured && AdviceAhead(config, c, events, now))
  }

  // ------------------------------------------------- nothing brings it back

  predicate Unrelated(e: Entry) {
    !e.OfferStarted? && !e.Offered? && !e.OfferFailed? && !e.Chosen? && !e.Excused?
  }

  lemma {:induction false} TokensGrow(events: seq<Event>, e: Event)
    ensures Tokens(events) <= Tokens(events + [e])
  {
    hide Tokens, OfferedIds, FailedIds;
    UsageGrows(events, e);
  }

  lemma CallsLeftBefore(config: Config, events: seq<Event>, e: Event)
    requires GateInv(config, events + [e]) && CallsLeft(config, events + [e])
    ensures CallsLeft(config, events)
  {
    hide GateInv, Attempts, Prospective, Tokens;
    TokensGrow(events, e);
    ProspectiveStep(config, events, e);
  }

  /** How one event changes the calls under way and the failures that count. */
  lemma OpenStep(config: Config, events: seq<Event>, e: Event)
    requires GateInv(config, events + [e]) && !e.body.entry.OfferStarted?
    ensures var before, after := OpenCalls(events), OpenCalls(events + [e]);
            && after <= before && |after| <= |before|
            && if ServiceFailure(e.body.entry)
               then e.body.entry.offer in before && after == before - {e.body.entry.offer}
                    && e.body.entry.offer !in FailedIds(events)
                    && FailedIds(events + [e]) == FailedIds(events) + {e.body.entry.offer}
               else FailedIds(events + [e]) == FailedIds(events)
  {
    hide GateInv, OpenCalls, OfferedIds, FailedIds;
    UsageGrows(events, e);
    if e.body.entry.Offered? || ServiceFailure(e.body.entry) {
      EndTurns(config, events, e);
    } else {
      OthersLeave(events, e);
    }
    SubsetSize(OpenCalls(events + [e]), OpenCalls(events));
  }

  lemma CloseCallBefore(config: Config, events: seq<Event>, e: Event)
    requires GateInv(config, events + [e]) && !e.body.entry.OfferStarted? && CloseCallOpen(events + [e])
    ensures CloseCallOpen(events)
  {
    hide GateInv, OpenCalls, FailedIds;
    OpenStep(config, events, e);
    var offer :| offer in OpenCalls(events + [e]) && WasStarted(events + [e], offer, ClosePoint);
    assert WasStarted(events, offer, ClosePoint);
  }

  lemma FailuresUseUpBefore(config: Config, events: seq<Event>, e: Event)
    requires GateInv(config, events + [e]) && !e.body.entry.OfferStarted? && FailuresUseUp(config, events + [e])
    ensures FailuresUseUp(config, events)
  {
    hide GateInv, OpenCalls, FailedIds;
    OpenStep(config, events, e);
  }

  lemma {:induction false} RunStep(events: seq<Event>, e: Event)
    ensures FailureRun(events + [e]) ==
            if EndsRun(e.body.entry) then (0, None)
            else if ServiceFailure(e.body.entry) then (FailureRun(events).0 + 1, Some(e.body.at))
            else FailureRun(events)
  {
    assert (events + [e])[..|events|] == events;
  }

  lemma CooldownAheadBefore(config: Config, events: seq<Event>, e: Event, now: int, later: int)
    requires GateInv(config, events + [e]) && !e.body.entry.OfferStarted? && now <= later
    requires CooldownAhead(config, events + [e], later)
    ensures CooldownAhead(config, events, now)
  {
    hide GateInv, OpenCalls, FailedIds, Tokens, FailureRun;
    OpenStep(config, events, e);
    TokensGrow(events, e);
    RunStep(events, e);
    if ServiceFailure(e.body.entry) {
      assert OpenCalls(events) != {} && |OpenCalls(events)| >= 1;
    }
  }

  lemma WaiverBefore(config: Config, events: seq<Event>, e: Event, now: int, later: int)
    requires GateInv(config, events + [e]) && !e.body.entry.OfferStarted? && now <= later
    requires WaiverAhead(config, events + [e], later)
    ensures WaiverAhead(config, events, now)
  {
    hide GateInv, FailuresUseUp, CooldownAhead;
    if FailuresUseUp(config, events + [e]) {
      FailuresUseUpBefore(config, events, e);
    } else {
      CooldownAheadBefore(config, events, e, now, later);
    }
  }

  /** What the checks behind a change at time `now` have seen. */
  predicate Decided(config: Config, c: Case, events: seq<Event>, now: int, e: Entry, d: Case) {
    && (e.OfferStarted? ==> CallsLeft(config, events))
    && (e == Excused(ClosePoint) ==> WaiverDue(config, events, now))
    && (e.Chosen? && e.point.ClosePoint? ==>
          CloseOfferWaits(events, now) && c.status.Active? && (Unencumbered(d) ==> Unencumbered(c)))
    && (d.status.Closed? ==>
          c.status.Closed? || (c.status.Active? && Unencumbered(c) && Consulted(config, events, ClosePoint)))
  }

  lemma OpenOfferTip(events: seq<Event>, now: int)
    requires Sequential(events) && CloseOfferWaits(events, now)
    ensures events != []
    ensures var e := events[|events| - 1].body.entry; e.Offered? && e.point.ClosePoint?
  {
    ValidOfferIsTip(events, now);
  }

  /** What waits at `later` waits at every time before. */
  lemma WaitsSooner(events: seq<Event>, now: int, later: int)
    requires CloseOfferWaits(events, later) && now <= later
    ensures CloseOfferWaits(events, now)
  {
  }

  lemma WaiverIsAhead(config: Config, events: seq<Event>, now: int, later: int)
    requires WaiverDue(config, events, later) && now <= later
    ensures WaiverAhead(config, events, now)
  {
  }

  lemma StartedCloseCall(config: Config, events: seq<Event>, e: Event)
    requires GateInv(config, events + [e])
    requires e.body.entry.Offered? || ServiceFailure(e.body.entry)
    requires e.body.entry.point.ClosePoint?
    ensures CloseCallOpen(events)
  {
    hide GateInv, OpenCalls, Excusable;
    LastBacked(config, events, e);
    EndTurns(config, events, e);
    var offer := e.body.entry.offer;
    if e.body.entry.Offered? {
      assert events[|events| - 1] in events;
    }
    assert WasStarted(events, offer, ClosePoint);
  }

  /** A closing tip has come about by what was ahead before. */
  lemma TipBefore(config: Config, c: Case, events: seq<Event>, e: Event, d: Case, now: int, decided: int, later: int)
    requires GateInv(config, events + [e]) && Sequential(events + [e]) && now <= decided && now <= later
    requires Decided(config, c, events, decided, e.body.entry, d)
    requires AtClosingTip(d, events + [e], later)
    ensures AdviceAhead(config, c, events, now)
  {
    hide GateInv, CallsLeft, CloseCallOpen, WaiverAhead, WaiverDue, CloseOfferWaits, Sequential;
    var more := events + [e];
    if ConsultedAtTip(more, ClosePoint) {
      if e.body.entry.Chosen? {
        WaitsSooner(events, now, decided);
      } else if e.body.entry.Excused? {
        WaiverIsAhead(config, events, now, decided);
      } else {
        StartedCloseCall(config, events, e);
      }
    } else {
      OpenOfferTip(more, later);
      StartedCloseCall(config, events, e);
    }
  }

  /** Where advice is ahead after an event, it was before. */
  lemma AdviceBefore(config: Config, c: Case, events: seq<Event>, e: Event, d: Case, now: int, decided: int, later: int)
    requires GateInv(config, events + [e]) && Sequential(events + [e]) && now <= decided && now <= later
    requires Decided(config, c, events, decided, e.body.entry, d)
    requires AdviceAhead(config, d, events + [e], later)
    ensures AdviceAhead(config, c, events, now)
  {
    hide GateInv, CallsLeft, CloseCallOpen, WaiverAhead, AtClosingTip, Sequential;
    var more := events + [e];
    if e.body.entry.OfferStarted? {
    } else if CallsLeft(config, more) {
      CallsLeftBefore(config, events, e);
    } else if CloseCallOpen(more) {
      CloseCallBefore(config, events, e);
    } else if WaiverAhead(config, more, later) {
      WaiverBefore(config, events, e, now, later);
    } else {
      TipBefore(config, c, events, e, d, now, decided, later);
    }
  }

  /** A case that may not close any more stays one, whatever is done with it. */
  lemma MayBefore(config: Config, c: Case, events: seq<Event>, e: Event, d: Case, now: int, decided: int, later: int)
    requires GateInv(config, events + [e]) && Sequential(events + [e]) && now <= decided && now <= later
    requires Decided(config, c, events, decided, e.body.entry, d)
    requires MayYetClose(config, d, events + [e], later)
    ensures MayYetClose(config, c, events, now)
  {
    hide GateInv, AdviceAhead, Sequential;
    if d.status.Closed? && !c.status.Closed? && config.enabled {
      assert AdviceAhead(config, c, events, now) by { TipIsAhead(config, c, events, now); }
    } else if !d.status.Closed? && config.enabled {
      AdviceBefore(config, c, events, e, d, now, decided, later);
    }
  }

  lemma TipIsAhead(config: Config, c: Case, events: seq<Event>, now: int)
    requires c.status.Active? && Unencumbered(c) && ConsultedAtTip(events, ClosePoint)
    ensures AdviceAhead(config, c, events, now)
  {
    hide CallsLeft, CloseCallOpen, WaiverAhead;
  }

  // --------------------------------------------------- what leads up to advice

  lemma {:induction false} NeutralSame(events: seq<Event>, e: Event)
    requires Unrelated(e.body.entry)
    ensures var more := events + [e];
            && OpenCalls(more) == OpenCalls(events) && OfferedIds(more) == OfferedIds(events)
            && FailedIds(more) == FailedIds(events) && Tokens(more) == Tokens(events)
            && FailureRun(more) == FailureRun(events)
  {
    hide OfferedIds, FailedIds, Tokens, StartedIds, LostIds, FailureRun;
    UsageGrows(events, e);
    CallsGrow(events, e);
    RunStep(events, e);
  }

  /** Events that have nothing to do with advice change nothing about it. */
  lemma NeutralKeeps(config: Config, events: seq<Event>, e: Event, now: int)
    requires Unrelated(e.body.entry)
    ensures CallsLeft(config, events) ==> CallsLeft(config, events + [e])
    ensures CloseCallOpen(events) ==> CloseCallOpen(events + [e])
    ensures WaiverAhead(config, events, now) ==> WaiverAhead(config, events + [e], now)
    ensures OpenCalls(events + [e]) == OpenCalls(events)
  {
    hide OpenCalls, OfferedIds, FailedIds, Tokens, FailureRun;
    NeutralSame(events, e);
    if CloseCallOpen(events) {
      var offer :| offer in OpenCalls(events) && WasStarted(events, offer, ClosePoint);
      assert WasStarted(events + [e], offer, ClosePoint);
    }
  }

  /** While calls are under way their failures lead on to the waiver. */
  lemma FailureKeepsWaiver(config: Config, events: seq<Event>, e: Event, now: int)
    requires GateInv(config, events + [e]) && ServiceFailure(e.body.entry) && e.body.at == now
    requires WaiverAhead(config, events, now)
    ensures WaiverAhead(config, events + [e], now)
    ensures e.body.entry.offer in OpenCalls(events)
    ensures OpenCalls(events + [e]) == OpenCalls(events) - {e.body.entry.offer}
  {
    hide GateInv, OpenCalls, FailedIds, OfferedIds, Tokens, FailureRun;
    OpenStep(config, events, e);
    UsageGrows(events, e);
    RunStep(events, e);
  }

  /** With no call under way the waiver is due. */
  lemma WaiverAtLast(config: Config, events: seq<Event>, now: int)
    requires WaiverAhead(config, events, now) && OpenCalls(events) == {}
    ensures WaiverDue(config, events, now)
  {
  }

  /** After an event that is no offer, no offer waits. */
  lemma NoOfferWaits(events: seq<Event>, now: int)
    requires Sequential(events) && events != [] && !events[|events| - 1].body.entry.Offered?
    ensures ValidOffer(events, now).None?
  {
    if ValidOffer(events, now).Some? {
      ValidOfferIsTip(events, now);
    }
  }

  /** The cooldown is over in the end. */
  lemma CooldownEnds(config: Config, events: seq<Event>, now: int) returns (later: int)
    ensures now <= later && !CooldownActive(config, events, later)
  {
    hide FailureRun;
    later := now;
    var (count, last) := FailureRun(events);
    if last.Some? && later < last.value + config.cooldown {
      later := last.value + config.cooldown;
    }
  }
}
