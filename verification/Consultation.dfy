/** What the written history of method advice means: the current offer, the
    budget, the cooldown, and whether a decision was just consulted on. */
module Consultation {
  import opened Wrappers
  import opened Records

  datatype Config = Config(enabled: bool, misconfigured: bool, hasKey: bool, maxCalls: int, maxTokens: int,
                           maxFailures: nat, cooldown: int)

  // ------------------------------------------------------------------ offers

  function AnsweredIds(events: seq<Event>): set<string> {
    set e | e in events && e.body.entry.Chosen? :: e.body.entry.offer
  }

  predicate IsOpenOffer(e: Event, answered: set<string>) {
    e.body.entry.Offered? && e.body.entry.offer != "" && e.body.entry.offer !in answered
  }

  function NewestOpen(events: seq<Event>, answered: set<string>): Option<Event> {
    if events == [] then None
    else if IsOpenOffer(events[|events| - 1], answered) then Some(events[|events| - 1])
    else NewestOpen(events[..|events| - 1], answered)
  }

  /** The newest unanswered offer. */
  function CurrentOffer(events: seq<Event>): Option<Event> {
    NewestOpen(events, AnsweredIds(events))
  }

  lemma {:induction false} NewestOpenIsLast(events: seq<Event>, answered: set<string>) returns (i: nat)
    ensures NewestOpen(events, answered).None? ==> forall k :: 0 <= k < |events| ==> !IsOpenOffer(events[k], answered)
    ensures NewestOpen(events, answered).Some? ==>
              && i < |events| && events[i] == NewestOpen(events, answered).value && IsOpenOffer(events[i], answered)
              && forall k :: i < k < |events| ==> !IsOpenOffer(events[k], answered)
  {
    hide IsOpenOffer;
    i := 0;
    if events != [] {
      var n := |events| - 1;
      if IsOpenOffer(events[n], answered) {
        i := n;
      } else {
        i := NewestOpenIsLast(events[..n], answered);
        assert forall k :: 0 <= k < n ==> events[..n][k] == events[k];
      }
    }
  }

  /** An unanswered offer that is the Timeline tip and has not expired. */
  function ValidOffer(events: seq<Event>, now: int): Option<Event> {
    match CurrentOffer(events)
    case None => None
    case Some(e) =>
      if events[|events| - 1].body.id == e.body.id && e.body.entry.Offered? && e.body.entry.expires.Some?
         && now <= e.body.entry.expires.value
      then Some(e) else None
  }

  /** An offer that can be answered stands at the tip and nobody has answered it. */
  lemma ValidOfferIsTip(events: seq<Event>, now: int)
    requires forall k :: 0 <= k < |events| ==> events[k].body.id == k + 1
    requires ValidOffer(events, now).Some?
    ensures events != [] && ValidOffer(events, now).value == events[|events| - 1]
    ensures IsOpenOffer(events[|events| - 1], AnsweredIds(events))
  {
    var i := NewestOpenIsLast(events, AnsweredIds(events));
  }

  function PreviousMethod(events: seq<Event>): Option<string> {
    if events == [] then None
    else
      var e := events[|events| - 1].body.entry;
      if e.Chosen? && e.methodId.Some? && e.methodId.value != "" then e.methodId
      else PreviousMethod(events[..|events| - 1])
  }

  /** The method an answer records, or None in Err when the answer is refused. */
  datatype Answer = Accepted(methodId: Option<string>) | BadAnswer

  function ValidateDisposition(point: Point, choice: Choice, methodId: string, candidates: set<string>,
                               previous: Option<string>): Answer
  {
    match point
    case ClosePoint => if choice.Stop? && methodId == "" then Accepted(None) else BadAnswer
    case ProbePoint =>
      match choice {
        case Stop => BadAnswer
        case ContinueSame =>
          if methodId == "" && previous.Some? && previous.value in candidates then Accepted(previous) else BadAnswer
        case ContinueDifferent =>
          if methodId != "" && methodId in candidates && previous != Some(methodId) then Accepted(Some(methodId))
          else BadAnswer
      }
  }

  // ------------------------------------------------------------------ budget

  function OfferedIds(events: seq<Event>): set<string> {
    set e | e in events && e.body.entry.Offered? :: e.body.entry.offer
  }

  function FailedIds(events: seq<Event>): set<string> {
    set e | e in events && e.body.entry.OfferFailed? && Excusable(e.body.entry.reason) :: e.body.entry.offer
  }

  function Attempts(events: seq<Event>): nat {
    |OfferedIds(events) + FailedIds(events)|
  }

  function Tokens(events: seq<Event>): nat {
    if events == [] then 0
    else
      var e := events[|events| - 1].body.entry;
      Tokens(events[..|events| - 1]) + if e.Offered? && e.tokens > 0 then e.tokens else 0
  }

  datatype Usage = Usage(attempts: nat, failures: nat, tokens: nat)

  lemma {:induction false} UsageGrows(events: seq<Event>, e: Event)
    ensures OfferedIds(events + [e]) == OfferedIds(events) + if e.body.entry.Offered? then {e.body.entry.offer} else {}
    ensures FailedIds(events + [e]) == FailedIds(events)
            + if e.body.entry.OfferFailed? && Excusable(e.body.entry.reason) then {e.body.entry.offer} else {}
    ensures Tokens(events + [e])
            == Tokens(events) + if e.body.entry.Offered? && e.body.entry.tokens > 0 then e.body.entry.tokens else 0
  {
    assert (events + [e])[..|events|] == events;
    assert forall x :: x in events + [e] <==> x in events || x == e;
  }

  /** The source's counters. */
  method BudgetUsed(events: seq<Event>) returns (used: Usage)
    ensures used == Usage(Attempts(events), |FailedIds(events)|, Tokens(events))
  {
    var offered, failed: set<string> := {}, {};
    var tokens := 0;
    for i := 0 to |events|
      invariant offered == OfferedIds(events[..i]) && failed == FailedIds(events[..i]) && tokens == Tokens(events[..i])
    {
      hide OfferedIds, FailedIds, Tokens;
      assert events[..i + 1] == events[..i] + [events[i]];
      UsageGrows(events[..i], events[i]);
      match events[i].body.entry {
        case Offered(offer, _, _, count, _, _) =>
          offered := offered + {offer};
          if count > 0 { tokens := tokens + count; }
        case OfferFailed(offer, _, reason) => if Excusable(reason) { failed := failed + {offer}; }
        case _ =>
      }
    }
    assert events[..|events|] == events;
    used := Usage(|offered + failed|, |failed|, tokens);
  }

  predicate BudgetLeft(config: Config, events: seq<Event>) {
    Attempts(events) < config.maxCalls && Tokens(events) < config.maxTokens
  }

  // ---------------------------------------------------------------- cooldown

  /** The trailing excusable failures and the time of the newest of them. An
      offer or a failure that is the caller's fault ends the run. */
  function FailureRun(events: seq<Event>): (nat, Option<int>) {
    if events == [] then (0, None)
    else
      var last, rest := events[|events| - 1], events[..|events| - 1];
      match last.body.entry
      case Offered(_, _, _, _, _, _) => (0, None)
      case OfferFailed(_, _, reason) =>
        if Excusable(reason) then (FailureRun(rest).0 + 1, Some(last.body.at)) else (0, None)
      case _ => FailureRun(rest)
  }

  method FailureState(events: seq<Event>) returns (count: nat, lastTime: Option<int>)
    ensures (count, lastTime) == FailureRun(events)
  {
    count, lastTime := 0, None;
    var i := |events|;
    assert events[..|events|] == events;
    while i > 0
      invariant 0 <= i <= |events|
      invariant FailureRun(events) == (count + FailureRun(events[..i]).0,
                                       if count > 0 then lastTime else FailureRun(events[..i]).1)
      invariant count == 0 ==> lastTime.None?
    {
      i := i - 1;
      assert events[..i + 1][..i] == events[..i];
      match events[i].body.entry {
        case Offered(_, _, _, _, _, _) => return;
        case OfferFailed(_, _, reason) =>
          if !Excusable(reason) { return; }
          if count == 0 { lastTime := Some(events[i].body.at); }
          count := count + 1;
        case _ =>
      }
    }
  }

  /** What ends a run of service failures: an offer, or a failure of the caller. */
  predicate EndsRun(e: Entry) {
    e.Offered? || (e.OfferFailed? && !Excusable(e.reason))
  }

  predicate ServiceFailure(e: Entry) {
    e.OfferFailed? && Excusable(e.reason)
  }

  /** The failures from `start` on are the present run of them. */
  predicate RunFrom(events: seq<Event>, start: nat) {
    && start <= |events| && (start > 0 ==> EndsRun(events[start - 1].body.entry))
    && forall i :: start <= i < |events| ==> !EndsRun(events[i].body.entry)
  }

  function FailuresFrom(events: seq<Event>, start: nat): set<nat> {
    set i: nat | start <= i < |events| && ServiceFailure(events[i].body.entry)
  }

  /** `i` is the newest failure of the run that begins at `start`. */
  predicate NewestFailure(events: seq<Event>, start: nat, i: nat) {
    i in FailuresFrom(events, start) && forall k :: k in FailuresFrom(events, start) ==> k <= i
  }

  /** One more event goes on with the present run, or begins a new one. */
  lemma StreakGrows(events: seq<Event>, start: nat)
    requires events != [] && RunFrom(events[..|events| - 1], start) && !EndsRun(events[|events| - 1].body.entry)
    ensures RunFrom(events, start)
  {
  }

  lemma StreakBegins(events: seq<Event>)
    requires events == [] || EndsRun(events[|events| - 1].body.entry)
    ensures RunFrom(events, |events|) && FailuresFrom(events, |events|) == {}
  {
  }

  lemma FailuresNext(events: seq<Event>, e: Event, start: nat)
    requires start <= |events|
    ensures FailuresFrom(events + [e], start)
            == FailuresFrom(events, start) + (if ServiceFailure(e.body.entry) then {|events|} else {})
    ensures |events| !in FailuresFrom(events, start)
  {
    hide ServiceFailure;
    var n, more := |events|, events + [e];
    forall i: nat
      ensures i in FailuresFrom(more, start) <==>
                i in FailuresFrom(events, start) || (i == n && ServiceFailure(e.body.entry))
    {
      if i < n {
        assert more[i] == events[i];
      }
    }
  }

  lemma FailuresGrow(events: seq<Event>, start: nat, newest: nat)
    requires start < |events|
    ensures var n, rest := |events| - 1, events[..|events| - 1];
            if ServiceFailure(events[n].body.entry)
            then |FailuresFrom(events, start)| == |FailuresFrom(rest, start)| + 1 && NewestFailure(events, start, n)
            else |FailuresFrom(events, start)| == |FailuresFrom(rest, start)|
                 && (NewestFailure(rest, start, newest) ==> NewestFailure(events, start, newest))
  {
    var n, rest := |events| - 1, events[..|events| - 1];
    assert events == rest + [events[n]];
    FailuresNext(rest, events[n], start);
    FailuresWithin(rest, start);
    hide FailuresFrom, ServiceFailure;
  }

  lemma FailuresWithin(events: seq<Event>, start: nat)
    ensures forall i :: i in FailuresFrom(events, start) ==> i < |events|
  {
  }

  /** What the backward count finds: the service failures since the last offer or
      failure of the caller, and the time of the newest of them. */
  lemma {:induction false} FailureRunCounts(events: seq<Event>) returns (start: nat, newest: nat)
    ensures RunFrom(events, start) && FailureRun(events).0 == |FailuresFrom(events, start)|
    ensures FailureRun(events).0 == 0 ==> FailureRun(events).1.None?
    ensures FailureRun(events).0 > 0 ==>
              NewestFailure(events, start, newest) && FailureRun(events).1 == Some(events[newest].body.at)
  {
    start, newest := |events|, 0;
    if events == [] || EndsRun(events[|events| - 1].body.entry) {
      StreakBegins(events);
    } else {
      var n := |events| - 1;
      start, newest := FailureRunCounts(events[..n]);
      assert start <= n;
      hide RunFrom, FailuresFrom, Excusable;
      StreakGrows(events, start);
      FailuresGrow(events, start, newest);
      FailuresWithin(events[..n], start);
      if ServiceFailure(events[n].body.entry) {
        newest := n;
      }
    }
  }

  lemma OneRun(events: seq<Event>, a: nat, b: nat)
    requires RunFrom(events, a) && RunFrom(events, b)
    ensures a == b
  {
  }

  /** The cooldown holds exactly while the present run has enough failures and
      the newest of them is not yet old enough. */
  lemma CooldownExact(config: Config, events: seq<Event>, now: int)
    ensures CooldownActive(config, events, now) <==>
            config.cooldown > 0
            && exists start: nat, i: nat :: RunFrom(events, start) && NewestFailure(events, start, i)
                                  && |FailuresFrom(events, start)| >= config.maxFailures
                                  && now - events[i].body.at < config.cooldown
  {
    var begin, newest := FailureRunCounts(events);
    hide FailuresFrom, RunFrom;
    if CooldownActive(config, events, now) {
      assert RunFrom(events, begin) && NewestFailure(events, begin, newest);
    }
    forall start: nat, i: nat | RunFrom(events, start) && NewestFailure(events, start, i)
      ensures start == begin && i == newest && FailureRun(events).0 > 0
    {
      OneRun(events, start, begin);
    }
  }

  predicate CooldownActive(config: Config, events: seq<Event>, now: int) {
    var (count, lastTime) := FailureRun(events);
    config.cooldown > 0 && count >= config.maxFailures && lastTime.Some? && now - lastTime.value < config.cooldown
  }

  // -------------------------------------------------------------------- gate

  /** A choice, a waiver or an excusable failure for this decision point. */
  predicate Consults(e: Entry, point: Point) {
    || (e.Chosen? && e.point == point)
    || (e.Excused? && e.point == point)
    || (e.OfferFailed? && e.point == point && Excusable(e.reason))
  }

  predicate ConsultedAtTip(events: seq<Event>, point: Point) {
    events != [] && Consults(events[|events| - 1].body.entry, point)
  }

  /** When a decision may go ahead without advice. */
  predicate WaiverDue(config: Config, events: seq<Event>, now: int) {
    && config.hasKey
    && (|| config.maxCalls <= 0
        || |FailedIds(events)| >= config.maxCalls
        || (Tokens(events) < config.maxTokens && CooldownActive(config, events, now)))
  }

  predicate ChoiceFits(e: Entry) {
    e.Chosen? ==> (e.choice.Stop? <==> e.point.ClosePoint?)
  }

  /** An answer to the offer `o` that the rules accept. */
  predicate AnswerFits(e: Entry, o: Entry, previous: Option<string>)
    requires e.Chosen? && o.Offered?
  {
    && e.offer == o.offer && e.point == o.point
    && match e.choice
       case Stop => e.point.ClosePoint? && e.methodId.None?
       case ContinueSame => e.point.ProbePoint? && previous.Some? && e.methodId == previous
                            && previous.value in o.candidates
       case ContinueDifferent =>
         e.point.ProbePoint? && e.methodId.Some? && e.methodId.value in o.candidates && e.methodId != previous
  }

  /** `e` is the answer the caller's choice and method name amount to at time `now`. */
  predicate ChosenFrom(events: seq<Event>, now: int, methodId: string, e: Entry) {
    && e.Chosen?
    && var v := ValidOffer(events, now);
    && v.Some? && v.value.body.entry.Offered?
    && var o := v.value.body.entry;
    && e.offer == o.offer && e.point == o.point
    && ValidateDisposition(o.point, e.choice, methodId, o.candidates, PreviousMethod(events)) == Accepted(e.methodId)
  }

  lemma {:induction false} ChosenFollows(events: seq<Event>, now: int, methodId: string, e: Entry)
    requires forall k :: 0 <= k < |events| ==> events[k].body.id == k + 1
    requires ChosenFrom(events, now, methodId, e)
    ensures events != [] && events[|events| - 1].body.entry.Offered?
    ensures AnswerFits(e, events[|events| - 1].body.entry, PreviousMethod(events))
  {
    ValidOfferIsTip(events, now);
  }

  /** What each event owes to the event right before it. */
  predicate Backed(config: Config, events: seq<Event>, i: nat)
    requires i < |events|
  {
    var e := events[i].body.entry;
    && ChoiceFits(e)
    && (e.Offered? ==>
          && i > 0 && events[i - 1].body.entry == OfferStarted(e.offer, e.point)
          && e.started == events[i - 1].body.id)
    && (e.Chosen? ==>
          i > 0 && events[i - 1].body.entry.Offered?
            && AnswerFits(e, events[i - 1].body.entry, PreviousMethod(events[..i])))
    && (e.Excused? ==> !ConsultedAtTip(events[..i], e.point))
    && (e.OfferStarted? ==> BudgetLeft(config, events[..i]) && FreshOffer(events[..i], e.offer))
    && (e.OfferFailed? ==> MayFail(events[..i], e.offer, e.point, e.reason))
    && (config.enabled && e.ProbeCommitted? ==> i > 0 && Consults(events[i - 1].body.entry, ProbePoint))
    && (config.enabled && e.CaseClosed? ==> i > 0 && Consults(events[i - 1].body.entry, ClosePoint))
  }

  predicate WasStarted(events: seq<Event>, offer: string, point: Point) {
    exists e :: e in events && e.body.entry == OfferStarted(offer, point)
  }

  predicate HasFailed(events: seq<Event>, offer: string) {
    exists e :: e in events && e.body.entry.OfferFailed? && e.body.entry.offer == offer
  }

  /** A call records one failure, after its own start and for its own decision;
      once its offer has been written that can only be a failed write. */
  predicate MayFail(events: seq<Event>, offer: string, point: Point, reason: FailureReason) {
    && WasStarted(events, offer, point) && !HasFailed(events, offer)
    && (offer in OfferedIds(events) ==> reason.StateWriteFailed?)
  }

  predicate FreshOffer(events: seq<Event>, offer: string) {
    forall e :: e in events && e.body.entry.OfferStarted? ==> e.body.entry.offer != offer
  }

  ghost predicate GateInv(config: Config, events: seq<Event>) {
    forall i :: 0 <= i < |events| ==> Backed(config, events, i)
  }

  lemma GateGrows(config: Config, events: seq<Event>, e: Event)
    requires GateInv(config, events) && Backed(config, events + [e], |events|)
    ensures GateInv(config, events + [e])
  {
    var more := events + [e];
    forall i | 0 <= i < |more| ensures Backed(config, more, i) {
      if i < |events| {
        assert Backed(config, events, i);
        assert more[..i] == events[..i];
      }
    }
  }

  /** Every commitment and every close rests on a consultation of its own: the
      event right before it, for its own decision point, and if that event is a
      choice, one that continues for a probe and stops for a close. */
  lemma DecisionsAreConsulted(config: Config, events: seq<Event>, i: nat)
    requires GateInv(config, events) && config.enabled && i < |events|
    requires events[i].body.entry.ProbeCommitted? || events[i].body.entry.CaseClosed?
    ensures i > 0
    ensures var before := events[i - 1].body.entry;
            && Consults(before, if events[i].body.entry.CaseClosed? then ClosePoint else ProbePoint)
            && (before.Chosen? ==> (before.choice.Stop? <==> events[i].body.entry.CaseClosed?))
  {
    assert Backed(config, events, i);
    assert Backed(config, events, i - 1);
  }

  /** So one consultation never covers two decisions. */
  lemma NoSharedConsultation(config: Config, events: seq<Event>, i: nat, j: nat)
    requires GateInv(config, events) && config.enabled && i < j < |events|
    requires events[i].body.entry.ProbeCommitted? || events[i].body.entry.CaseClosed?
    requires events[j].body.entry.ProbeCommitted? || events[j].body.entry.CaseClosed?
    ensures i < j - 1
  {
    DecisionsAreConsulted(config, events, j);
  }

  function OfferCount(events: seq<Event>): nat {
    if events == [] then 0
    else OfferCount(events[..|events| - 1]) + if events[|events| - 1].body.entry.Offered? then 1 else 0
  }

  lemma GatePrefix(config: Config, events: seq<Event>, n: nat)
    requires GateInv(config, events) && n <= |events|
    ensures GateInv(config, events[..n])
  {
    forall i | 0 <= i < n ensures Backed(config, events[..n], i) {
      assert Backed(config, events, i);
      assert events[..n][..i] == events[..i];
    }
  }

  /** No two offers share an id. */
  lemma OffersDistinct(config: Config, events: seq<Event>, i: nat, j: nat)
    requires GateInv(config, events) && i < j < |events|
    requires events[i].body.entry.Offered? && events[j].body.entry.Offered?
    ensures events[i].body.entry.offer != events[j].body.entry.offer
  {
    assert Backed(config, events, i) && Backed(config, events, j) && Backed(config, events, j - 1);
    assert events[i - 1] in events[..j - 1];
  }

  /** Every answer directly follows the offer it answers, so no offer is answered twice. */
  lemma AnsweredOnce(config: Config, events: seq<Event>, i: nat, j: nat)
    requires GateInv(config, events) && i < j < |events|
    requires events[i].body.entry.Chosen? && events[j].body.entry.Chosen?
    ensures events[i].body.entry.offer != events[j].body.entry.offer
  {
    assert Backed(config, events, i) && Backed(config, events, j);
    assert i != j - 1;
    OffersDistinct(config, events, i - 1, j - 1);
  }

  lemma {:induction false} OffersCounted(config: Config, events: seq<Event>)
    requires GateInv(config, events)
    ensures OfferCount(events) == |OfferedIds(events)|
  {
    if events != [] {
      var n := |events| - 1;
      GatePrefix(config, events, n);
      OffersCounted(config, events[..n]);
      assert events == events[..n] + [events[n]];
      if events[n].body.entry.Offered? {
        var offer := events[n].body.entry.offer;
        assert offer !in OfferedIds(events[..n]) by {
          if e :| e in events[..n] && e.body.entry.Offered? && e.body.entry.offer == offer {
            var i :| 0 <= i < n && events[i] == e;
            OffersDistinct(config, events, i, n);
          }
        }
        assert OfferedIds(events) == OfferedIds(events[..n]) + {offer};
      } else {
        assert OfferedIds(events) == OfferedIds(events[..n]);
      }
    }
  }

  /** A case never holds more successful offers than the limit, even when calls
      overlap: each was started while completed attempts were below the limit,
      and nothing came between its start and itself. */
  lemma {:induction false} OffersWithinBudget(config: Config, events: seq<Event>)
    requires GateInv(config, events)
    ensures OfferCount(events) <= if config.maxCalls < 0 then 0 else config.maxCalls
  {
    if events != [] {
      var n := |events| - 1;
      GatePrefix(config, events, n);
      OffersWithinBudget(config, events[..n]);
      if events[n].body.entry.Offered? {
        assert Backed(config, events, n) && Backed(config, events, n - 1);
        GatePrefix(config, events, n - 1);
        OffersCounted(config, events[..n - 1]);
        SubsetSize(OfferedIds(events[..n - 1]), OfferedIds(events[..n - 1]) + FailedIds(events[..n - 1]));
        assert events[..n][..n - 1] == events[..n - 1];
        assert OfferCount(events[..n]) == OfferCount(events[..n - 1]);
      }
    }
  }

  lemma SubsetSize(a: set<string>, b: set<string>)
    requires a <= b
    ensures |a| <= |b|
  {
    assert b == a + (b - a);
  }
}
