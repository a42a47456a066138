/** The call limit of a case over all futures: exactly when it will hold until
    another call starts, and a run in which calls that overlap go past it. */
module Overlap {
  import opened Records
  import opened History
  import opened Consultation
  import opened CallBudget
  import opened Harness
  import opened Invariants
  import opened Lifecycle
  import opened Effects
  import opened Progress
  import opened Walks

  lemma GateHolds(h: Hasher, config: Config, w: World, id: CaseId)
    requires WorldInv(h, config, w) && Exists(w.store, id)
    ensures GateInv(config, w.store.slots[id].events)
  {
    CaseHolds(h, config, w, id);
    hide WorldInv, GateInv, ReplayOk, OrderOk, ModelOk, VersionOk, StaleOk, RepairsOk, CloseOk, RecordsOk;
  }

  /** `after` follows `before` and no call for advice started in between. */
  ghost predicate Continues(before: seq<Event>, after: seq<Event>) {
    before <= after && NoStart(after[|before|..])
  }

  /** Whatever happens from `w` on, the case stays within its limit until another
      call starts. */
  ghost predicate SafeUntilNextCall(h: Hasher, config: Config, w: World, id: CaseId)
    requires Exists(w.store, id)
  {
    forall v: World ::
      LeadsTo(h, config, w, v) && Exists(v.store, id)
      && Continues(w.store.slots[id].events, v.store.slots[id].events)
      ==> Attempts(v.store.slots[id].events) <= config.maxCalls
  }

  // ------------------------------------------------ failing what is under way

  /** Any call under way can fail next. */
  lemma FailsNext(h: Hasher, config: Config, w: World, id: CaseId, offer: string) returns (v: World, m: Move)
    requires WorldInv(h, config, w) && Exists(w.store, id) && offer in OpenCalls(w.store.slots[id].events)
    ensures Next(h, config, w, m, 0) == Ok(v) && WorldInv(h, config, v) && Exists(v.store, id)
    ensures var s, t := w.store.slots[id].events, v.store.slots[id].events;
            && |t| == |s| + 1 && t == s + [t[|s|]] && !t[|s|].body.entry.OfferStarted?
            && OpenCalls(t) == OpenCalls(s) - {offer} && Prospective(t) == Prospective(s)
  {
    hide WorldInv, Next, Perform, OpenCalls, EndedIds, GateInv, Attempts;
    var point := FailurePlan(config, 0, "", StateOf(w.store, id), w.store.slots[id].events, offer);
    var a, ch := FailOffer(offer, point, TransportError), Change(StateOf(w.store, id), CaseOpened, false, NoTarget);
    v, ch := Performs(h, config, w, id, "", a, 0, 0);
    m := Operates(id, "", a, 0);
    var s, t := w.store.slots[id].events, v.store.slots[id].events;
    GateHolds(h, config, v, id);
    EndTurns(config, s, t[|s|]);
    AttemptsAre(s);
    AttemptsAre(t);
  }

  /** All calls under way can fail, one after another. */
  lemma {:induction false} AllCanFail(h: Hasher, config: Config, w: World, id: CaseId)
    returns (path: seq<World>, moves: seq<Move>, times: seq<int>)
    requires WorldInv(h, config, w) && Exists(w.store, id)
    ensures IsPath(h, config, path, moves, times) && path[0] == w && Exists(path[|path| - 1].store, id)
    ensures Continues(w.store.slots[id].events, path[|path| - 1].store.slots[id].events)
    ensures Attempts(path[|path| - 1].store.slots[id].events) == Prospective(w.store.slots[id].events)
    decreases |OpenCalls(w.store.slots[id].events)|
  {
    hide WorldInv, Next, OpenCalls, Attempts;
    var events := w.store.slots[id].events;
    if OpenCalls(events) == {} {
      path, moves, times := [w], [], [];
    } else {
      var offer :| offer in OpenCalls(events);
      var v, m := FailsNext(h, config, w, id, offer);
      path, moves, times := AllCanFail(h, config, v, id);
      ContinuesFirst(events, v.store.slots[id].events, path[|path| - 1].store.slots[id].events);
      PathBegins(h, config, w, m, path, moves, times);
      path, moves, times := [w] + path, [m] + moves, [0] + times;
    }
  }

  lemma ContinuesFirst(a: seq<Event>, b: seq<Event>, c: seq<Event>)
    requires |b| == |a| + 1 && b == a + [b[|a|]] && !b[|a|].body.entry.OfferStarted? && Continues(b, c)
    ensures Continues(a, c)
  {
    assert c[|a|..] == [b[|a|]] + c[|b|..];
  }

  // -------------------------------------------------------- the exact condition

  lemma SafeIfRoom(h: Hasher, config: Config, w: World, id: CaseId, v: World)
    requires WorldInv(h, config, w) && Exists(w.store, id) && LeadsTo(h, config, w, v) && Exists(v.store, id)
    requires Continues(w.store.slots[id].events, v.store.slots[id].events)
    ensures Attempts(v.store.slots[id].events) <= Prospective(w.store.slots[id].events)
  {
    hide WorldInv, Next, Attempts, OpenCalls, GateInv;
    var path: seq<World>, moves: seq<Move>, times: seq<int> :|
      IsPath(h, config, path, moves, times) && path[0] == w && path[|path| - 1] == v;
    var s, t := w.store.slots[id].events, v.store.slots[id].events;
    PathsKeepWorld(h, config, path, moves, times, |path| - 1);
    GateHolds(h, config, v, id);
    assert t == s + t[|s|..];
    AttemptsProspective(config, s, t[|s|..]);
  }

  /** The limit will hold until another call starts exactly when the attempts made
      and the calls under way fit in it together. The code lets a call start on the
      attempts alone. */
  lemma LimitExact(h: Hasher, config: Config, w: World, id: CaseId)
    requires WorldInv(h, config, w) && Exists(w.store, id)
    ensures SafeUntilNextCall(h, config, w, id) <==> Prospective(w.store.slots[id].events) <= config.maxCalls
  {
    hide WorldInv, Next, Attempts, OpenCalls, Continues;
    var path, moves, times := AllCanFail(h, config, w, id);
    assert LeadsTo(h, config, w, path[|path| - 1]);
    forall v: World |
      LeadsTo(h, config, w, v) && Exists(v.store, id)
      && Continues(w.store.slots[id].events, v.store.slots[id].events)
      ensures Attempts(v.store.slots[id].events) <= Prospective(w.store.slots[id].events)
    {
      SafeIfRoom(h, config, w, id, v);
    }
  }

  // ------------------------------------------------------------ the failing run

  /** `k` calls are under way and nothing has come of any. */
  ghost predicate Calling(w: World, id: CaseId, s: Session, k: nat) {
    && IdleOn(w.store, id, s)
    && var events := w.store.slots[id].events;
    && NoAnswers(events) && |OpenCalls(events)| == k && |StartedIds(events)| == k
    && forall x :: x in StartedIds(events) ==> |x| <= k
  }

  lemma CallingMore(before: seq<Event>, k: nat, after: seq<Event>)
    requires NoAnswers(before) && NoAnswers(after) && CallAdded(before, Name(k + 1), after)
    requires |StartedIds(before)| == k && forall x :: x in StartedIds(before) ==> |x| <= k
    ensures |StartedIds(after)| == k + 1 && |OpenCalls(after)| == k + 1
    ensures forall x :: x in StartedIds(after) ==> |x| <= k + 1
  {
    CallsGrow(before, after[|before|]);
    NoneEnded(after);
    assert StartedIds(after) == StartedIds(before) + {Name(k + 1)};
    assert OpenCalls(after) == StartedIds(after);
  }

  lemma NoneEnded(events: seq<Event>)
    requires NoAnswers(events)
    ensures EndedIds(events) == {} && LostIds(events) == {}
  {
  }

  lemma FreshName(events: seq<Event>, k: nat)
    requires forall x :: x in StartedIds(events) ==> |x| <= k
    ensures FreshOffer(events, Name(k + 1))
  {
    StartedMeans(events, Name(k + 1));
  }

  /** Any number of calls can come to be under way at once. */
  lemma {:induction false} CallsPileUp(h: Hasher, config: Config, id: CaseId, s: Session, k: nat)
    returns (path: seq<World>, moves: seq<Move>, times: seq<int>)
    requires Callable(config) && s != ""
    ensures IsRun(h, config, path, moves, times) && Calling(path[|path| - 1], id, s, k)
    ensures Exists(path[|path| - 1].store, id) && WorldInv(h, config, path[|path| - 1])
  {
    hide WorldInv, Next, StartedIds, OpenCalls, FreshOffer, IdleOn;
    if k == 0 {
      EmptyWorld(h, config);
      var v := OpensOn(h, config, EMPTY_WORLD, id, s, 0);
      path, moves, times := [EMPTY_WORLD, v], [Opens(id, s, BARE, [])], [0];
      OneOpeningEvent(v.store.slots[id].events);
      assert Exists(v.store, id) by { IdleExists(v.store, id, s); }
    } else {
      path, moves, times := CallsPileUp(h, config, id, s, k - 1);
      var w := path[|path| - 1];
      FreshName(w.store.slots[id].events, k - 1);
      var v := CallsOn(h, config, w, id, s, Name(k), 0);
      IdleExists(v.store, id, s);
      CallingMore(w.store.slots[id].events, k - 1, v.store.slots[id].events);
      PathGrows(h, config, path, moves, times, Operates(id, s, StartOffer(Name(k), ProbePoint), 0), 0, v);
      path, moves, times := path + [v], moves + [Operates(id, s, StartOffer(Name(k), ProbePoint), 0)], times + [0];
    }
  }

  lemma IdleExists(st: Store, id: CaseId, s: Session)
    requires IdleOn(st, id, s)
    ensures Exists(st, id)
  {
  }

  lemma OneOpeningEvent(events: seq<Event>)
    requires |events| == 1 && events[0].body.entry == CaseOpened
    ensures NoAnswers(events) && StartedIds(events) == {} && OpenCalls(events) == {}
  {
  }

  /** The limit does fail: for every configuration that lets advice be asked for
      there is a run, of calls that overlap and all fail, in which a case has one
      attempt more than its limit. */
  lemma OverlapPassesLimit(h: Hasher, config: Config, id: CaseId, s: Session)
    returns (path: seq<World>, moves: seq<Move>, times: seq<int>)
    requires Callable(config) && s != ""
    ensures IsRun(h, config, path, moves, times) && Exists(path[|path| - 1].store, id)
    ensures Attempts(path[|path| - 1].store.slots[id].events) == config.maxCalls + 1
  {
    hide WorldInv, Next, Attempts, OpenCalls, StartedIds, IdleOn, Continues;
    path, moves, times := CallsPileUp(h, config, id, s, config.maxCalls + 1);
    var w := path[|path| - 1];
    var later, laterMoves, laterTimes := AllCanFail(h, config, w, id);
    NothingUsed(w.store.slots[id].events, 0);
    PathJoins(h, config, path, moves, times, later, laterMoves, laterTimes);
    path, moves, times := path + later[1..], moves + laterMoves, times + laterTimes;
  }

  /** Before a call starts: it is safe to let it start, as to the limit, exactly
      when there is room for it beside the attempts and the calls under way. */
  lemma StartExact(h: Hasher, config: Config, w: World, id: CaseId, v: World)
    requires WorldInv(h, config, v) && Exists(w.store, id) && Exists(v.store, id)
    requires var s, t := w.store.slots[id].events, v.store.slots[id].events;
             |t| == |s| + 1 && t == s + [t[|s|]] && t[|s|].body.entry.OfferStarted?
    ensures SafeUntilNextCall(h, config, v, id) <==> Prospective(w.store.slots[id].events) < config.maxCalls
  {
    hide WorldInv, SafeUntilNextCall, Prospective, GateInv;
    LimitExact(h, config, v, id);
    GateHolds(h, config, v, id);
    var s, t := w.store.slots[id].events, v.store.slots[id].events;
    ProspectiveStep(config, s, t[|s|]);
  }
}
