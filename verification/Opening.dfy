/** Opening a case: the first transaction of its Timeline. */
module Opening {
  import opened Wrappers
  import opened Records
  import opened Timeline
  import opened Dispositions
  import opened Journal
  import opened History
  import opened Claims
  import opened Consultation
  import opened Replay
  import opened ProbeOrder
  import opened Invariants

  /** The declared evidence, in order, and then the opening itself. */
  function OpeningRequests(items: seq<Declared>, session: Session): (requests: seq<Request>)
    ensures |requests| == |items| + 1
    ensures forall k :: 0 <= k < |items| ==> requests[k] == Request(InitialObservation(items[k].evidence), session)
    ensures requests[|items|] == Request(CaseOpened, session)
  {
    seq(|items|, k requires 0 <= k < |items| => Request(InitialObservation(items[k].evidence),
                                                        session)) + [Request(CaseOpened, session)]
  }

  function FreshCase(id: CaseId, session: Session, model: Model): Case {
    Case(id, Active, session, 1, 0, false, {}, None, None, model, None, None, 0)
  }

  ghost function OpenTransaction(h: Hasher, st: Store, id: CaseId, session: Session, model: Model,
                                 items: seq<Declared>, at: int): Result<Store> {
    Transact(h, st, FreshCase(id, session, NormalModel(model, OpeningContext(items))), OpeningRequests(items, session),
             true, NoTarget, at)
  }

  /** What an opening transaction leaves in the new case's directory. */
  ghost predicate Opened(s: Slot, id: CaseId, session: Session, model: Model, items: seq<Declared>) {
    && s.file.Some?
    && s.file.value.state == FreshCase(id, session, NormalModel(model, OpeningContext(items))).(revision := 1,
          lastEvent := |items| + 1)
    && s.archive == map[1 := s.file.value]
    && |s.events| == |items| + 1
    && Sequential(s.events)
    && (forall k :: 0 <= k < |items| ==> s.events[k].body.entry == InitialObservation(items[k].evidence))
    && s.events[|items|].body.entry == CaseOpened
    && (forall k :: 0 <= k < |s.events| ==> s.events[k].body.session == session)
  }

  /** The journal of an opening: accepted, with the case as drafted and one event for
      each request. */
  lemma OpenPlanned(h: Hasher, st: Store, id: CaseId, session: Session, model: Model, items: seq<Declared>, at: int)
    requires SlotAt(st, id) == EMPTY_SLOT
    ensures
      var draft := FreshCase(id, session, NormalModel(model, OpeningContext(items)));
      var planned := Planned(h, st, draft, OpeningRequests(items, session), true, NoTarget, at);
      && planned.Ok? && planned.value.archive
      && planned.value.snapshot.state == draft.(revision := 1, lastEvent := |items| + 1)
  {
    hide NormalModel, Prepared, Numbered, OpeningContext;
  }

  lemma OpenEvents(h: Hasher, st: Store, draft: Case, requests: seq<Request>, at: int)
    requires SlotAt(st, draft.id) == EMPTY_SLOT && Planned(h, st, draft, requests, true, NoTarget, at).Ok?
    ensures var j := Planned(h, st, draft, requests, true, NoTarget, at).value;
            && |j.events| == |requests|
            && forall k :: 0 <= k < |requests| ==>
                 j.events[k].body.id == k + 1 && j.events[k].body.entry == requests[k].entry
                 && j.events[k].body.session == requests[k].session
  {
    hide Planned, CountOf;
    PlannedCount(h, st, draft, requests, true, NoTarget, at);
    forall k | 0 <= k < |requests|
      ensures var j := Planned(h, st, draft, requests, true, NoTarget, at).value;
              j.events[k].body.id == k + 1 && j.events[k].body.entry == requests[k].entry
              && j.events[k].body.session == requests[k].session
    {
      PlannedEvents(h, st, draft, requests, true, NoTarget, at, k);
    }
  }

  lemma NothingThere(h: Hasher, st: Store, id: CaseId)
    requires AllSettled(h, st) && !Exists(st, id)
    ensures SlotAt(st, id) == EMPTY_SLOT
  {
    if id in st.slots {
      assert Settled(h, id, st.slots[id]);
    }
  }

  lemma OpenLands(h: Hasher, st: Store, id: CaseId, session: Session, model: Model, items: seq<Declared>, at: int)
    requires AllSettled(h, st) && !Exists(st, id)
    ensures
      var r := OpenTransaction(h, st, id, session, model, items, at);
      && r.Ok?
      && var t := r.value;
      && Exists(t, id) && Opened(t.slots[id], id, session, model, items)
      && t.slots == st.slots[id := t.slots[id]]
      && |t.log| == |st.log| + |items| + 1 && t.log[..|st.log|] == st.log
      && forall p :: |st.log| <= p < |t.log| ==> t.log[p] == Stamp(id, t.slots[id].events[p - |st.log|])
  {
    hide NormalModel, OpeningContext, Planned, AllSettled;
    var draft := FreshCase(id, session, NormalModel(model, OpeningContext(items)));
    var requests := OpeningRequests(items, session);
    NothingThere(h, st, id);
    OpenPlanned(h, st, id, session, model, items, at);
    OpenEvents(h, st, draft, requests, at);
    var j := Planned(h, st, draft, requests, true, NoTarget, at).value;
    var t := Commit(st, id, j);
    assert t.slots[id].events == j.events;
  }

  /** Opening takes the next number of its session; the evidence before it takes none. */
  lemma {:induction false} OpeningNumbered(h: Hasher, st: Store, id: CaseId, session: Session, model: Model,
                                           items: seq<Declared>, at: int,
                        k: nat)
    requires AllSettled(h, st) && !Exists(st, id) && session != "" && k <= |items|
    ensures var r := OpenTransaction(h, st, id, session, model, items, at);
            && r.Ok? && id in r.value.slots && k < |r.value.slots[id].events|
            && r.value.slots[id].events[k].body.number
               == if k == |items| then Some(Count(st.log, session) + 1) else None
  {
    hide NormalModel, OpeningContext, Planned, AllSettled, Count, CountOf, OpeningRequests, Stamps;
    var draft := FreshCase(id, session, NormalModel(model, OpeningContext(items)));
    var requests := OpeningRequests(items, session);
    NothingThere(h, st, id);
    OpenPlanned(h, st, id, session, model, items, at);
    OpenEvents(h, st, draft, requests, at);
    Asked(items, session, k);
    PlannedEvents(h, st, draft, requests, true, NoTarget, at, k);
    EvidenceUncounted(items, session, k);
    assert Transact(h, st, draft, requests, true, NoTarget, at).value.slots[id].events
           == Planned(h, st, draft, requests, true, NoTarget, at).value.events;
  }

  lemma Asked(items: seq<Declared>, session: Session, k: nat)
    requires k <= |items| && session != ""
    ensures var r := OpeningRequests(items, session)[k];
            r.session == session && (Counted(r) <==> k == |items|)
  {
  }

  lemma {:induction false} EvidenceUncounted(items: seq<Declared>, session: Session, k: nat)
    requires k <= |items|
    ensures CountOf(OpeningRequests(items, session)[..k], session) == 0
  {
    if k > 0 {
      EvidenceUncounted(items, session, k - 1);
      var requests := OpeningRequests(items, session);
      assert requests[..k][..k - 1] == requests[..k - 1];
      assert requests[..k][k - 1] == Request(InitialObservation(items[k - 1].evidence), session);
    }
  }

  // ------------------------------------------------------ the first invariant

  predicate Beginning(e: Entry) {
    e.InitialObservation? || e.CaseOpened?
  }

  lemma {:induction false} NothingYet(events: seq<Event>)
    requires forall k :: 0 <= k < |events| ==> Beginning(events[k].body.entry)
    ensures Track(events) == Nothing && Version(events) == 1 && ReplayInv(Flags(None, false, None), events)
  {
    if events != [] {
      var n := |events| - 1;
      NothingYet(events[..n]);
      NeutralStep(Flags(None, false, None), events[..n], events[n], Flags(None, false, None));
      assert events == events[..n] + [events[n]];
    }
  }

  lemma OpenedModel(s: Slot, id: CaseId, session: Session, model: Model, items: seq<Declared>)
    requires Opened(s, id, session, model, items) && AcceptsModel(model, OpeningContext(items))
    ensures ModelOk(s)
  {
    hide AcceptsModel, NormalModel, EventAuthorities, ModelInv;
    OpeningAuthorities(items, s.events);
    var ctx := OpeningContext(items);
    hide OpeningContext, FreshCase;
    forall n | n in ctx.known ensures 1 <= n <= |s.events| {
      InitialIds(items, n);
    }
    forall n | n in ctx.known && n in ctx.authorities
      ensures n in EventAuthorities(s.events) && EventAuthorities(s.events)[n] == ctx.authorities[n]
    {
      InitialIds(items, n);
    }
    AcceptedModelInv(model, ctx, s.events);
  }

  lemma InitialIds(items: seq<Declared>, n: nat)
    requires n in OpeningContext(items).known
    ensures 1 <= n <= |items|
    ensures n in OpeningContext(items).authorities
            && OpeningContext(items).authorities[n] == items[n - 1].evidence.authority
  {
  }

  /** A newly opened case satisfies everything the later steps keep. */
  lemma OpenedCase(config: Config, s: Slot, id: CaseId, session: Session, model: Model, items: seq<Declared>)
    requires Opened(s, id, session, model, items) && AcceptsModel(model, OpeningContext(items))
    ensures CaseInv(config, s)
  {
    hide AcceptsModel, NormalModel, ModelInv, OpeningContext, ReplayInv, Track, Version;
    OpenedModel(s, id, session, model, items);
    hide ModelOk;
    NothingYet(s.events);
    forall i | 0 <= i < |s.events|
      ensures LegalAt(s.events, i) && Backed(config, s.events, i) && RepairsAt(s, i) && CloseAt(s, i)
    {
      assert Beginning(s.events[i].body.entry);
    }
    assert Orderly(s.events) && GateInv(config, s.events) && RepairsOk(s) && CloseOk(s);
    assert VersionOk(s);
  }
}
