/** The life of probes as the Timeline tells it: which probe is pending, how far
    it has got, and why no probe is ever started or observed twice. */
module ProbeOrder {
  import opened Wrappers
  import opened Records
  import opened Claims
  import opened Replay

  datatype Pending = Nothing | Pending(id: nat, status: ProbeStatus)

  /** Where an event takes the pending probe. */
  function After(p: Pending, e: Entry): Pending {
    match e
    case ProbeCommitted(id, _) => Pending.Pending(id, Committed)
    case ProbeStarted(id) => Pending.Pending(id, Executing)
    case ProbeObserved(id, _, _, _, _) => Pending.Pending(id, Observed)
    case ProbeCompared(_, _, _, _, _, _, _) => Nothing
    case ProbeDiscarded(_, _) => Nothing
    case _ => p
  }

  /** Which events may come next. */
  predicate Legal(p: Pending, commits: nat, e: Entry) {
    match e
    case ProbeCommitted(id, _) => p == Nothing && id == commits + 1
    case ProbeStarted(id) => p == Pending.Pending(id, Committed)
    case ProbeObserved(id, _, _, _, _) => p == Pending.Pending(id, Executing)
    case ProbeExposed(id, _, _, _, _) => p == Pending.Pending(id, Observed)
    case ProbeCompared(id, _, _, _, _, _, _) => p == Pending.Pending(id, Observed)
    case ProbeDiscarded(id, _) => p.Pending? && p.id == id
    case ModelRevised(_, _) => p == Nothing
    case EvidenceRecorded(_) => p == Nothing
    case CaseClosed(_, _) => p == Nothing
    case _ => true
  }

  /** The pending probe, from the Timeline alone. */
  function Track(events: seq<Event>): Pending {
    if events == [] then Nothing
    else After(Track(events[..|events| - 1]), events[|events| - 1].body.entry)
  }

  ghost predicate Orderly(events: seq<Event>) {
    forall i :: 0 <= i < |events| ==> LegalAt(events, i)
  }

  predicate LegalAt(events: seq<Event>, i: nat)
    requires i < |events|
  {
    Legal(Track(events[..i]), Commits(events[..i]), events[i].body.entry)
  }

  /** The pending probe, from the snapshot alone. */
  function Shown(probe: Option<Probe>): Pending {
    if probe.None? then Nothing else Pending.Pending(probe.value.id, probe.value.status)
  }

  lemma {:induction false} OrderlyGrows(events: seq<Event>, e: Event)
    requires Orderly(events) && Legal(Track(events), Commits(events), e.body.entry)
    ensures Orderly(events + [e]) && Track(events + [e]) == After(Track(events), e.body.entry)
  {
    hide Legal, After;
    var more := events + [e];
    assert more[..|events|] == events;
    forall i | 0 <= i < |more| ensures LegalAt(more, i) {
      if i < |events| {
        assert LegalAt(events, i);
        assert more[..i] == events[..i];
      }
    }
  }

  function Progress(s: ProbeStatus): nat {
    match s
    case Committed => 0
    case Executing => 1
    case Observed => 2
  }

  /** Probe `id` has been committed, and if it is still pending it has come at
      least as far as `rank`. */
  predicate Beyond(events: seq<Event>, id: nat, rank: nat) {
    && id <= Commits(events)
    && (Track(events).Pending? && Track(events).id == id ==> rank <= Progress(Track(events).status))
  }

  lemma Cut(events: seq<Event>, j: nat)
    requires j < |events|
    ensures events[..j + 1] == events[..j] + [events[j]]
    ensures Track(events[..j + 1]) == After(Track(events[..j]), events[j].body.entry)
    ensures Commits(events[..j + 1]) == Commits(events[..j]) + if events[j].body.entry.ProbeCommitted? then 1 else 0
  {
    assert events[..j + 1][..j] == events[..j];
  }

  lemma {:induction false} StaysBeyond(events: seq<Event>, id: nat, rank: nat, i: nat, j: nat)
    requires Orderly(events) && i <= j <= |events|
    requires Beyond(events[..i], id, rank)
    ensures Beyond(events[..j], id, rank)
  {
    if i < j {
      StaysBeyond(events, id, rank, i, j - 1);
      Cut(events, j - 1);
      assert LegalAt(events, j - 1);
    }
  }

  /** A pending probe has been committed. */
  lemma {:induction false} PendingCommitted(events: seq<Event>)
    requires Orderly(events)
    ensures Track(events).Pending? ==> 1 <= Track(events).id <= Commits(events)
  {
    if events != [] {
      var n := |events| - 1;
      OrderlyPrefix(events, n);
      PendingCommitted(events[..n]);
      assert LegalAt(events, n);
    }
  }

  lemma OrderlyPrefix(events: seq<Event>, n: nat)
    requires Orderly(events) && n <= |events|
    ensures Orderly(events[..n])
  {
    forall i | 0 <= i < n ensures LegalAt(events[..n], i) {
      assert LegalAt(events, i);
      assert events[..n][..i] == events[..i];
    }
  }

  /** Every probe id is committed by one event, with the ids in order of commitment. */
  lemma CommittedOnce(events: seq<Event>, i: nat, j: nat)
    requires Orderly(events) && i < j < |events|
    requires events[i].body.entry.ProbeCommitted? && events[j].body.entry.ProbeCommitted?
    ensures events[i].body.entry.probe < events[j].body.entry.probe
  {
    assert LegalAt(events, i) && LegalAt(events, j);
    Cut(events, i);
    StaysBeyond(events, events[i].body.entry.probe, 0, i + 1, j);
  }

  /** No probe is started twice, whatever came between. */
  lemma StartedOnce(events: seq<Event>, i: nat, j: nat)
    requires Orderly(events) && i < j < |events|
    requires events[i].body.entry.ProbeStarted? && events[j].body.entry.ProbeStarted?
    ensures events[i].body.entry.probe != events[j].body.entry.probe
  {
    var id := events[i].body.entry.probe;
    assert LegalAt(events, i) && LegalAt(events, j);
    Cut(events, i);
    OrderlyPrefix(events, i);
    PendingCommitted(events[..i]);
    StaysBeyond(events, id, 1, i + 1, j);
  }

  /** No probe is observed twice, whatever came between. */
  lemma ObservedOnce(events: seq<Event>, i: nat, j: nat)
    requires Orderly(events) && i < j < |events|
    requires events[i].body.entry.ProbeObserved? && events[j].body.entry.ProbeObserved?
    ensures events[i].body.entry.probe != events[j].body.entry.probe
  {
    var id := events[i].body.entry.probe;
    assert LegalAt(events, i) && LegalAt(events, j);
    Cut(events, i);
    OrderlyPrefix(events, i);
    PendingCommitted(events[..i]);
    StaysBeyond(events, id, 2, i + 1, j);
  }

  /** A pending probe that has come as far as `s` was taken there by an event of
      its own: an executing probe was started, an observed one observed. */
  lemma {:induction false} PendingHasEvents(events: seq<Event>) returns (i: nat)
    requires Orderly(events) && Track(events).Pending?
    ensures i < |events|
    ensures match Track(events).status
            case Committed => events[i].body.entry.ProbeCommitted? && events[i].body.entry.probe == Track(events).id
            case Executing => events[i].body.entry == ProbeStarted(Track(events).id)
            case Observed => events[i].body.entry.ProbeObserved? && events[i].body.entry.probe == Track(events).id
  {
    var n := |events| - 1;
    if Track(events) == Track(events[..n]) && !events[n].body.entry.ProbeCommitted?
       && !events[n].body.entry.ProbeStarted? && !events[n].body.entry.ProbeObserved? {
      OrderlyPrefix(events, n);
      i := PendingHasEvents(events[..n]);
    } else {
      i := n;
    }
  }

  /** An observation is preceded by the start of the same probe, and that by its commitment. */
  lemma ObservedWasStarted(events: seq<Event>, j: nat) returns (i: nat)
    requires Orderly(events) && j < |events| && events[j].body.entry.ProbeObserved?
    ensures i < j && events[i].body.entry == ProbeStarted(events[j].body.entry.probe)
  {
    assert LegalAt(events, j);
    OrderlyPrefix(events, j);
    i := PendingHasEvents(events[..j]);
  }

  /** No event speaks of a probe that has not been committed. */
  lemma {:induction false} MentionsCommitted(events: seq<Event>, i: nat)
    requires Orderly(events) && i < |events|
    ensures ProbeOf(events[i].body.entry) <= Commits(events)
  {
    assert LegalAt(events, i);
    OrderlyPrefix(events, i);
    PendingCommitted(events[..i]);
    CommitsGrow(events, i);
  }

  lemma {:induction false} CommitsGrow(events: seq<Event>, i: nat)
    requires i <= |events|
    ensures Commits(events[..i]) <= Commits(events)
  {
    if i < |events| {
      var n := |events| - 1;
      assert events[..n][..i] == events[..i];
      CommitsGrow(events[..n], i);
    } else {
      assert events[..i] == events;
    }
  }
}
