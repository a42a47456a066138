/** What the Timeline of a reachable case records of each observation, and the
    verdict that follows for it. */
module Observations {
  import opened Wrappers
  import opened Records
  import opened Claims
  import opened Provenance
  import opened Calibration

  /** `a` and `b` speak of the same probe, tool and authority. */
  predicate SameSource(a: Entry, b: Entry)
    requires IsObservation(a) && IsObservation(b)
  {
    a.probe == b.probe && a.tool == b.tool && a.authority == b.authority
  }

  /** What an event about an observation owes to the events before it. Evidence
      recorded without a probe is external; an
      observation has the authority its probe was committed with, an exposure
      supersedes an earlier observation of the same source without touching what
      was reported of the execution, and a comparison names one of its probe. */
  predicate RecordAt(events: seq<Event>, i: nat)
    requires i < |events|
  {
    match events[i].body.entry
    case EvidenceRecorded(d) => d.authority.ExternalSource?
    case ProbeObserved(p, _, a, _, _) =>
      p != 0 && p in ProbeAuthorities(events[..i]) && a == Some(ProbeAuthorities(events[..i])[p])
    case ProbeExposed(p, _, _, statuses, before) =>
      && p != 0 && before.Some? && 1 <= before.value <= i
      && var e := events[before.value - 1].body.entry;
         IsObservation(e) && SameSource(events[i].body.entry, e) && e.statuses.execution == statuses.execution
    case ProbeCompared(p, o, a, _, _, _, _) =>
      && o.Some? && 1 <= o.value <= i
      && var e := events[o.value - 1].body.entry;
         IsObservation(e) && e.probe == p && e.authority == a
    case _ => true
  }

  ghost predicate Recorded(events: seq<Event>) {
    forall i :: 0 <= i < |events| ==> RecordAt(events, i)
  }

  lemma RecordedGrows(events: seq<Event>, e: Event)
    requires Recorded(events) && RecordAt(events + [e], |events|)
    ensures Recorded(events + [e])
  {
    hide ProbeAuthorities, SameSource;
    var more := events + [e];
    forall i | 0 <= i < |more| ensures RecordAt(more, i) {
      if i < |events| {
        assert RecordAt(events, i);
        assert more[..i] == events[..i];
      }
    }
  }

  /** The pending probe of a snapshot, as its newest observation event tells it. */
  predicate Mirrored(probe: Probe, e: Entry) {
    && IsObservation(e) && e.probe == probe.id && e.tool == probe.tool && e.authority == Some(probe.authority)
    && e.statuses == Statuses(probe.shown, probe.execution, Some(probe.shown)) && probe.execution.Some?
  }

  /** The verdict along the recorded links alone. */
  function RecordedVerdict(events: seq<Event>, i: nat): Worth
    requires i < |events|
    decreases i
  {
    match events[i].body.entry
    case ProbeObserved(_, _, _, statuses, unknownOrigin) => if unknownOrigin then Unknown else Executed(statuses)
    case ProbeExposed(_, _, _, statuses, before) =>
      if before.None? || before.value < 1 || before.value > i then Unknown
      else
        var earlier := RecordedVerdict(events, before.value - 1);
        if earlier.Failed? then Failed
        else if earlier.Good? && Displayed(statuses).Good? then Good
        else Unknown
    case _ => Unknown
  }

  /** On a recorded Timeline the resolver's guards never fire: it follows the
      recorded links to the observed root. */
  lemma {:induction false} ResolveFollowsRecord(events: seq<Event>, i: nat, probe: Option<nat>, visiting: set<nat>)
    requires Recorded(events) && (forall k :: 0 <= k < |events| ==> events[k].body.id == k + 1)
    requires i < |events| && IsObservation(events[i].body.entry)
             && (probe.None? || probe == Some(events[i].body.entry.probe))
    requires forall v :: v in visiting ==> v > i + 1
    ensures Resolve(i + 1, EventsById(events), probe, visiting) == RecordedVerdict(events, i)
    decreases i
  {
    EventsByIdAt(events);
    hide EventsById, ProbeAuthorities;
    assert RecordAt(events, i);
    var e := events[i].body.entry;
    if e.ProbeExposed? {
      ResolveFollowsRecord(events, e.supersedes.value - 1, Some(e.probe), visiting + {i + 1});
    }
  }

  /** An exposure never makes an observation worth more than what it supersedes,
      and a failed one stays failed. */
  lemma {:induction false} ExposureNeverRaises(events: seq<Event>, i: nat)
    requires Recorded(events) && (forall k :: 0 <= k < |events| ==> events[k].body.id == k + 1)
    requires i < |events| && events[i].body.entry.ProbeExposed?
    ensures events[i].body.entry.supersedes.Some? && 1 <= events[i].body.entry.supersedes.value <= i
    ensures
      var m := EventsById(events);
      var before, after := Resolve(events[i].body.entry.supersedes.value, m, None, {}), Resolve(i + 1, m, None, {});
      (before.Failed? ==> after.Failed?) && (after.Good? ==> before.Good?) && (after.Failed? ==> before.Failed?)
  {
    hide ProbeAuthorities, EventsById, Resolve;
    assert RecordAt(events, i);
    ResolveFollowsRecord(events, i, None, {});
    ResolveFollowsRecord(events, events[i].body.entry.supersedes.value - 1, None, {});
  }
}
