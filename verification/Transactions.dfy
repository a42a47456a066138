/** The one-event transition that almost every operation of the store ends in. */
module Transactions {
  import opened Wrappers
  import opened Records
  import opened Timeline
  import opened Dispositions
  import opened Journal
  import opened History

  /** Replace an existing case and append one event of the case's own session. */
  ghost function Write(h: Hasher, st: Store, case_: Case, entry: Entry, archive: bool, target: Target,
                       at: int): Result<Store> {
    Transact(h, st, case_, [Request(entry, case_.session)], archive, target, at)
  }

  /** The session number the new event takes, if it is a disposition. */
  function NextNumber(st: Store, case_: Case, entry: Entry): Option<nat> {
    if Counted(Request(entry, case_.session)) then Some(Count(st.log, case_.session) + 1) else None
  }

  function Filled(marker: Option<Marker>, number: Option<nat>, event: nat): Option<Marker> {
    if marker.Some? && marker.value.number.None?
    then Some(Marker(number, if marker.value.pauseEvent.Some? then marker.value.pauseEvent else Some(event)))
    else marker
  }

  function AimedProbe(probe: Option<Probe>, target: Target, event: nat): Option<Probe> {
    if probe.None? then None
    else match target
      case CommitTarget => Some(probe.value.(commitEvent := Some(event)))
      case StartTarget => Some(probe.value.(startedEvent := Some(event)))
      case ObservationTarget => Some(probe.value.(observation := Some(event)))
      case _ => probe
  }

  /** The case record as the transition leaves it. */
  function Landed(case_: Case, number: Option<nat>, event: nat, target: Target): Case {
    case_.(revision := case_.revision + 1,
           lastEvent := event,
           marker := Filled(case_.marker, number, event),
           mismatch := if target.MismatchTarget? then Some(event) else case_.mismatch,
           probe := AimedProbe(case_.probe, target, event),
           closure := if target.ClosureTarget? && case_.closure.Some?
                      then Some(case_.closure.value.(event := Some(event)))
                      else case_.closure)
  }

  /** What the operations of the store guarantee about the copy they write back. */
  ghost predicate Writable(st: Store, case_: Case, entry: Entry, target: Target) {
    && Exists(st, case_.id)
    && case_.revision == StateOf(st, case_.id).revision
    && (case_.marker.Some? && case_.marker.value.number.None? ==> Counted(Request(entry, case_.session)))
    && (target.CommitTarget? || target.StartTarget? || target.ObservationTarget? ==> case_.probe.Some?)
    && (target.ClosureTarget? ==> case_.closure.Some?)
  }

  /** `after` is `st` with one more event of `case_` and the record that goes with it. */
  ghost predicate Wrote(h: Hasher, st: Store, case_: Case, entry: Entry, archive: bool, target: Target, at: int,
                        after: Store) {
    && Exists(st, case_.id) && Exists(after, case_.id)
    && var s, t := st.slots[case_.id], after.slots[case_.id];
    var number := NextNumber(st, case_, entry);
    && |t.events| == |s.events| + 1
    && var event := t.events[|s.events|];
    && t.events == s.events + [event]
    && event.body.id == |s.events| + 1 && event.body.entry == entry && event.body.session == case_.session
    && event.body.number == number && event.body.at == at
    && StateOf(after, case_.id) == Landed(case_, number, |s.events| + 1, target)
    && t.archive == (if archive then s.archive[case_.version := t.file.value] else s.archive)
    && after.slots == st.slots[case_.id := t]
    && after.log == st.log + [Stamp(case_.id, event)]
  }

  lemma NumberedOne(r: Request, base: Session -> nat)
    ensures Numbered([r], base) == [Spec(r.entry, r.session, if Counted(r) then Some(base(r.session) + 1) else None)]
  {
    NumberedAt([r], base, 0);
    assert [r][..0] == [];
  }

  lemma FillOne(case_: Case, spec: Spec, previous: nat)
    requires spec.session == case_.session
    requires case_.marker.Some? && case_.marker.value.number.None? ==> spec.number.Some?
    ensures FillMarker(case_, [spec], previous) == Ok(case_.(marker := Filled(case_.marker, spec.number, previous + 1)))
  {
  }

  lemma Checked(h: Hasher, st: Store, id: CaseId)
    requires AllSettled(h, st) && Exists(st, id)
    ensures Chained(h, st.slots[id].events) && Binds(h, st.slots[id].file.value, st.slots[id].events)
  {
    assert Settled(h, id, st.slots[id]);
  }

  lemma PlannedOne(h: Hasher, st: Store, case_: Case, entry: Entry, archive: bool, target: Target, at: int)
    requires AllSettled(h, st) && Writable(st, case_, entry, target)
    ensures
      var planned := Planned(h, st, case_, [Request(entry, case_.session)], archive, target, at);
      && planned.Ok?
      && planned.value.snapshot.state
        == Landed(case_, NextNumber(st, case_, entry), |st.slots[case_.id].events| + 1, target)
      && planned.value.archive == archive
  {
    hide Prepared, Numbered, FillMarker, Chained, Binds, AllSettled, Filled;
    Checked(h, st, case_.id);
    var r := Request(entry, case_.session);
    var base := Counter(st.log);
    var s := st.slots[case_.id];
    NumberedOne(r, base);
    var revised := case_.(revision := case_.revision + 1);
    FillOne(revised, Numbered([r], base)[0], |s.events|);
  }

  /** A writable copy is always accepted, and the transition says exactly what it says. */
  lemma WriteSucceeds(h: Hasher, st: Store, case_: Case, entry: Entry, archive: bool, target: Target, at: int)
    requires AllSettled(h, st) && Writable(st, case_, entry, target)
    ensures
      var result := Write(h, st, case_, entry, archive, target, at);
      result.Ok? && Wrote(h, st, case_, entry, archive, target, at, result.value)
  {
    hide Planned, AimedProbe, Filled, Numbered, Prepared;
    var requests := [Request(entry, case_.session)];
    PlannedOne(h, st, case_, entry, archive, target, at);
    PlannedEvents(h, st, case_, requests, archive, target, at, 0);
    assert requests[..0] == [];
    var j := Planned(h, st, case_, requests, archive, target, at).value;
    assert j.events == [j.events[0]];
    assert Stamps(case_.id, j.events) == [Stamp(case_.id, j.events[0])];
  }
}
