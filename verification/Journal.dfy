/** One case directory on disk, the redo journal, and the writes that apply it. */
module Journal {
  import opened Wrappers
  import opened Records
  import opened Timeline
  import opened Dispositions

  datatype Journal = Journal(snapshot: Snapshot, events: seq<Event>, archive: bool)

  /** A case directory: events.jsonl (empty when missing), case.md, the pending
      journal, and the archived versions. */
  datatype Slot = Slot(events: seq<Event>, file: Option<Snapshot>, journal: Option<Journal>,
                       archive: map<nat, Snapshot>)

  const EMPTY_SLOT: Slot := Slot([], None, None, map[])

  // ------------------------------------------------- composing a transition

  /** The last requested event numbered for session `s`, as (number, position). */
  function LastNumbered(specs: seq<Spec>, s: Session): Option<(nat, nat)> {
    if specs == [] then None
    else
      var n := |specs| - 1;
      if specs[n].number.Some? && specs[n].session == s then Some((specs[n].number.value, n))
      else LastNumbered(specs[..n], s)
  }

  predicate NumberedFor(spec: Spec, s: Session) {
    spec.number.Some? && spec.session == s
  }

  /** It is the last: no later event of the transaction is numbered for the session. */
  lemma {:induction false} LastNumberedIsLast(specs: seq<Spec>, s: Session)
    ensures match LastNumbered(specs, s)
            case None => forall k :: 0 <= k < |specs| ==> !NumberedFor(specs[k], s)
            case Some((number, p)) =>
              && p < |specs| && specs[p].session == s && specs[p].number == Some(number)
              && forall k :: p < k < |specs| ==> !NumberedFor(specs[k], s)
  {
    if specs != [] {
      var n := |specs| - 1;
      if !NumberedFor(specs[n], s) {
        LastNumberedIsLast(specs[..n], s);
        assert forall k :: 0 <= k < n ==> specs[..n][k] == specs[k];
      }
    }
  }

  /** An unfilled marker takes its number from this transaction's disposition
      event for the case's (possibly new) session. */
  function FillMarker(case_: Case, specs: seq<Spec>, previous: nat): Result<Case> {
    if case_.marker.Some? && case_.marker.value.number.None? then
      match LastNumbered(specs, case_.session)
      case None => Err(MarkerWithoutDisposition)
      case Some((number, position)) =>
        var pause := if case_.marker.value.pauseEvent.Some? then case_.marker.value.pauseEvent
                     else Some(previous + position + 1);
        Ok(case_.(marker := Some(Marker(Some(number), pause))))
    else Ok(case_)
  }

  /** Store the id of the transition's last event in the case record. */
  function Aim(case_: Case, target: Target, id: nat): Result<Case> {
    match target
    case NoTarget => Ok(case_)
    case MismatchTarget => Ok(case_.(mismatch := Some(id)))
    case CommitTarget => if case_.probe.None? then Err(TargetMissing)
                         else Ok(case_.(probe := Some(case_.probe.value.(commitEvent := Some(id)))))
    case StartTarget => if case_.probe.None? then Err(TargetMissing)
                        else Ok(case_.(probe := Some(case_.probe.value.(startedEvent := Some(id)))))
    case ObservationTarget => if case_.probe.None? then Err(TargetMissing)
                              else Ok(case_.(probe := Some(case_.probe.value.(observation := Some(id)))))
    case ClosureTarget => if case_.closure.None? then Err(TargetMissing)
                          else Ok(case_.(closure := Some(case_.closure.value.(event := Some(id)))))
  }

  /** The journal a transition of the settled slot `s` would write. `base`
      gives each session's high-water mark. */
  ghost function Compose(h: Hasher, s: Slot, base: Session -> nat, case_: Case, requests: seq<Request>, archive: bool,
                   target: Target, at: int): Result<Journal>
  {
    if s.file.Some? && !(Chained(h, s.events) && Binds(h, s.file.value, s.events)) then Err(IntegrityFailure)
    else if s.file.Some? && case_.revision != s.file.value.state.revision then Err(StaleToken)
    else if requests == [] then Err(NothingToAppend)
    else
      var revised := case_.(revision := if s.file.Some? then s.file.value.state.revision + 1 else 1);
      var specs := Numbered(requests, base);
      match FillMarker(revised, specs, |s.events|)
      case Err(e) => Err(e)
      case Ok(filled) =>
        var last := |s.events| + |requests|;
        match Aim(filled, target, last)
        case Err(e) => Err(e)
        case Ok(aimed) =>
          var state := aimed.(lastEvent := last);
          var seal := h.state(state);
          Ok(Journal(Snapshot(state, seal), Prepared(h, s.events, specs, at, seal), archive))
  }

  // ------------------------------------------------------ applying a journal

  /** Position of the journal's first event in the Timeline. */
  function First(j: Journal): int {
    if j.events == [] then -1 else j.events[0].body.id as int - 1
  }

  function Overlap(s: Slot, j: Journal): nat {
    if |s.events| <= First(j) then 0
    else if |s.events| - First(j) <= |j.events| then |s.events| - First(j)
    else |j.events|
  }

  /** Every check that stands before the first write of a recovery. */
  ghost predicate Acceptable(h: Hasher, id: CaseId, s: Slot) {
    && s.journal.Some?
    && var j := s.journal.value;
    && j.events != []
    && j.snapshot.state.id == id
    && Chained(h, s.events)
    && 0 <= First(j) <= |s.events|
    && (s.file.Some? ==>
          && s.file.value.state.id == id
          && (Binds(h, s.file.value, s.events[..First(j)]) || Binds(h, s.file.value, s.events)))
    && Chained(h, s.events[..First(j)] + j.events)
    && s.events[First(j)..][..Overlap(s, j)] == j.events[..Overlap(s, j)]
    && |s.events| <= First(j) + |j.events|
    && Binds(h, j.snapshot, j.events)
  }

  /** The Timeline file is replaced whole, so it holds all of the journal's
      events or none of them. */
  predicate Whole(s: Slot) {
    s.journal.Some? ==> Overlap(s, s.journal.value) in {0, |s.journal.value.events|}
  }

  ghost predicate Recoverable(h: Hasher, id: CaseId, s: Slot) {
    Acceptable(h, id, s) && Whole(s)
  }

  ghost predicate Settled(h: Hasher, id: CaseId, s: Slot) {
    && s.journal.None?
    && Chained(h, s.events)
    && (s.file.None? ==> s == EMPTY_SLOT)
    && (s.file.Some? ==> s.file.value.state.id == id && Binds(h, s.file.value, s.events))
  }

  ghost predicate Sound(h: Hasher, id: CaseId, s: Slot) {
    if s.journal.Some? then Recoverable(h, id, s) else Settled(h, id, s)
  }

  // The writes, in order. Each replaces one file.

  function WriteEvents(s: Slot): Slot
    requires s.journal.Some?
  {
    s.(events := s.events + s.journal.value.events[Overlap(s, s.journal.value)..])
  }

  function WriteCase(s: Slot): Slot
    requires s.journal.Some?
  {
    s.(file := Some(s.journal.value.snapshot))
  }

  function WriteArchive(s: Slot): Slot
    requires s.journal.Some?
  {
    if s.journal.value.archive
    then s.(archive := s.archive[s.journal.value.snapshot.state.version := s.journal.value.snapshot])
    else s
  }

  function Unlink(s: Slot): Slot {
    s.(journal := None)
  }

  /** Where an uninterrupted recovery takes the directory: the abstract state of
      a slot, the same before, between and after the writes. */
  function Finished(s: Slot): Slot {
    if s.journal.None? || First(s.journal.value) < 0 || |s.events| < First(s.journal.value) then s
    else
      var j := s.journal.value;
      Slot(s.events[..First(j)] + j.events, Some(j.snapshot), None,
           if j.archive then s.archive[j.snapshot.state.version := j.snapshot] else s.archive)
  }

  /** How far the writes have got. */
  datatype Stage = AtEvents | AtCase | AtArchive | AtCache | AtUnlink

  predicate Reached(s: Slot, stage: Stage)
    requires s.journal.Some?
  {
    var j := s.journal.value;
    && (!stage.AtEvents? ==> Overlap(s, j) == |j.events|)
    && (!stage.AtEvents? && !stage.AtCase? ==> s.file == Some(j.snapshot))
    && (stage.AtCache? || stage.AtUnlink? ==>
          j.archive ==> j.snapshot.state.version in s.archive && s.archive[j.snapshot.state.version] == j.snapshot)
  }

  // ----------------------------------------------------------------- lemmas

  /** With the whole journal in the Timeline, the Timeline is the final one. */
  lemma FullTimeline(h: Hasher, id: CaseId, s: Slot)
    requires Recoverable(h, id, s) && Overlap(s, s.journal.value) == |s.journal.value.events|
    ensures s.events == s.events[..First(s.journal.value)] + s.journal.value.events
  {
    var j := s.journal.value;
    assert |s.events| == First(j) + |j.events|;
    assert s.events[First(j)..][..|j.events|] == s.events[First(j)..];
    assert j.events[..|j.events|] == j.events;
    assert s.events == s.events[..First(j)] + s.events[First(j)..];
  }

  lemma WriteEventsStutters(h: Hasher, id: CaseId, s: Slot)
    requires Recoverable(h, id, s)
    ensures Recoverable(h, id, WriteEvents(s)) && Finished(WriteEvents(s)) == Finished(s)
    ensures Reached(WriteEvents(s), AtCase)
  {
    var j, t := s.journal.value, WriteEvents(s);
    var prefix := s.events[..First(j)];
    if Overlap(s, j) == 0 {
      assert s.events == prefix;
      assert j.events[0..] == j.events;
    } else {
      FullTimeline(h, id, s);
      assert j.events[|j.events|..] == [];
    }
    assert t.events == prefix + j.events;
    assert t.events[..First(j)] == prefix;
    assert t.events[First(j)..] == j.events;
  }

  /** The journal stays through all writes and goes with the last. */
  lemma KeepJournal(s: Slot)
    requires s.journal.Some?
    ensures WriteEvents(s).journal == s.journal && WriteCase(WriteEvents(s)).journal == s.journal
    ensures WriteArchive(WriteCase(WriteEvents(s))).journal == s.journal
    ensures Unlink(WriteArchive(WriteCase(WriteEvents(s)))).journal.None?
  {
  }

  lemma BindsWhole(h: Hasher, snapshot: Snapshot, prefix: seq<Event>, events: seq<Event>)
    requires events != []
    ensures Binds(h, snapshot, prefix + events) <==> Binds(h, snapshot, events)
  {
  }

  lemma WriteCaseStutters(h: Hasher, id: CaseId, s: Slot)
    requires Recoverable(h, id, s) && Reached(s, AtCase)
    ensures Recoverable(h, id, WriteCase(s)) && Finished(WriteCase(s)) == Finished(s)
    ensures Reached(WriteCase(s), AtArchive)
  {
    var j := s.journal.value;
    FullTimeline(h, id, s);
    BindsWhole(h, j.snapshot, s.events[..First(j)], j.events);
  }

  lemma WriteArchiveStutters(h: Hasher, id: CaseId, s: Slot)
    requires Recoverable(h, id, s) && Reached(s, AtArchive)
    ensures Recoverable(h, id, WriteArchive(s)) && Finished(WriteArchive(s)) == Finished(s)
    ensures Reached(WriteArchive(s), AtCache)
  {
    FullTimeline(h, id, s);
  }

  lemma UnlinkSettles(h: Hasher, id: CaseId, s: Slot)
    requires Recoverable(h, id, s) && Reached(s, AtUnlink)
    ensures Settled(h, id, Unlink(s)) && Unlink(s) == Finished(s)
  {
    var j := s.journal.value;
    FullTimeline(h, id, s);
    BindsWhole(h, j.snapshot, s.events[..First(j)], j.events);
  }

  /** Whatever is on disk, a slot that recovery accepts is finished into a
      verifying Timeline with the case file bound to its tip. */
  lemma AcceptedEndsSettled(h: Hasher, id: CaseId, s: Slot)
    requires Acceptable(h, id, s)
    ensures Settled(h, id, Finished(s))
  {
    var j := s.journal.value;
    BindsWhole(h, j.snapshot, s.events[..First(j)], j.events);
  }

  /** The shape of a composed journal. */
  lemma {:induction false} Composed(h: Hasher, s: Slot, base: Session -> nat, case_: Case, requests: seq<Request>,
                                    archive: bool,
                 target: Target, at: int)
    requires Compose(h, s, base, case_, requests, archive, target, at).Ok?
    ensures
      var j := Compose(h, s, base, case_, requests, archive, target, at).value;
      && requests != []
      && j.events == Prepared(h, s.events, Numbered(requests, base), at, j.snapshot.seal)
      && j.snapshot.state.lastEvent == |s.events| + |requests|
      && j.snapshot.seal == h.state(j.snapshot.state)
      && j.snapshot.state.id == case_.id
      && j.archive == archive
  {
  }

  /** Prepared events, taken as a journal over the Timeline they extend. */
  lemma {:induction false} PreparedFits(h: Hasher, previous: seq<Event>, specs: seq<Spec>, at: int, snapshot: Snapshot)
    requires specs != [] && Chained(h, previous)
    requires snapshot.state.lastEvent == |previous| + |specs| && snapshot.seal == h.state(snapshot.state)
    ensures
      var events := Prepared(h, previous, specs, at, snapshot.seal);
      && events[0].body.id == |previous| + 1
      && Chained(h, previous + events)
      && Binds(h, snapshot, events)
  {
    PreparedExtendsChain(h, previous, specs, at, snapshot.seal);
    PreparedAt(h, previous, specs, at, snapshot.seal, 0);
    PreparedAt(h, previous, specs, at, snapshot.seal, |specs| - 1);
  }

  /** Writing the journal is the commit point: the slot becomes recoverable, and
      what recovery will reach is the old record with the transition applied. */
  lemma JournalCommits(h: Hasher, id: CaseId, s: Slot, base: Session -> nat, case_: Case, requests: seq<Request>,
                       archive: bool, target: Target, at: int)
    requires Settled(h, id, s) && case_.id == id
    requires Compose(h, s, base, case_, requests, archive, target, at).Ok?
    ensures
      var j := Compose(h, s, base, case_, requests, archive, target, at).value;
      var t := s.(journal := Some(j));
      && Recoverable(h, id, t)
      && Finished(t) == Slot(s.events + j.events, Some(j.snapshot), None,
                             if archive then s.archive[j.snapshot.state.version := j.snapshot] else s.archive)
  {
    var j := Compose(h, s, base, case_, requests, archive, target, at).value;
    Composed(h, s, base, case_, requests, archive, target, at);
    PreparedFits(h, s.events, Numbered(requests, base), at, j.snapshot);
    JournalFits(h, id, s, j);
  }

  lemma JournalFits(h: Hasher, id: CaseId, s: Slot, j: Journal)
    requires Settled(h, id, s) && j.snapshot.state.id == id
    requires j.events != [] && j.events[0].body.id == |s.events| + 1
    requires Chained(h, s.events + j.events) && Binds(h, j.snapshot, j.events)
    ensures
      var t := s.(journal := Some(j));
      && Recoverable(h, id, t)
      && Finished(t) == Slot(s.events + j.events, Some(j.snapshot), None,
                             if j.archive then s.archive[j.snapshot.state.version := j.snapshot] else s.archive)
  {
    assert s.events[..First(j)] == s.events;
  }

  /** Recovery takes back no event that is on disk: a journal that would contradict the
      Timeline, or fall short of it, is not accepted. */
  lemma AcceptedLosesNothing(h: Hasher, id: CaseId, s: Slot)
    requires Acceptable(h, id, s)
    ensures s.events <= Finished(s).events && |Finished(s).events| == First(s.journal.value) + |s.journal.value.events|
  {
    var j := s.journal.value;
    var final := Finished(s).events;
    assert |s.events| <= |final|;
    forall i | 0 <= i < |s.events| ensures s.events[i] == final[i] {
      if i >= First(j) {
        var k := i - First(j);
        assert s.events[First(j)..][..Overlap(s, j)][k] == j.events[..Overlap(s, j)][k];
      }
    }
  }

  /** Nor does it overwrite a case file that is neither the one the journal was written
      over nor the one it writes. */
  lemma AcceptedKnowsFile(h: Hasher, id: CaseId, s: Slot)
    requires CollisionFree(h) && Acceptable(h, id, s) && s.file.Some?
    ensures Binds(h, s.file.value, s.events[..First(s.journal.value)]) || s.file.value == s.journal.value.snapshot
            || (Binds(h, s.file.value, s.events) && |s.events| < First(s.journal.value) + |s.journal.value.events|)
    ensures s.file.value.state.id == id && s.journal.value.snapshot.state.id == id
  {
    var j := s.journal.value;
    if !Binds(h, s.file.value, s.events[..First(j)]) && |s.events| == First(j) + |j.events| {
      AcceptedLosesNothing(h, id, s);
      assert s.events == Finished(s).events == s.events[..First(j)] + j.events;
      BindsWhole(h, j.snapshot, s.events[..First(j)], j.events);
      SameTipSameSnapshot(h, s.file.value, j.snapshot, s.events, s.events);
    }
  }
}
