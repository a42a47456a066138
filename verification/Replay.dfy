/** Replay: the obligations of a case re-derived from its whole Timeline, and
    the relation they bear to the flags in the case snapshot. */
module Replay {
  import opened Wrappers
  import opened Records

  // ------------------------------------------- what the Timeline accounts for

  function Latest(seen: map<nat, nat>, e: Event): map<nat, nat> {
    match e.body.entry
    case ProbeObserved(p, _, _, _, _) => if p == 0 then seen else seen[p := e.body.id]
    case ProbeExposed(p, _, _, _, _) => if p == 0 then seen else seen[p := e.body.id]
    case _ => seen
  }

  /** The newest observation or exposure of each probe. */
  function LatestObservations(events: seq<Event>): map<nat, nat> {
    if events == [] then map[]
    else Latest(LatestObservations(events[..|events| - 1]), events[|events| - 1])
  }

  function ComparedBy(e: Event): set<nat> {
    if e.body.entry.ProbeCompared? && e.body.entry.observation.Some? then {e.body.entry.observation.value} else {}
  }

  function Compared(events: seq<Event>): set<nat> {
    if events == [] then {} else Compared(events[..|events| - 1]) + ComparedBy(events[|events| - 1])
  }

  function DiscardedBy(e: Event): set<nat> {
    if e.body.entry.ProbeDiscarded? && e.body.entry.observation.Some? then {e.body.entry.observation.value} else {}
  }

  function Discarded(events: seq<Event>): set<nat> {
    if events == [] then {} else Discarded(events[..|events| - 1]) + DiscardedBy(events[|events| - 1])
  }

  function MismatchOf(e: Event): set<nat> {
    if e.body.entry.ProbeCompared? && e.body.entry.verdict.Mismatch? && e.body.entry.material then {e.body.id} else {}
  }

  function Mismatches(events: seq<Event>): set<nat> {
    if events == [] then {} else Mismatches(events[..|events| - 1]) + MismatchOf(events[|events| - 1])
  }

  function RepairedBy(e: Event): set<nat> {
    if e.body.entry.ModelRevised? && e.body.entry.repaired.Some? then {e.body.entry.repaired.value} else {}
  }

  function Repaired(events: seq<Event>): set<nat> {
    if events == [] then {} else Repaired(events[..|events| - 1]) + RepairedBy(events[|events| - 1])
  }

  /** Replay's complete-history accounting of probes and mismatches. */
  datatype Accounting = Accounting(uncompared: set<nat>, invalidRefs: set<nat>, unaddressed: set<nat>)

  function Account(events: seq<Event>): Accounting {
    var observed := LatestObservations(events).Values;
    Accounting(observed - Compared(events) - Discarded(events),
               Compared(events) - observed,
               Mismatches(events) - Repaired(events))
  }

  /** Replay's passes over the Timeline. */
  method ComputeAccounting(events: seq<Event>) returns (accounting: Accounting)
    ensures accounting == Account(events)
  {
    var latest: map<nat, nat> := map[];
    var compared, discarded, mismatches, repaired: set<nat> := {}, {}, {}, {};
    for i := 0 to |events|
      invariant latest == LatestObservations(events[..i])
      invariant compared == Compared(events[..i]) && discarded == Discarded(events[..i])
      invariant mismatches == Mismatches(events[..i]) && repaired == Repaired(events[..i])
    {
      hide LatestObservations, Compared, Discarded, Mismatches, Repaired;
      Appended(events[..i], events[i]);
      assert events[..i + 1] == events[..i] + [events[i]];
      var event := events[i];
      latest := Latest(latest, event);
      compared := compared + ComparedBy(event);
      discarded := discarded + DiscardedBy(event);
      mismatches := mismatches + MismatchOf(event);
      repaired := repaired + RepairedBy(event);
    }
    assert events[..|events|] == events;
    var observed := latest.Values;
    accounting := Accounting(observed - compared - discarded, compared - observed, mismatches - repaired);
  }

  // ------------------------------------------------ what the accounting finds

  predicate ObservesProbe(e: Entry) {
    (e.ProbeObserved? || e.ProbeExposed?) && e.probe != 0
  }

  /** The event at `i` is the newest observation of its probe. */
  predicate NewestAt(events: seq<Event>, i: nat) {
    && i < |events| && ObservesProbe(events[i].body.entry)
    && forall k :: i < k < |events| && ObservesProbe(events[k].body.entry) ==>
         events[k].body.entry.probe != events[i].body.entry.probe
  }

  /** `x` is the id of the newest observation of some probe. */
  predicate Newest(events: seq<Event>, x: nat) {
    exists i :: 0 <= i < |events| && NewestAt(events, i) && events[i].body.id == x
  }

  lemma {:induction false} LatestIsNewest(events: seq<Event>, p: nat) returns (i: nat)
    ensures p in LatestObservations(events) ==>
              NewestAt(events, i) && events[i].body.entry.probe == p
              && events[i].body.id == LatestObservations(events)[p]
    ensures p !in LatestObservations(events) ==>
              forall k :: 0 <= k < |events| && ObservesProbe(events[k].body.entry) ==> events[k].body.entry.probe != p
  {
    i := 0;
    if events != [] {
      var n := |events| - 1;
      if ObservesProbe(events[n].body.entry) && events[n].body.entry.probe == p {
        i := n;
      } else {
        i := LatestIsNewest(events[..n], p);
        assert forall k :: 0 <= k < n ==> events[..n][k] == events[k];
      }
    }
  }

  lemma {:induction false} NewestIsLatest(events: seq<Event>, x: nat)
    ensures x in LatestObservations(events).Values <==> Newest(events, x)
  {
    var latest := LatestObservations(events);
    if x in latest.Values {
      var p :| p in latest && latest[p] == x;
      var i := LatestIsNewest(events, p);
      assert NewestAt(events, i) && events[i].body.id == x;
    }
    if Newest(events, x) {
      var i :| 0 <= i < |events| && NewestAt(events, i) && events[i].body.id == x;
      var j := LatestIsNewest(events, events[i].body.entry.probe);
      assert i == j;
    }
  }

  lemma {:induction false} Settling(events: seq<Event>, x: nat)
    ensures x in Compared(events) <==>
              exists e :: e in events && e.body.entry.ProbeCompared? && e.body.entry.observation == Some(x)
    ensures x in Discarded(events) <==>
              exists e :: e in events && e.body.entry.ProbeDiscarded? && e.body.entry.observation == Some(x)
  {
    if events != [] {
      var n := |events| - 1;
      Settling(events[..n], x);
      assert forall e :: e in events <==> e in events[..n] || e == events[n];
    }
  }

  lemma {:induction false} Mismatching(events: seq<Event>, x: nat)
    ensures x in Mismatches(events) <==>
              exists e :: e in events && e.body.id == x && e.body.entry.ProbeCompared?
                          && e.body.entry.verdict.Mismatch? && e.body.entry.material
    ensures x in Repaired(events) <==>
              exists e :: e in events && e.body.entry.ModelRevised? && e.body.entry.repaired == Some(x)
  {
    if events != [] {
      var n := |events| - 1;
      Mismatching(events[..n], x);
      assert forall e :: e in events <==> e in events[..n] || e == events[n];
    }
  }

  /** Replay finds exactly: the newest observations that no comparison and no discard
      names, the comparisons of what is no newest observation, and the material
      mismatches that no revision names. */
  lemma {:induction false} AccountFinds(events: seq<Event>, x: nat)
    ensures x in Account(events).uncompared <==>
              Newest(events, x)
              && forall e :: e in events && (e.body.entry.ProbeCompared? || e.body.entry.ProbeDiscarded?) ==>
                   e.body.entry.observation != Some(x)
    ensures x in Account(events).invalidRefs <==>
              !Newest(events, x)
              && exists e :: e in events && e.body.entry.ProbeCompared? && e.body.entry.observation == Some(x)
    ensures x in Account(events).unaddressed <==>
              && (exists e :: e in events && e.body.id == x && e.body.entry.ProbeCompared?
                              && e.body.entry.verdict.Mismatch? && e.body.entry.material)
              && forall e :: e in events && e.body.entry.ModelRevised? ==> e.body.entry.repaired != Some(x)
  {
    hide Newest, LatestObservations, Compared, Discarded, Mismatches, Repaired;
    NewestIsLatest(events, x);
    Settling(events, x);
    Mismatching(events, x);
  }

  // ------------------------------------------------------ the snapshot's view

  /** The snapshot flags replay is compared with. */
  datatype Flags = Flags(probe: Option<Probe>, stale: bool, mismatch: Option<nat>)

  function FlagsOf(c: Case): Flags {
    Flags(c.probe, c.stale, c.mismatch)
  }

  function AwaitsComparison(f: Flags): set<nat> {
    if f.probe.Some? && f.probe.value.status.Observed? && f.probe.value.observation.Some?
    then {f.probe.value.observation.value} else {}
  }

  function AwaitsRepair(f: Flags): set<nat> {
    if f.stale && f.mismatch.Some? then {f.mismatch.value} else {}
  }

  /** The two views of a case's obligations coincide. */
  predicate Agree(f: Flags, events: seq<Event>) {
    Account(events) == Accounting(AwaitsComparison(f), {}, AwaitsRepair(f))
  }

  function Commits(events: seq<Event>): nat {
    if events == [] then 0
    else Commits(events[..|events| - 1]) + if events[|events| - 1].body.entry.ProbeCommitted? then 1 else 0
  }

  predicate Pending(f: Flags, p: nat) {
    f.probe.Some? && f.probe.value.id == p
  }

  ghost predicate ProbeInv(f: Flags, events: seq<Event>) {
    var latest := LatestObservations(events);
    var settled := Compared(events) + Discarded(events);
    && (f.probe.Some? ==> f.probe.value.id == Commits(events) >= 1)
    && (f.probe.Some? && !f.probe.value.status.Observed? ==> f.probe.value.id !in latest
                                                             && f.probe.value.observation.None?)
    && (f.probe.Some? && f.probe.value.status.Observed? ==>
          && f.probe.value.id in latest && f.probe.value.observation == Some(latest[f.probe.value.id])
          && latest[f.probe.value.id] !in settled)
    && (forall p :: p in latest ==> 1 <= p <= Commits(events) && latest[p] <= |events|)
    && (forall p :: p in latest && !Pending(f, p) ==> latest[p] in settled)
    && (forall x :: x in Compared(events) ==> exists p :: p in latest && !Pending(f, p) && latest[p] == x)
    && (forall x :: x in Compared(events) ==> x <= |events|)
    && (forall x :: x in Discarded(events) ==> x <= |events|)
  }

  ghost predicate MismatchInv(f: Flags, events: seq<Event>) {
    && (f.stale <==> f.mismatch.Some?)
    && (f.probe.Some? ==> !f.stale)
    && Mismatches(events) - Repaired(events) == AwaitsRepair(f)
    && (forall x :: x in Repaired(events) ==> x <= |events|)
    && (forall x :: x in Mismatches(events) ==> x <= |events|)
  }

  ghost predicate ReplayInv(f: Flags, events: seq<Event>) {
    ProbeInv(f, events) && MismatchInv(f, events)
  }

  /** In every state that keeps the invariant, replay and snapshot agree. */
  lemma InvAgrees(f: Flags, events: seq<Event>)
    requires ReplayInv(f, events)
    ensures Agree(f, events)
  {
    var latest := LatestObservations(events);
    var settled := Compared(events) + Discarded(events);
    forall x ensures x in latest.Values - settled <==> x in AwaitsComparison(f) {
      if x in latest.Values - settled {
        var p :| p in latest && latest[p] == x;
      }
    }
    assert latest.Values - Compared(events) - Discarded(events) == latest.Values - settled;
    assert Compared(events) - latest.Values == {};
  }

  // ------------------------------------------------------------- appending

  lemma {:induction false} Appended(events: seq<Event>, e: Event)
    ensures
      var more := events + [e];
      && LatestObservations(more) == Latest(LatestObservations(events), e)
      && Compared(more) == Compared(events) + ComparedBy(e)
      && Discarded(more) == Discarded(events) + DiscardedBy(e)
      && Mismatches(more) == Mismatches(events) + MismatchOf(e)
      && Repaired(more) == Repaired(events) + RepairedBy(e)
      && Commits(more) == Commits(events) + if e.body.entry.ProbeCommitted? then 1 else 0
  {
    assert (events + [e])[..|events|] == events;
  }

  /** Entries that neither open, move nor settle an obligation. */
  predicate Neutral(e: Entry) {
    && !e.ProbeCommitted? && !e.ProbeObserved? && !e.ProbeExposed? && !e.ProbeCompared? && !e.ProbeDiscarded?
    && (e.ModelRevised? ==> e.repaired.None?)
  }

  lemma NeutralStep(f: Flags, events: seq<Event>, e: Event, g: Flags)
    requires ReplayInv(f, events) && Neutral(e.body.entry)
    requires g.stale == f.stale && g.mismatch == f.mismatch
    requires g.probe.Some? <==> f.probe.Some?
    requires g.probe.Some? ==>
               g.probe.value.id == f.probe.value.id && g.probe.value.observation == f.probe.value.observation
                               && (g.probe.value.status.Observed? <==> f.probe.value.status.Observed?)
    ensures ReplayInv(g, events + [e])
  {
    Appended(events, e);
    hide LatestObservations, Compared, Discarded, Mismatches, Repaired, Commits;
    assert MismatchInv(g, events + [e]);
    forall x | x in Compared(events + [e])
      ensures exists p :: p in LatestObservations(events + [e]) && !Pending(g, p)
                          && LatestObservations(events + [e])[p] == x
    {
      var p :| p in LatestObservations(events) && !Pending(f, p) && LatestObservations(events)[p] == x;
      assert p in LatestObservations(events + [e]) && !Pending(g, p);
    }
  }

  lemma {:induction false} CommitStep(f: Flags, events: seq<Event>, e: Event, g: Flags)
    requires ReplayInv(f, events) && f.probe.None? && !f.stale
    requires e.body.entry.ProbeCommitted? && !g.stale && g.mismatch == f.mismatch
    requires g.probe.Some? && g.probe.value.id == Commits(events) + 1 && g.probe.value.status.Committed?
             && g.probe.value.observation.None?
    ensures ReplayInv(g, events + [e])
  {
    Appended(events, e);
    hide LatestObservations, Compared, Discarded, Mismatches, Repaired, Commits;
    assert MismatchInv(g, events + [e]);
    forall x | x in Compared(events + [e])
      ensures exists p :: p in LatestObservations(events + [e]) && !Pending(g, p)
                          && LatestObservations(events + [e])[p] == x
    {
      var p :| p in LatestObservations(events) && !Pending(f, p) && LatestObservations(events)[p] == x;
      assert p in LatestObservations(events + [e]) && !Pending(g, p);
    }
  }

  /** An observation or exposure becomes the pending probe's newest one. */
  lemma ObserveStep(f: Flags, events: seq<Event>, e: Event, g: Flags)
    requires ReplayInv(f, events) && f.probe.Some? && e.body.id == |events| + 1
    requires e.body.entry.ProbeObserved? || e.body.entry.ProbeExposed?
    requires e.body.entry.probe == f.probe.value.id
    requires g.stale == f.stale && g.mismatch == f.mismatch
    requires g.probe.Some? && g.probe.value.id == f.probe.value.id && g.probe.value.status.Observed?
    requires g.probe.value.observation == Some(|events| + 1)
    ensures ReplayInv(g, events + [e])
  {
    Appended(events, e);
    hide LatestObservations, Compared, Discarded, Mismatches, Repaired, Commits;
    assert MismatchInv(g, events + [e]);
    forall x | x in Compared(events + [e])
      ensures exists p :: p in LatestObservations(events + [e]) && !Pending(g, p)
                          && LatestObservations(events + [e])[p] == x
    {
      var p :| p in LatestObservations(events) && !Pending(f, p) && LatestObservations(events)[p] == x;
      assert p in LatestObservations(events + [e]) && !Pending(g, p);
    }
  }

  lemma CompareStep(f: Flags, events: seq<Event>, e: Event, g: Flags)
    requires ReplayInv(f, events) && f.probe.Some? && f.probe.value.status.Observed? && e.body.id == |events| + 1
    requires e.body.entry.ProbeCompared? && e.body.entry.observation == f.probe.value.observation
    requires g.probe.None?
    requires if e.body.entry.verdict.Mismatch? && e.body.entry.material
             then g.stale && g.mismatch == Some(|events| + 1)
             else g.stale == f.stale && g.mismatch == f.mismatch
    ensures ReplayInv(g, events + [e])
  {
    Appended(events, e);
    hide LatestObservations, Compared, Discarded, Mismatches, Repaired, Commits;
    assert MismatchInv(g, events + [e]);
    var q := f.probe.value.id;
    forall x | x in Compared(events + [e])
      ensures exists p :: p in LatestObservations(events + [e]) && !Pending(g, p)
                          && LatestObservations(events + [e])[p] == x
    {
      if x in Compared(events) {
        var p :| p in LatestObservations(events) && !Pending(f, p) && LatestObservations(events)[p] == x;
        assert p in LatestObservations(events + [e]) && !Pending(g, p);
      } else {
        assert q in LatestObservations(events + [e]) && !Pending(g, q);
      }
    }
    assert |events| + 1 !in Repaired(events);
  }

  lemma DiscardStep(f: Flags, events: seq<Event>, e: Event, g: Flags)
    requires ReplayInv(f, events) && f.probe.Some?
    requires e.body.entry.ProbeDiscarded?
    requires e.body.entry.observation == f.probe.value.observation
    requires g.probe.None? && g.stale == f.stale && g.mismatch == f.mismatch
    ensures ReplayInv(g, events + [e])
  {
    Appended(events, e);
    hide LatestObservations, Compared, Discarded, Mismatches, Repaired, Commits;
    assert MismatchInv(g, events + [e]);
    forall x | x in Compared(events + [e])
      ensures exists p :: p in LatestObservations(events + [e]) && !Pending(g, p)
                          && LatestObservations(events + [e])[p] == x
    {
      var p :| p in LatestObservations(events) && !Pending(f, p) && LatestObservations(events)[p] == x;
      assert p in LatestObservations(events + [e]) && !Pending(g, p);
    }
  }

  lemma RepairStep(f: Flags, events: seq<Event>, e: Event, g: Flags)
    requires ReplayInv(f, events) && f.probe.None?
    requires e.body.entry.ModelRevised? && e.body.entry.repaired == f.mismatch
    requires g.probe.None? && !g.stale && g.mismatch.None?
    ensures ReplayInv(g, events + [e])
  {
    Appended(events, e);
    hide LatestObservations, Compared, Discarded, Mismatches, Repaired, Commits;
    assert MismatchInv(g, events + [e]);
    forall x | x in Compared(events + [e])
      ensures exists p :: p in LatestObservations(events + [e]) && !Pending(g, p)
                          && LatestObservations(events + [e])[p] == x
    {
      var p :| p in LatestObservations(events) && !Pending(f, p) && LatestObservations(events)[p] == x;
      assert p in LatestObservations(events + [e]) && !Pending(g, p);
    }
    if f.mismatch.Some? {
      assert f.mismatch.value in Mismatches(events);
    }
  }
}
