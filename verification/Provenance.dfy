/** What an observation is worth: the execution status behind a chain of
    exposures, over arbitrary event maps. */
module Provenance {
  import opened Wrappers
  import opened Records

  type EventMap = map<nat, Entry>

  /** The conservative vocabulary of calibration. */
  datatype Worth = Good | Failed | Unknown

  function Normal(r: Reported): Worth {
    match r
    case Success => Good
    case Failure => Failed
    case _ => Unknown
  }

  /** Raw status fields; a failure in either wins, and two fields that disagree
      say nothing. */
  function Executed(s: Statuses): Worth {
    var result := Normal(s.result);
    match s.execution
    case None => result
    case Some(e) =>
      var execution := Normal(e);
      if result.Failed? || execution.Failed? then Failed
      else if execution.Good? then Good
      else result
  }

  /** The display fields; a failed display is no statement about the source. */
  function Displayed(s: Statuses): Worth {
    var result := Normal(s.result);
    match s.display
    case None => result
    case Some(d) =>
      var display := Normal(d);
      if result.Failed? || display.Failed? then Unknown
      else if display.Good? then Good
      else result
  }

  predicate IsObservation(e: Entry) {
    e.ProbeObserved? || e.ProbeExposed?
  }

  /** The exposure at `id` names a predecessor of the same probe. */
  predicate LinksTo(id: nat, next: nat, m: EventMap) {
    && id in m && m[id].ProbeExposed? && m[id].probe != 0
    && m[id].supersedes == Some(next)
    && next in m && IsObservation(m[next]) && m[next].probe == m[id].probe
  }

  predicate Expected(id: nat, m: EventMap, probe: Option<nat>)
    requires id in m && IsObservation(m[id])
  {
    probe.None? || m[id].probe == probe.value
  }

  /** The resolver. It never follows an event it is already visiting, so it ends
      on cyclic links too. */
  function Resolve(id: nat, m: EventMap, probe: Option<nat>, visiting: set<nat>): Worth
    decreases |m.Keys - visiting|
  {
    if id in visiting || id !in m || !IsObservation(m[id]) || !Expected(id, m, probe) then Unknown
    else match m[id]
      case ProbeObserved(_, _, _, statuses, unknownOrigin) =>
        if unknownOrigin then Unknown else Executed(statuses)
      case ProbeExposed(p, _, _, statuses, supersedes) =>
        if supersedes.None? || !LinksTo(id, supersedes.value, m) then Unknown
        else
          assert m.Keys - (visiting + {id}) < m.Keys - visiting by {
            assert id in m.Keys - visiting;
          }
          CardinalityShrinks(m.Keys - (visiting + {id}), m.Keys - visiting);
          var before := Resolve(supersedes.value, m, Some(p), visiting + {id});
          if before.Failed? then Failed
          else if before.Good? && Displayed(statuses).Good? then Good
          else Unknown
  }

  lemma CardinalityShrinks(a: set<nat>, b: set<nat>)
    requires a < b
    ensures |a| < |b|
  {
    assert b == a + (b - a);
    assert |b - a| > 0;
  }

  // -------------------------------------------------------------- exactness

  /** A same-probe chain of distinct exposures down to an observed root. */
  predicate IsChain(chain: seq<nat>, m: EventMap, probe: Option<nat>) {
    && |chain| > 0
    && (forall i, j :: 0 <= i < j < |chain| ==> chain[i] != chain[j])
    && chain[0] in m && IsObservation(m[chain[0]]) && Expected(chain[0], m, probe)
    && (forall i :: 0 <= i < |chain| - 1 ==> LinksTo(chain[i], chain[i + 1], m))
    && var root := chain[|chain| - 1];
    root in m && m[root].ProbeObserved?
  }

  predicate RootIs(chain: seq<nat>, m: EventMap, w: Worth)
    requires |chain| > 0 && chain[|chain| - 1] in m && m[chain[|chain| - 1]].ProbeObserved?
  {
    var root := m[chain[|chain| - 1]];
    !root.unknownOrigin && Executed(root.statuses) == w
  }

  predicate ShowsGood(id: nat, m: EventMap) {
    id in m && m[id].ProbeExposed? && Displayed(m[id].statuses).Good?
  }

  predicate DisplaysGood(chain: seq<nat>, m: EventMap) {
    forall i :: 0 <= i < |chain| - 1 ==> ShowsGood(chain[i], m)
  }

  ghost predicate Avoids(chain: seq<nat>, visiting: set<nat>) {
    forall i :: 0 <= i < |chain| ==> chain[i] !in visiting
  }

  /** A chain that proves success. */
  ghost predicate ProvesGood(chain: seq<nat>, id: nat, m: EventMap, probe: Option<nat>, visiting: set<nat>) {
    IsChain(chain, m, probe) && chain[0] == id && Avoids(chain, visiting) && RootIs(chain, m, Good)
      && DisplaysGood(chain, m)
  }

  /** A chain that proves failure, whatever was displayed later. */
  ghost predicate ProvesFailed(chain: seq<nat>, id: nat, m: EventMap, probe: Option<nat>, visiting: set<nat>) {
    IsChain(chain, m, probe) && chain[0] == id && Avoids(chain, visiting) && RootIs(chain, m, Failed)
  }

  lemma ChainTail(chain: seq<nat>, id: nat, m: EventMap, probe: Option<nat>, visiting: set<nat>)
    requires IsChain(chain, m, probe) && |chain| > 1 && chain[0] == id && Avoids(chain, visiting)
    ensures m[id].ProbeExposed? && m[id].supersedes == Some(chain[1]) && LinksTo(id, chain[1], m)
    ensures IsChain(chain[1..], m, Some(m[id].probe)) && Avoids(chain[1..], visiting + {id})
    ensures forall w :: RootIs(chain[1..], m, w) == RootIs(chain, m, w)
    ensures DisplaysGood(chain, m) <==> ShowsGood(id, m) && DisplaysGood(chain[1..], m)
  {
    assert LinksTo(chain[0], chain[1], m);
    var tail := chain[1..];
    forall i | 0 <= i < |tail| - 1 ensures LinksTo(tail[i], tail[i + 1], m) {
      assert LinksTo(chain[i + 1], chain[i + 2], m);
    }
    if DisplaysGood(tail, m) && ShowsGood(id, m) {
      forall i | 0 <= i < |chain| - 1 ensures ShowsGood(chain[i], m) {
        if i > 0 {
          assert ShowsGood(tail[i - 1], m);
        }
      }
    }
    if DisplaysGood(chain, m) {
      forall i | 0 <= i < |tail| - 1 ensures ShowsGood(tail[i], m) {
        assert ShowsGood(chain[i + 1], m);
      }
    }
  }

  lemma ChainExtends(tail: seq<nat>, id: nat, m: EventMap, probe: Option<nat>, visiting: set<nat>)
    requires id !in visiting && id in m && IsObservation(m[id]) && Expected(id, m, probe)
    requires |tail| > 0 && LinksTo(id, tail[0], m)
    requires IsChain(tail, m, Some(m[id].probe)) && Avoids(tail, visiting + {id})
    ensures IsChain([id] + tail, m, probe) && Avoids([id] + tail, visiting)
  {
    var chain := [id] + tail;
    forall i | 0 <= i < |chain| - 1 ensures LinksTo(chain[i], chain[i + 1], m) {
      if i > 0 {
        assert LinksTo(tail[i - 1], tail[i], m);
      }
    }
  }

  /** The resolver never answers without a chain that justifies the answer ... */
  lemma {:induction false} ResolveSound(id: nat, m: EventMap, probe: Option<nat>, visiting: set<nat>)
    returns (chain: seq<nat>)
    ensures Resolve(id, m, probe, visiting).Good? ==> ProvesGood(chain, id, m, probe, visiting)
    ensures Resolve(id, m, probe, visiting).Failed? ==> ProvesFailed(chain, id, m, probe, visiting)
    decreases |m.Keys - visiting|
  {
    chain := [id];
    if !Resolve(id, m, probe, visiting).Unknown? && m[id].ProbeExposed? {
      var next := m[id].supersedes.value;
      CardinalityShrinks(m.Keys - (visiting + {id}), m.Keys - visiting);
      var tail := ResolveSound(next, m, Some(m[id].probe), visiting + {id});
      ChainExtends(tail, id, m, probe, visiting);
      chain := [id] + tail;
      assert chain[1..] == tail;
      ChainTail(chain, id, m, probe, visiting);
    }
  }

  /** ... and answers whenever there is one. */
  lemma {:induction false} ResolveComplete(chain: seq<nat>, id: nat, m: EventMap, probe: Option<nat>,
                                           visiting: set<nat>)
    ensures ProvesGood(chain, id, m, probe, visiting) ==> Resolve(id, m, probe, visiting).Good?
    ensures ProvesFailed(chain, id, m, probe, visiting) ==> Resolve(id, m, probe, visiting).Failed?
    decreases |chain|
  {
    if (ProvesGood(chain, id, m, probe, visiting) || ProvesFailed(chain, id, m, probe, visiting)) && |chain| > 1 {
      ChainTail(chain, id, m, probe, visiting);
      ResolveComplete(chain[1..], chain[1], m, Some(m[id].probe), visiting + {id});
    }
  }

  /** Exactness: ok if and only if an acyclic same-probe chain of ok displays
      ends in an ok observation of known origin, and failed if and only if such
      a chain reaches a failed observation, whatever the displays say. */
  lemma {:induction false} ResolveExact(id: nat, m: EventMap, probe: Option<nat>)
    ensures Resolve(id, m, probe, {}).Good? <==> exists chain :: ProvesGood(chain, id, m, probe, {})
    ensures Resolve(id, m, probe, {}).Failed? <==> exists chain :: ProvesFailed(chain, id, m, probe, {})
  {
    var justification := ResolveSound(id, m, probe, {});
    forall chain | ProvesGood(chain, id, m, probe, {}) ensures Resolve(id, m, probe, {}).Good? {
      ResolveComplete(chain, id, m, probe, {});
    }
    forall chain | ProvesFailed(chain, id, m, probe, {}) ensures Resolve(id, m, probe, {}).Failed? {
      ResolveComplete(chain, id, m, probe, {});
    }
  }
}
