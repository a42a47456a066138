/** Hash-chained Timelines and the case snapshots bound to their tips. */
module Timeline {
  import opened Wrappers
  import opened Records

  /** Events carry consecutive identifiers from 1, each names the hash of its
      predecessor, and each stored hash is the hash of its body. */
  ghost predicate Chained(h: Hasher, events: seq<Event>) {
    forall i :: 0 <= i < |events| ==> Linked(h, events, i)
  }

  predicate Linked(h: Hasher, events: seq<Event>, i: nat)
    requires i < |events|
  {
    && events[i].body.id == i + 1
    && events[i].body.prevHash == (if i == 0 then ZERO_HASH else events[i - 1].hash)
    && events[i].hash == h.event(events[i].body)
  }

  /** The chain loop that verification, resume, commit and recovery share. */
  method VerifyChain(h: Hasher, events: seq<Event>) returns (valid: bool)
    ensures valid <==> Chained(h, events)
  {
    var expectedPrev := ZERO_HASH;
    for i := 0 to |events|
      invariant forall j :: 0 <= j < i ==> Linked(h, events, j)
      invariant expectedPrev == if i == 0 then ZERO_HASH else events[i - 1].hash
    {
      var event := events[i];
      if event.body.id != i + 1 || event.body.prevHash != expectedPrev || event.hash != h.event(event.body) {
        assert !Linked(h, events, i);
        return false;
      }
      expectedPrev := event.hash;
    }
    return true;
  }

  /** The snapshot names the tip, its seal is the digest of its own record, and
      the tip event carries that digest. */
  predicate Binds(h: Hasher, snapshot: Snapshot, events: seq<Event>) {
    && |events| > 0
    && snapshot.state.lastEvent == events[|events| - 1].body.id
    && snapshot.seal == h.state(snapshot.state)
    && events[|events| - 1].body.stateHash == Some(snapshot.seal)
  }

  // ------------------------------------------------------- preparing events

  function TipHash(events: seq<Event>): Digest {
    if events == [] then ZERO_HASH else events[|events| - 1].hash
  }

  function Seal(h: Hasher, body: Body): Event {
    Event(body, h.event(body))
  }

  function Draft(spec: Spec, id: nat, at: int, prevHash: Digest, stateHash: Option<Digest>): Body {
    Body(id, at, spec.entry, spec.session, spec.number, stateHash, prevHash)
  }

  /** The events that `specs` become after `previous`; only the last of them
      carries the digest of the new case record. */
  function Prepared(h: Hasher, previous: seq<Event>, specs: seq<Spec>, at: int, seal: Digest): (events: seq<Event>)
    ensures |events| == |specs|
    decreases |specs|
  {
    if specs == [] then []
    else
      var body := Draft(specs[0], |previous| + 1, at, TipHash(previous), if |specs| == 1 then Some(seal) else None);
      var first := Seal(h, body);
      [first] + Prepared(h, previous + [first], specs[1..], at, seal)
  }

  /** One turn of the preparing loop: what is still to come shrinks by one event. */
  lemma {:induction false} PreparedTurn(h: Hasher, previous: seq<Event>, done: seq<Event>, specs: seq<Spec>, at: int,
                                        seal: Digest, event: Event)
    requires specs != []
    requires event == Seal(h, Draft(specs[0], |previous + done| + 1, at, TipHash(previous + done),
                                    if |specs| == 1 then Some(seal) else None))
    ensures done + Prepared(h, previous + done, specs, at, seal)
         == (done + [event]) + Prepared(h, previous + (done + [event]), specs[1..], at, seal)
  {
    assert previous + done + [event] == previous + (done + [event]);
    var rest := Prepared(h, previous + (done + [event]), specs[1..], at, seal);
    assert done + ([event] + rest) == done + [event] + rest;
  }

  /** The source's loop over event specifications. */
  method PrepareEvents(h: Hasher, previous: seq<Event>, specs: seq<Spec>, at: int, seal: Digest)
    returns (events: seq<Event>)
    ensures events == Prepared(h, previous, specs, at, seal)
  {
    hide Prepared;
    var prevHash := TipHash(previous);
    events := [];
    assert previous + events == previous && specs[0..] == specs;
    for k := 0 to |specs|
      invariant |events| == k
      invariant prevHash == TipHash(previous + events)
      invariant events + Prepared(h, previous + events, specs[k..], at, seal) == Prepared(h, previous, specs, at, seal)
    {
      var stateHash := if k == |specs| - 1 then Some(seal) else None;
      var event := Seal(h, Draft(specs[k], |previous| + k + 1, at, prevHash, stateHash));
      assert specs[k..][1..] == specs[k + 1..];
      PreparedTurn(h, previous, events, specs[k..], at, seal, event);
      events := events + [event];
      prevHash := event.hash;
    }
    assert Prepared(h, previous + events, specs[|specs|..], at, seal) == [];
  }

  /** What each prepared event says, whatever the hash function. */
  lemma {:induction false} PreparedAt(h: Hasher, previous: seq<Event>, specs: seq<Spec>, at: int, seal: Digest, k: nat)
    requires k < |specs|
    ensures
      var body := Prepared(h, previous, specs, at, seal)[k].body;
      && body.id == |previous| + k + 1 && body.entry == specs[k].entry && body.session == specs[k].session
      && body.number == specs[k].number && body.at == at
      && body.stateHash == (if k == |specs| - 1 then Some(seal) else None)
    decreases |specs|
  {
    if k > 0 {
      var first := Prepared(h, previous, specs, at, seal)[0];
      PreparedAt(h, previous + [first], specs[1..], at, seal, k - 1);
    }
  }

  /** Appending prepared events to a chained Timeline keeps it chained. */
  lemma {:induction false} PreparedExtendsChain(h: Hasher, previous: seq<Event>, specs: seq<Spec>, at: int,
                                                seal: Digest)
    requires Chained(h, previous)
    ensures Chained(h, previous + Prepared(h, previous, specs, at, seal))
    decreases |specs|
  {
    if specs == [] {
      assert previous + [] == previous;
    } else {
      var first := Prepared(h, previous, specs, at, seal)[0];
      var longer := previous + [first];
      forall i | 0 <= i < |longer| ensures Linked(h, longer, i) {
        if i < |previous| {
          assert Linked(h, previous, i);
        }
      }
      PreparedExtendsChain(h, longer, specs[1..], at, seal);
      assert longer + Prepared(h, longer, specs[1..], at, seal)
          == previous + Prepared(h, previous, specs, at, seal);
    }
  }

  lemma PrefixChained(h: Hasher, events: seq<Event>, n: nat)
    requires n <= |events| && Chained(h, events)
    ensures Chained(h, events[..n])
  {
    forall i | 0 <= i < n ensures Linked(h, events[..n], i) {
      assert Linked(h, events, i);
    }
  }

  // ------------------------------------------------------- tamper evidence

  /** Two verifying Timelines of equal length and equal tip hash are the same
      Timeline: rewriting any earlier event changes the tip. */
  lemma {:induction false} SameTipSameTimeline(h: Hasher, a: seq<Event>, b: seq<Event>)
    requires CollisionFree(h)
    requires Chained(h, a) && Chained(h, b)
    requires |a| == |b| && TipHash(a) == TipHash(b)
    ensures a == b
    decreases |a|
  {
    if |a| > 0 {
      var n := |a| - 1;
      assert Linked(h, a, n) && Linked(h, b, n);
      assert a[n] == b[n];
      PrefixChained(h, a, n);
      PrefixChained(h, b, n);
      SameTipSameTimeline(h, a[..n], b[..n]);
      assert a == a[..n] + [a[n]] && b == b[..n] + [b[n]];
    }
  }

  /** Two case files bound to one tip are the same case file. */
  lemma SameTipSameSnapshot(h: Hasher, s: Snapshot, t: Snapshot, a: seq<Event>, b: seq<Event>)
    requires CollisionFree(h)
    requires Chained(h, a) && Chained(h, b)
    requires |a| == |b| && TipHash(a) == TipHash(b)
    requires Binds(h, s, a) && Binds(h, t, b)
    ensures s == t
  {
    SameTipSameTimeline(h, a, b);
  }

  /** A snapshot bound to one Timeline is bound to no proper prefix of it: the
      two ways in which recovery accepts a predecessor exclude each other. */
  lemma BindsOnePrefix(h: Hasher, s: Snapshot, events: seq<Event>, n: nat)
    requires Chained(h, events) && n < |events|
    requires Binds(h, s, events)
    ensures !Binds(h, s, events[..n])
  {
    assert Linked(h, events, |events| - 1);
    if n > 0 {
      assert Linked(h, events, n - 1);
    }
  }
}
