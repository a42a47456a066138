/** Per-session numbering of disposition events, and the cache of the highest
    number each session has used. */
module Dispositions {
  import opened Wrappers
  import opened Records

  // ------------------------------------------------------------- allocation

  predicate Counted(r: Request) {
    IsDisposition(r.entry) && r.session != ""
  }

  function CountOf(requests: seq<Request>, s: Session): nat {
    if requests == [] then 0
    else
      var n := |requests| - 1;
      CountOf(requests[..n], s) + if Counted(requests[n]) && requests[n].session == s then 1 else 0
  }

  /** Each counted request takes the next number of its own session. */
  function Numbered(requests: seq<Request>, base: Session -> nat): (specs: seq<Spec>)
    ensures |specs| == |requests|
  {
    if requests == [] then []
    else
      var n := |requests| - 1;
      var r := requests[n];
      Numbered(requests[..n], base) +
      [Spec(r.entry, r.session,
            if Counted(r) then Some(base(r.session) + CountOf(requests[..n], r.session) + 1) else None)]
  }

  lemma {:induction false} NumberedAt(requests: seq<Request>, base: Session -> nat, k: nat)
    requires k < |requests|
    ensures Numbered(requests, base)[k] ==
            Spec(requests[k].entry, requests[k].session,
                 if Counted(requests[k])
                 then Some(base(requests[k].session) + CountOf(requests[..k], requests[k].session) + 1)
                 else None)
  {
    var n := |requests| - 1;
    if k < n {
      NumberedAt(requests[..n], base, k);
      assert requests[..n][..k] == requests[..k];
    }
  }

  /** Only the counters matter, not how they are stored. */
  lemma {:induction false} NumberedAgrees(requests: seq<Request>, a: Session -> nat, b: Session -> nat)
    requires forall s :: a(s) == b(s)
    ensures Numbered(requests, a) == Numbered(requests, b)
  {
    if requests != [] {
      NumberedAgrees(requests[..|requests| - 1], a, b);
    }
  }

  // ------------------------------------------------------------ high water

  function Mark(marks: map<Session, nat>, s: Session): nat {
    if s in marks then marks[s] else 0
  }

  /** The number an event uses up in session `s`; 0 when it uses none. */
  function NumberOf(e: Event, s: Session): nat {
    if s != "" && e.body.session == s && e.body.number.Some? then e.body.number.value else 0
  }

  function Max(a: nat, b: nat): nat {
    if a < b then b else a
  }

  function MaxNumber(events: seq<Event>, s: Session): nat {
    if events == [] then 0
    else
      var n := |events| - 1;
      Max(MaxNumber(events[..n], s), NumberOf(events[n], s))
  }

  lemma {:induction false} MaxNumberBounds(events: seq<Event>, s: Session)
    ensures forall i :: 0 <= i < |events| ==> NumberOf(events[i], s) <= MaxNumber(events, s)
    ensures MaxNumber(events, s) == 0 || exists i :: 0 <= i < |events| && NumberOf(events[i], s) == MaxNumber(events, s)
  {
    if events != [] {
      var n := |events| - 1;
      MaxNumberBounds(events[..n], s);
      forall i | 0 <= i < |events| ensures NumberOf(events[i], s) <= MaxNumber(events, s) {
        if i < n {
          assert events[..n][i] == events[i];
        }
      }
      if NumberOf(events[n], s) < MaxNumber(events, s) {
        var i :| 0 <= i < n && NumberOf(events[..n][i], s) == MaxNumber(events[..n], s);
        assert NumberOf(events[i], s) == MaxNumber(events, s);
      }
    }
  }

  /** `n` is the highest number session `s` has used in any Timeline. */
  ghost predicate HighWater(timelines: map<CaseId, seq<Event>>, s: Session, n: nat) {
    Covers(timelines, s, n) && Attains(timelines, s, n)
  }

  ghost predicate Covers(timelines: map<CaseId, seq<Event>>, s: Session, n: nat) {
    forall c, i :: c in timelines && 0 <= i < |timelines[c]| ==> NumberOf(timelines[c][i], s) <= n
  }

  ghost predicate Attains(timelines: map<CaseId, seq<Event>>, s: Session, n: nat) {
    n > 0 ==> exists c, i :: c in timelines && 0 <= i < |timelines[c]| && NumberOf(timelines[c][i], s) == n
  }

  lemma HighWaterUnique(timelines: map<CaseId, seq<Event>>, s: Session, m: nat, n: nat)
    requires HighWater(timelines, s, m) && HighWater(timelines, s, n)
    ensures m == n
  {
  }

  /** One Timeline folded into a table of marks. */
  method FoldEvents(marks: map<Session, nat>, events: seq<Event>) returns (folded: map<Session, nat>)
    ensures forall s :: Mark(folded, s) == Max(Mark(marks, s), MaxNumber(events, s))
  {
    folded := marks;
    for i := 0 to |events|
      invariant forall s :: Mark(folded, s) == Max(Mark(marks, s), MaxNumber(events[..i], s))
    {
      var body := events[i].body;
      assert events[..i + 1][..i] == events[..i];
      if body.session != "" && body.number.Some? && body.number.value >= 1 {
        if body.number.value > Mark(folded, body.session) {
          folded := folded[body.session := body.number.value];
        }
      }
    }
    assert events[..|events|] == events;
  }

  /** The high-water marks re-derived from every Timeline on disk. */
  method RebuildMarks(timelines: map<CaseId, seq<Event>>) returns (marks: map<Session, nat>)
    ensures forall s :: HighWater(timelines, s, Mark(marks, s))
  {
    marks := map[];
    var todo := timelines.Keys;
    ghost var done: map<CaseId, seq<Event>> := map[];
    while todo != {}
      invariant todo <= timelines.Keys
      invariant done == map c | c in timelines && c !in todo :: timelines[c]
      invariant forall s :: HighWater(done, s, Mark(marks, s))
      decreases todo
    {
      var c :| c in todo;
      ghost var before, seen := marks, done;
      marks := FoldEvents(marks, timelines[c]);
      todo := todo - {c};
      done := done[c := timelines[c]];
      forall s ensures HighWater(done, s, Mark(marks, s)) {
        HighWaterGrows(seen, c, timelines[c], s, Mark(before, s));
      }
    }
    assert done == timelines;
  }

  /** Adding or extending one Timeline raises a mark to that Timeline's own maximum, if at all. */
  lemma {:induction false} HighWaterGrows(timelines: map<CaseId, seq<Event>>, c: CaseId, events: seq<Event>,
                                          s: Session, n: nat)
    requires HighWater(timelines, s, n)
    requires c in timelines ==> timelines[c] <= events
    ensures HighWater(timelines[c := events], s, Max(n, MaxNumber(events, s)))
  {
    MaxNumberBounds(events, s);
    var grown := timelines[c := events];
    var m := Max(n, MaxNumber(events, s));
    forall d, i | d in grown && 0 <= i < |grown[d]| ensures NumberOf(grown[d][i], s) <= m {
    }
    if m > 0 {
      if n < MaxNumber(events, s) {
        var i :| 0 <= i < |events| && NumberOf(events[i], s) == MaxNumber(events, s);
        assert c in grown && NumberOf(grown[c][i], s) == m;
      } else {
        var d, i :| d in timelines && 0 <= i < |timelines[d]| && NumberOf(timelines[d][i], s) == n;
        assert d in grown && i < |grown[d]| && NumberOf(grown[d][i], s) == m;
      }
    }
  }
}
