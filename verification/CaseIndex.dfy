/** The rebuildable session index: a cache over the case files that must answer
    as a full scan would. */
module CaseIndexes {
  import opened Wrappers
  import opened Records
  import opened Characters

  /** One case directory as the index sees it: the signature of the case file
      (None when it cannot be taken), what reading it gives (None when it is
      unreadable or belongs elsewhere), and the sessions its Timeline names
      (None when that cannot be read either). */
  datatype CaseDir = CaseDir(signature: Option<nat>, content: Option<Case>, sessions: Option<set<Session>>)

  type Scan = map<CaseId, CaseDir>

  datatype Indexed =
    | Healthy(signature: Option<nat>, record: Case)
    | Damaged(signature: Option<nat>, owners: set<Session>)

  function Get(entries: map<CaseId, Indexed>, id: CaseId): Option<Indexed> {
    if id in entries then Some(entries[id]) else None
  }

  /** The sessions that must hear of it when a file known by `prev` is damaged. */
  function Owners(prev: Option<Indexed>): set<Session> {
    match prev
    case None => {}
    case Some(Healthy(_, c)) => if c.session != "" then {c.session} else {}
    case Some(Damaged(_, owners)) => owners
  }

  function Sessions(dir: CaseDir): set<Session> {
    if dir.sessions.Some? then dir.sessions.value else {}
  }

  predicate Unchanged(prev: Option<Indexed>, dir: CaseDir) {
    dir.signature.Some? && prev.Some? && prev.value.signature == dir.signature
  }

  function Parsed(prev: Option<Indexed>, dir: CaseDir): Indexed {
    match dir.content
    case Some(c) => Healthy(dir.signature, c)
    case None => Damaged(dir.signature, Owners(prev) + Sessions(dir))
  }

  function Updated(prev: Option<Indexed>, dir: CaseDir): Indexed {
    if Unchanged(prev, dir) then prev.value else Parsed(prev, dir)
  }

  function UpdatedAll(entries: map<CaseId, Indexed>, dirs: Scan): map<CaseId, Indexed> {
    map id | id in dirs :: Updated(Get(entries, id), dirs[id])
  }

  // ------------------------------------------------------------- derived maps

  predicate Bound(e: Indexed, s: Session) {
    e.Healthy? && e.record.session == s
  }

  ghost predicate Groups(entries: map<CaseId, Indexed>, ids: set<CaseId>, bySession: map<Session, set<CaseId>>) {
    && (forall s :: s in bySession ==> bySession[s] == set id | id in ids && id in entries && Bound(entries[id], s))
    && (forall id :: id in ids && id in entries && entries[id].Healthy? ==> entries[id].record.session in bySession)
  }

  ghost predicate Damages(entries: map<CaseId, Indexed>, ids: set<CaseId>, errors: map<CaseId, set<Session>>) {
    && (forall id :: id in errors <==> id in ids && id in entries && entries[id].Damaged?)
    && (forall id :: id in errors ==> errors[id] == entries[id].owners)
  }

  /** The entries of files that are still there. */
  function Present(entries: map<CaseId, Indexed>, dirs: Scan): map<CaseId, Indexed> {
    map id | id in entries && id in dirs :: entries[id]
  }

  lemma PresentUpdates(entries: map<CaseId, Indexed>, dirs: Scan)
    ensures UpdatedAll(Present(entries, dirs), dirs) == UpdatedAll(entries, dirs)
    ensures dirs.Keys == entries.Keys ==> Present(entries, dirs) == entries
    ensures UpdatedAll(entries, dirs).Keys == dirs.Keys
  {
  }

  lemma {:induction false} IndexNext(scans: seq<Scan>, dirs: Scan)
    ensures IndexAfter(scans + [dirs]) == UpdatedAll(IndexAfter(scans), dirs)
  {
    assert (scans + [dirs])[..|scans|] == scans;
  }

  lemma GroupsGrow(entries: map<CaseId, Indexed>, ids: set<CaseId>, bySession: map<Session, set<CaseId>>, id: CaseId)
    requires Groups(entries, ids, bySession) && id in entries && id !in ids
    ensures entries[id].Damaged? ==> Groups(entries, ids + {id}, bySession)
    ensures entries[id].Healthy? ==>
              var s := entries[id].record.session;
              Groups(entries, ids + {id}, bySession[s := (if s in bySession then bySession[s] else {}) + {id}])
  {
    if entries[id].Healthy? {
      var s := entries[id].record.session;
      if s !in bySession {
        assert (set other | other in ids && other in entries && Bound(entries[other], s)) == {};
      }
    }
  }

  lemma DamagesGrow(entries: map<CaseId, Indexed>, ids: set<CaseId>, errors: map<CaseId, set<Session>>, id: CaseId)
    requires Damages(entries, ids, errors) && id in entries
    ensures entries[id].Healthy? ==> Damages(entries, ids + {id}, errors)
    ensures entries[id].Damaged? ==> Damages(entries, ids + {id}, errors[id := entries[id].owners])
  {
  }

  class CaseIndex {
    var entries: map<CaseId, Indexed>
    var bySession: map<Session, set<CaseId>>
    var errors: map<CaseId, set<Session>>
    ghost var scans: seq<Scan>

    ghost predicate Valid()
      reads this
    {
      entries == IndexAfter(scans) && Groups(entries, entries.Keys, bySession) && Damages(entries, entries.Keys, errors)
    }

    constructor ()
      ensures Valid() && scans == []
    {
      entries, bySession, errors := map[], map[], map[];
      scans := [];
    }

    /** Parse only the files whose signature changed, then rebuild the derived
        maps if anything did. */
    method Refresh(dirs: Scan)
      requires Valid()
      modifies this
      ensures Valid() && entries == UpdatedAll(old(entries), dirs) && entries.Keys == dirs.Keys
      ensures scans == old(scans) + [dirs]
    {
      hide Groups, Damages, UpdatedAll, IndexAfter;
      ghost var before := entries;
      var gone := dirs.Keys != entries.Keys;
      entries := Present(entries, dirs);
      PresentUpdates(before, dirs);
      IndexNext(scans, dirs);
      var changed := Rescan(dirs);
      scans := scans + [dirs];
      if gone || changed {
        Rebuild();
      }
    }

    /** One look at every case file. */
    method Rescan(dirs: Scan) returns (changed: bool)
      requires entries.Keys <= dirs.Keys
      modifies this`entries
      ensures entries.Keys == dirs.Keys
      ensures entries == UpdatedAll(old(entries), dirs)
      ensures !changed ==> entries == old(entries)
    {
      changed := false;
      ghost var before := entries;
      var todo := dirs.Keys;
      while todo != {}
        invariant todo <= dirs.Keys && entries.Keys <= dirs.Keys
        invariant forall id :: id in dirs && id !in todo ==>
                    id in entries && entries[id] == Updated(Get(before, id), dirs[id])
        invariant forall id :: id in todo ==> Get(entries, id) == Get(before, id)
        invariant !changed ==> entries == before
        decreases todo
      {
        hide Parsed, Unchanged;
        var id :| id in todo;
        var previous := Get(entries, id);
        if !Unchanged(previous, dirs[id]) {
          changed := true;
          entries := entries[id := Parsed(previous, dirs[id])];
        } else {
          KnownBefore(previous, dirs[id]);
        }
        todo := todo - {id};
      }
      assert forall id :: id in dirs ==> id in entries;
    }

    method Rebuild()
      requires entries == IndexAfter(scans)
      modifies this`bySession, this`errors
      ensures Valid()
    {
      hide IndexAfter;
      bySession, errors := map[], map[];
      var todo := entries.Keys;
      while todo != {}
        invariant todo <= entries.Keys
        invariant Groups(entries, entries.Keys - todo, bySession) && Damages(entries, entries.Keys - todo, errors)
        decreases todo
      {
        hide Groups, Damages;
        var id :| id in todo;
        ghost var done := entries.Keys - todo;
        GroupsGrow(entries, done, bySession, id);
        DamagesGrow(entries, done, errors, id);
        match entries[id] {
          case Damaged(_, owners) => errors := errors[id := owners];
          case Healthy(_, c) =>
            var ids := if c.session in bySession then bySession[c.session] else {};
            bySession := bySession[c.session := ids + {id}];
        }
        todo := todo - {id};
        assert entries.Keys - todo == done + {id};
      }
      assert entries.Keys - todo == entries.Keys;
    }

    /** The readable cases of a session, or of all sessions, by id. It raises when
        an unreadable case is attributed to the session asked about. Whatever has
        become of the files meanwhile, the answer is that of a full rescan. */
    method Select(dirs: Scan, session: Option<Session>) returns (r: Result<seq<Case>>)
      requires Valid()
      modifies this
      ensures Valid() && scans == old(scans) + [dirs]
      ensures Honest(scans) ==> AnswersAsRescan(scans, session, r)
    {
      hide Groups, Damages, UpdatedAll, Honest, AnswersAsRescan, IndexAfter;
      Refresh(dirs);
      match session {
        case Some(s) =>
          var damaged := Damaged(s);
          if damaged {
            r := Err(IntegrityFailure);
          } else {
            var order := SortIds(Owned(s));
            r := Ok(Listing(entries, order));
          }
        case None =>
          var order := SortIds(set id | id in entries && entries[id].Healthy?);
          r := Ok(Listing(entries, order));
      }
      if Honest(scans) {
        SelectIsRescan(scans, session, r);
      }
    }

    /** Is a damaged case attributed to the session? */
    method Damaged(session: Session) returns (damaged: bool)
      requires Valid()
      ensures damaged <==> exists id :: id in entries && entries[id].Damaged? && session in entries[id].owners
    {
      hide IndexAfter;
      damaged := exists id :: id in errors && session in errors[id];
    }

    /** The readable cases of a session, from the derived map. */
    function Owned(session: Session): (ids: set<CaseId>)
      requires Valid()
      reads this
      ensures ids == set id | id in entries && Bound(entries[id], session)
    {
      if session in bySession then bySession[session] else {}
    }
  }

  // -------------------------------------------------------------------- order

  ghost predicate InOrder(order: seq<CaseId>) {
    forall i, j :: 0 <= i < j < |order| ==> Before(order[i], order[j])
  }

  predicate Least(id: CaseId, ids: set<CaseId>) {
    id in ids && forall other :: other in ids ==> other == id || Before(id, other)
  }

  lemma {:induction false} LeastExists(ids: set<CaseId>)
    requires ids != {}
    ensures exists id :: Least(id, ids)
    decreases |ids|
  {
    var some :| some in ids;
    var rest := ids - {some};
    assert forall other :: other in ids ==> other == some || other in rest;
    if rest == {} {
      assert Least(some, ids);
    } else {
      LeastExists(rest);
      var least :| Least(least, rest);
      BeforeTotal(some, least);
      forall other | other in rest && other != least && Before(some, least) ensures Before(some, other) {
        BeforeTransitive(some, least, other);
      }
      assert Least(if Before(some, least) then some else least, ids);
    }
  }

  method SortIds(ids: set<CaseId>) returns (order: seq<CaseId>)
    ensures InOrder(order) && forall id :: id in order <==> id in ids
  {
    order := [];
    var todo := ids;
    while todo != {}
      invariant InOrder(order) && todo <= ids
      invariant forall id :: id in order <==> id in ids && id !in todo
      invariant forall i, id :: 0 <= i < |order| && id in todo ==> Before(order[i], id)
      decreases todo
    {
      LeastExists(todo);
      var least :| Least(least, todo);
      order := order + [least];
      todo := todo - {least};
    }
  }

  /** The records of the healthy cases among `order`. */
  function Listing(entries: map<CaseId, Indexed>, order: seq<CaseId>): seq<Case>
    requires forall id :: id in order ==> id in entries && entries[id].Healthy?
  {
    seq(|order|, i requires 0 <= i < |order| => entries[order[i]].record)
  }

  lemma KnownBefore(prev: Option<Indexed>, dir: CaseDir)
    requires Unchanged(prev, dir)
    ensures prev.Some?
  {
  }

  // ------------------------------------------------ agreement with a full scan

  /** Every scan the index has been refreshed with, oldest first. */
  function IndexAfter(scans: seq<Scan>): map<CaseId, Indexed> {
    if scans == [] then map[] else UpdatedAll(IndexAfter(scans[..|scans| - 1]), scans[|scans| - 1])
  }

  /** A case file that is rewritten, replaced or damaged never keeps its
      signature while the index watches it. */
  ghost predicate Honest(scans: seq<Scan>) {
    forall i :: 1 <= i < |scans| ==> HonestAt(scans, i)
  }

  ghost predicate HonestAt(scans: seq<Scan>, i: nat)
    requires 1 <= i < |scans|
  {
    forall id :: id in scans[i] && id in scans[i - 1] ==> HonestPair(scans[i - 1][id], scans[i][id])
  }

  lemma HonestPrefix(scans: seq<Scan>)
    requires Honest(scans) && |scans| > 1
    ensures Honest(scans[..|scans| - 1]) && HonestAt(scans, |scans| - 1)
  {
    var rest := scans[..|scans| - 1];
    forall i | 1 <= i < |rest| ensures HonestAt(rest, i) {
      assert HonestAt(scans, i);
    }
  }

  predicate HonestPair(a: CaseDir, b: CaseDir) {
    a.signature.Some? && a.signature == b.signature ==> a.content == b.content
  }

  predicate Mirrors(e: Indexed, dir: CaseDir) {
    && e.signature == dir.signature
    && (e.Healthy? <==> dir.content.Some?)
    && (e.Healthy? ==> e.record == dir.content.value)
  }

  /** After any sequence of additions, rewrites, removals and damage, the index
      holds for every file what reading it now would give. */
  lemma {:induction false} IndexMirrorsDisk(scans: seq<Scan>, id: CaseId)
    requires Honest(scans) && scans != []
    ensures id in IndexAfter(scans) <==> id in scans[|scans| - 1]
    ensures id in IndexAfter(scans) ==> Mirrors(IndexAfter(scans)[id], scans[|scans| - 1][id])
  {
    var n := |scans| - 1;
    var rest := scans[..n];
    if n > 0 {
      HonestPrefix(scans);
      IndexMirrorsDisk(rest, id);
    }
  }

  /** The file was parsed again at scan `k`. */
  predicate ParsedAt(scans: seq<Scan>, id: CaseId, k: nat)
    requires k < |scans|
  {
    id in scans[k] && !Unchanged(Get(IndexAfter(scans[..k]), id), scans[k][id])
  }

  /** The file has been there and unreadable from scan `i` on. */
  ghost predicate BadSince(scans: seq<Scan>, id: CaseId, i: nat) {
    i < |scans| && forall k :: i <= k < |scans| ==> id in scans[k] && scans[k][id].content.None?
  }

  predicate GoodAt(scans: seq<Scan>, id: CaseId, s: Session, k: nat)
    requires k < |scans|
  {
    id in scans[k] && scans[k][id].content.Some? && scans[k][id].content.value.session == s != ""
  }

  /** Why a session has to hear of a damaged file: it owned the file when that was
      last readable, or the Timeline named it when the damage was looked at. */
  ghost predicate Concerned(scans: seq<Scan>, id: CaseId, s: Session) {
    (exists k: nat :: OwnedLast(scans, id, s, k)) || (exists k: nat :: NamedWhenSeen(scans, id, s, k))
  }

  /** What a look back at the scans before the last one tells. */
  lemma LookBack(scans: seq<Scan>, id: CaseId, s: Session, k: nat)
    requires k < |scans| - 1 && BadSince(scans, id, |scans| - 1)
    ensures var rest := scans[..|scans| - 1];
            && (BadSince(scans, id, k) <==> BadSince(rest, id, k))
            && (GoodAt(scans, id, s, k) <==> GoodAt(rest, id, s, k))
            && (ParsedAt(scans, id, k) <==> ParsedAt(rest, id, k))
            && scans[k] == rest[k]
  {
    assert scans[..k] == scans[..|scans| - 1][..k];
  }

  ghost predicate OwnedLast(scans: seq<Scan>, id: CaseId, s: Session, k: nat) {
    0 <= k < |scans| - 1 && BadSince(scans, id, k + 1) && GoodAt(scans, id, s, k)
  }

  ghost predicate NamedWhenSeen(scans: seq<Scan>, id: CaseId, s: Session, k: nat) {
    0 <= k < |scans| && BadSince(scans, id, k) && ParsedAt(scans, id, k) && s in Sessions(scans[k][id])
  }

  lemma ConcernedBefore(scans: seq<Scan>, id: CaseId, s: Session)
    requires |scans| > 1 && BadSince(scans, id, |scans| - 2)
    ensures Concerned(scans, id, s) <==>
            Concerned(scans[..|scans| - 1], id, s)
              || (ParsedAt(scans, id, |scans| - 1) && s in Sessions(scans[|scans| - 1][id]))
  {
    var n := |scans| - 1;
    var rest := scans[..n];
    assert BadSince(scans, id, n) && !GoodAt(scans, id, s, n - 1);
    hide BadSince, GoodAt, ParsedAt;
    forall k | 0 <= k < n ensures NamedWhenSeen(scans, id, s, k) <==> NamedWhenSeen(rest, id, s, k) {
      LookBack(scans, id, s, k);
    }
    forall k | 0 <= k < n - 1 ensures OwnedLast(scans, id, s, k) <==> OwnedLast(rest, id, s, k) {
      LookBack(scans, id, s, k);
      LookBack(scans, id, s, k + 1);
    }
    assert NamedWhenSeen(scans, id, s, n) <==> ParsedAt(scans, id, n) && s in Sessions(scans[n][id]);
    if Concerned(scans, id, s) {
      if k: nat :| OwnedLast(scans, id, s, k) {
        assert k != n - 1 && OwnedLast(rest, id, s, k);
      } else {
        var k: nat :| NamedWhenSeen(scans, id, s, k);
        assert k == n || NamedWhenSeen(rest, id, s, k);
      }
    }
    if Concerned(rest, id, s) {
      if k: nat :| OwnedLast(rest, id, s, k) {
        assert OwnedLast(scans, id, s, k);
      } else {
        var k: nat :| NamedWhenSeen(rest, id, s, k);
        assert NamedWhenSeen(scans, id, s, k);
      }
    }
  }

  /** A damaged file is attributed to exactly the sessions it concerns; so the
      sessions it does not concern are served as if it were not there. */
  lemma {:induction false} AttributionExact(scans: seq<Scan>, id: CaseId, s: Session)
    requires Honest(scans) && scans != [] && id in scans[|scans| - 1] && scans[|scans| - 1][id].content.None?
    ensures id in IndexAfter(scans) && IndexAfter(scans)[id].Damaged?
    ensures s in IndexAfter(scans)[id].owners <==> Concerned(scans, id, s)
  {
    hide Concerned;
    IndexMirrorsDisk(scans, id);
    var n := |scans| - 1;
    var rest := scans[..n];
    assert BadSince(scans, id, n);
    if n > 0 {
      HonestPrefix(scans);
      IndexMirrorsDisk(rest, id);
    }
    if n > 0 && id in scans[n - 1] && scans[n - 1][id].content.None? {
      AttributionExact(rest, id, s);
      ConcernedBefore(scans, id, s);
    } else {
      FreshDamage(scans, id, s);
    }
  }

  lemma FreshDamage(scans: seq<Scan>, id: CaseId, s: Session)
    requires scans != [] && BadSince(scans, id, |scans| - 1)
    requires |scans| > 1 ==> !BadSince(scans, id, |scans| - 2)
    requires ParsedAt(scans, id, |scans| - 1)
    ensures Concerned(scans, id, s) <==>
            (|scans| > 1 && GoodAt(scans, id, s, |scans| - 2)) || s in Sessions(scans[|scans| - 1][id])
  {
    var n := |scans| - 1;
    forall k | 0 <= k < n ensures !BadSince(scans, id, k) {
    }
    hide ParsedAt, GoodAt, BadSince;
    if n > 0 && GoodAt(scans, id, s, n - 1) {
      assert OwnedLast(scans, id, s, n - 1);
    }
    if s in Sessions(scans[n][id]) {
      assert NamedWhenSeen(scans, id, s, n);
    }
  }

  // ------------------------------------------------------------ as a rescan

  /** What a scan of all files as they now are would list. */
  ghost predicate Lists(dirs: Scan, session: Option<Session>, order: seq<CaseId>) {
    InOrder(order) && forall id :: id in order <==> Wanted(dirs, session, id)
  }

  predicate Wanted(dirs: Scan, session: Option<Session>, id: CaseId) {
    id in dirs && dirs[id].content.Some? && (session.Some? ==> dirs[id].content.value.session == session.value)
  }

  /** The answer to a question is what reading every file now gives, in order of
      case id, unless a file that cannot be read concerns the session asked about. */
  ghost predicate AnswersAsRescan(scans: seq<Scan>, session: Option<Session>, r: Result<seq<Case>>)
    requires scans != []
  {
    var dirs := scans[|scans| - 1];
    && (r.Err? <==> session.Some?
                    && exists id :: id in dirs && dirs[id].content.None? && Concerned(scans, id, session.value))
    && (r.Ok? ==> exists order :: Lists(dirs, session, order) && |r.value| == |order|
                                  && forall i :: 0 <= i < |order| ==> Wanted(dirs, session, order[i])
                                                                      && r.value[i] == dirs[order[i]].content.value)
  }

  /** What the index answers from its entries. */
  ghost predicate AnswersFrom(entries: map<CaseId, Indexed>, session: Option<Session>, r: Result<seq<Case>>) {
    && (r.Err? <==> session.Some?
                    && exists id :: id in entries && entries[id].Damaged? && session.value in entries[id].owners)
    && (r.Ok? ==> exists order :: InOrder(order) && (forall id :: id in order <==> Picked(entries, session, id))
                                  && r.value == Listing(entries, order))
  }

  predicate Picked(entries: map<CaseId, Indexed>, session: Option<Session>, id: CaseId) {
    id in entries && (if session.Some? then Bound(entries[id], session.value) else entries[id].Healthy?)
  }

  /** After any additions, rewrites, removals and damage, an answer from the index
      is the answer of a full rescan. */
  lemma {:induction false} SelectIsRescan(scans: seq<Scan>, session: Option<Session>, r: Result<seq<Case>>)
    requires Honest(scans) && scans != [] && AnswersFrom(IndexAfter(scans), session, r)
    ensures AnswersAsRescan(scans, session, r)
  {
    hide Honest, IndexAfter, Concerned, InOrder;
    var dirs, entries := scans[|scans| - 1], IndexAfter(scans);
    forall id ensures (id in entries <==> id in dirs) && (id in entries ==> Mirrors(entries[id], dirs[id])) {
      IndexMirrorsDisk(scans, id);
    }
    if session.Some? {
      forall id | id in dirs && dirs[id].content.None?
        ensures session.value in entries[id].owners <==> Concerned(scans, id, session.value)
      {
        AttributionExact(scans, id, session.value);
      }
    }
    if r.Ok? {
      var order :| InOrder(order) && (forall id :: id in order <==> Picked(entries, session, id))
                   && r.value == Listing(entries, order);
      forall id ensures Picked(entries, session, id) <==> Wanted(dirs, session, id) {
      }
      assert Lists(dirs, session, order);
      forall i | 0 <= i < |order|
        ensures Wanted(dirs, session, order[i]) && r.value[i] == dirs[order[i]].content.value
      {
        assert order[i] in order && Picked(entries, session, order[i]);
      }
    }
  }
}
