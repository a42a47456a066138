/** What may ground what: user and external authority never ground each other, and
    what an accepted model says about each of its claims. */
module Grounding {
  import opened Wrappers
  import opened Records
  import opened Staleness
  import opened Claims
  import opened Replay
  import opened Harness
  import opened Invariants
  import opened Past
  import opened Opening
  import opened Lifecycle

  // -------------------------------------------------------------- two groups

  /** The domains on which the world outside is the authority. */
  predicate External(d: Domain) {
    d.ExternalSource? || d.SystemState? || d.EmpiricalTest?
  }

  lemma TwoGroups(d: Domain)
    ensures External(d) <==> !IsUserDomain(d)
  {
  }

  /** What an event of evidence states it is an authority on. */
  function DomainOf(e: Entry): Option<Domain> {
    match e
    case InitialObservation(d) => Some(d.authority)
    case EvidenceRecorded(d) => Some(d.authority)
    case ProbeObserved(_, _, a, _, _) => a
    case ProbeExposed(_, _, a, _, _) => a
    case ProbeCompared(_, _, a, _, _, _, d) => if d.Some? then Some(d.value.authority) else a
    case _ => None
  }

  /** A claim stated on one group of domains, and evidence of the other. */
  predicate Crosses(a: Authority, d: Domain) {
    a.Stated? && External(a.domain) != External(d)
  }

  /** An event that states its domain has it in the table citations are checked against. */
  lemma DomainStands(events: seq<Event>, n: nat)
    requires Sequential(events) && 1 <= n <= |events|
    ensures var d := DomainOf(events[n - 1].body.entry);
            d.Some? ==> n in EventAuthorities(events) && EventAuthorities(events)[n] == d.value
  {
    AuthorityAt(events, ProbeAuthorities(events), n);
  }

  /** Where all evidence states its domain, the table holds nothing else. */
  lemma DomainStated(events: seq<Event>, n: nat)
    requires Sequential(events) && 1 <= n <= |events| && SourceAt(events[n - 1].body.entry)
    requires n in EventAuthorities(events)
    ensures DomainOf(events[n - 1].body.entry) == Some(EventAuthorities(events)[n])
  {
    AuthorityAt(events, ProbeAuthorities(events), n);
  }

  // --------------------------------------------------------------- refusals

  /** A model with one claim that cites across the groups is never accepted. */
  lemma CrossingRefused(m: Model, ctx: Context, c: Claim, r: Ref)
    requires c in Sections(m) && r in c.refs
    requires Cites(r, ctx).Some? && Cites(r, ctx).value in ctx.authorities
    requires Crosses(c.authority, ctx.authorities[Cites(r, ctx).value])
    ensures !AcceptsModel(m, ctx)
  {
    hide ClaimOk;
    if ClaimOk(c, ctx) {
      StaysInGroup(c, ctx, r);
    }
  }

  lemma StaysInGroup(c: Claim, ctx: Context, r: Ref)
    requires ClaimOk(c, ctx) && r in c.refs
    requires Cites(r, ctx).Some? && Cites(r, ctx).value in ctx.authorities
    ensures c.authority.Stated? && !Crosses(c.authority, ctx.authorities[Cites(r, ctx).value])
  {
    var i :| 0 <= i < |c.refs| && c.refs[i] == r;
    assert MappedRefs(c.refs, ctx)[i] == EventRef(Cites(r, ctx).value);
  }

  /** Opening a case refuses it, whatever else the model says ... */
  lemma OpeningRefusesCrossing(h: Hasher, w: World, id: CaseId, session: Session, m: Model, items: seq<Declared>,
                               at: int, c: Claim, k: nat)
    requires c in Sections(m) && k < |items| && Initial(items[k].ref) in c.refs
    requires Crosses(c.authority, items[k].evidence.authority)
    ensures Open(h, w, id, session, m, items, at).Err?
  {
    hide AcceptsModel, OpenTransaction;
    if DeclaredOk(items) {
      LabelOf(items, k);
      CrossingRefused(m, OpeningContext(items), c, Initial(items[k].ref));
    }
  }

  lemma {:induction false} LabelOf(items: seq<Declared>, k: nat)
    requires DeclaredOk(items) && k < |items|
    ensures items[k].ref in Labels(items) && Labels(items)[items[k].ref] == k + 1
  {
    hide LabelOk;
    var n := |items| - 1;
    if k < n {
      DeclaredPrefix(items, n);
      LabelOf(items[..n], k);
      assert items[..n][k] == items[k];
    }
  }

  /** ... and so does a revision, with the authority the claim states or, stating
      none, has from the item it revises. */
  lemma RevisionRefusesCrossing(c: Case, events: seq<Event>, session: Session, m: Model, addresses: set<nat>,
                                consequential: bool, x: Claim, n: nat, d: Domain)
    requires x in Sections(PreserveAuthorities(c.model, m)) && EventRef(n) in x.refs
    requires Sequential(events) && 1 <= n <= |events|
    requires DomainOf(events[n - 1].body.entry) == Some(d) && Crosses(x.authority, d)
    ensures PlanRevise(c, events, session, m, addresses, consequential).None?
  {
    hide AcceptsModel, NormalModel, EventAuthorities, Repairs, PreserveAuthorities;
    DomainStands(events, n);
    CrossingRefused(PreserveAuthorities(c.model, m), RevisionContext(events), x, EventRef(n));
  }

  /** Replay flags such a claim wherever it stands. */
  lemma CrossingFlagged(c: Case, events: seq<Event>, x: Claim, n: nat, d: Domain)
    requires x in Sections(c.model) && EventRef(n) in x.refs && Sequential(events) && 1 <= n <= |events|
    requires DomainOf(events[n - 1].body.entry) == Some(d) && Crosses(x.authority, d)
    ensures x.id in InvalidBindings(c.model, EventAuthorities(events))
    ensures !ModelClean(c.model, events) && !Usable(c, events)
  {
    hide EventAuthorities, Account;
    DomainStands(events, n);
  }

  /** A claim that cites states a domain, and all it cites has one of the same group. */
  predicate WellBound(c: Claim, authorities: map<nat, Domain>) {
    && !c.authority.BadAuthority? && (c.refs != [] ==> c.authority.Stated?)
    && forall r :: r in c.refs ==> r.EventRef? && r.id in authorities && !Crosses(c.authority, authorities[r.id])
  }

  /** Exactly which claims replay flags for their authority. */
  lemma MisboundExactly(m: Model, authorities: map<nat, Domain>, id: ItemId)
    ensures id in InvalidBindings(m, authorities) <==>
            exists c :: c in Sections(m) && c.id == id && !WellBound(c, authorities)
  {
  }

  /** Exactly when replay finds nothing wrong with a model: every citation is of an event
      on the Timeline, no claim is misbound, every dependency is on some item, and no
      two items share an id. */
  lemma CleanExactly(m: Model, events: seq<Event>)
    ensures ModelClean(m, events) <==>
            && (forall c, r :: c in Sections(m) && r in c.refs ==> r.EventRef? && 1 <= r.id <= |events|)
            && (forall c :: c in Sections(m) ==> WellBound(c, EventAuthorities(events)))
            && (forall step, d :: step in m.plan && d in step.dependsOn ==> Borne(m, d))
            && (forall i, j :: 0 <= i < j < |ItemIds(m)| ==> ItemIds(m)[i] != ItemIds(m)[j])
  {
    hide EventAuthorities, AuthorityOk, ItemIds;
    RefsExactly(m, |events|);
    BindingsExactly(m, EventAuthorities(events));
    DependenciesExactly(m);
    DuplicatesExactly(m);
    hide InvalidRefs, InvalidBindings, InvalidDependencies, DuplicateIds, WellBound, Borne;
  }

  lemma RefsExactly(m: Model, tip: nat)
    ensures InvalidRefs(m, tip) == {} <==>
            forall c, r :: c in Sections(m) && r in c.refs ==> r.EventRef? && 1 <= r.id <= tip
  {
    forall c, r | c in Sections(m) && r in c.refs && !(r.EventRef? && 1 <= r.id <= tip)
      ensures r in InvalidRefs(m, tip)
    {
    }
  }

  lemma BindingsExactly(m: Model, authorities: map<nat, Domain>)
    ensures InvalidBindings(m, authorities) == {} <==>
            forall c :: c in Sections(m) ==> WellBound(c, authorities)
  {
    forall c | c in Sections(m) && !AuthorityOk(c.authority, c.refs, authorities)
      ensures c.id in InvalidBindings(m, authorities)
    {
    }
    forall id ensures id !in InvalidBindings(m, authorities) <==>
              forall c :: c in Sections(m) && c.id == id ==> AuthorityOk(c.authority, c.refs, authorities)
    {
    }
  }

  /** Some claim or step bears the id. */
  predicate Borne(m: Model, d: ItemId) {
    (exists c :: c in Sections(m) && c.id == d) || exists step :: step in m.plan && step.id == d
  }

  lemma BearsId(m: Model, d: ItemId)
    ensures d in ItemIds(m) <==> Borne(m, d)
  {
    var a, b := ClaimIds(Sections(m)), StepIds(m.plan);
    assert forall i :: 0 <= i < |a| ==> a[i] == Sections(m)[i].id;
    assert forall i :: 0 <= i < |b| ==> b[i] == m.plan[i].id;
    if c :| c in Sections(m) && c.id == d {
      var i :| 0 <= i < |a| && Sections(m)[i] == c;
      assert a[i] in a;
    }
    if other :| other in m.plan && other.id == d {
      var i :| 0 <= i < |b| && m.plan[i] == other;
      assert b[i] in b;
    }
  }

  lemma DependenciesExactly(m: Model)
    ensures InvalidDependencies(m) == {} <==> forall step, d :: step in m.plan && d in step.dependsOn ==> Borne(m, d)
  {
    hide ItemIds, Borne;
    forall d ensures d in ItemIds(m) <==> Borne(m, d) {
      BearsId(m, d);
    }
    forall step, d | step in m.plan && d in step.dependsOn && d !in ItemIds(m) ensures d in InvalidDependencies(m) {
    }
  }

  lemma DuplicatesExactly(m: Model)
    ensures DuplicateIds(m) == {} <==> forall i, j :: 0 <= i < j < |ItemIds(m)| ==> ItemIds(m)[i] != ItemIds(m)[j]
  {
    hide ItemIds;
    var ids := ItemIds(m);
    forall i, j | 0 <= i < j < |ids| && ids[i] == ids[j] ensures ids[i] in DuplicateIds(m) {
    }
  }

  /** An event that states no domain has the one its probe was last committed with. */
  lemma {:induction false} CommittedDomain(events: seq<Event>, p: nat) returns (i: nat)
    ensures p !in ProbeAuthorities(events) ==> forall k :: 0 <= k < |events| ==> !CommitsTo(events[k].body.entry, p)
    ensures p in ProbeAuthorities(events) ==>
              && i < |events| && CommitsTo(events[i].body.entry, p)
              && events[i].body.entry.authority == Some(ProbeAuthorities(events)[p])
              && forall k :: i < k < |events| ==> !CommitsTo(events[k].body.entry, p)
  {
    i := 0;
    if events != [] {
      var n := |events| - 1;
      if CommitsTo(events[n].body.entry, p) {
        i := n;
      } else {
        i := CommittedDomain(events[..n], p);
        assert forall k :: 0 <= k < n ==> events[..n][k] == events[k];
      }
    }
  }

  predicate CommitsTo(e: Entry, p: nat) {
    e.ProbeCommitted? && e.probe == p != 0 && e.authority.Some?
  }

  lemma {:induction false} UnstatedDomain(events: seq<Event>, n: nat)
    requires Sequential(events) && 1 <= n <= |events| && DomainOf(events[n - 1].body.entry).None?
    requires ProbeOf(events[n - 1].body.entry) != 0
    ensures var p := ProbeOf(events[n - 1].body.entry);
            && (n in EventAuthorities(events) <==> p in ProbeAuthorities(events))
            && (n in EventAuthorities(events) ==> EventAuthorities(events)[n] == ProbeAuthorities(events)[p])
  {
    AuthorityAt(events, ProbeAuthorities(events), n);
  }

  // ------------------------------------------------------------------ labels

  /** A number as it is written, with no zero in front. */
  function Decimal(n: nat): (s: string)
    ensures s != "" && (n > 0 ==> '1' <= s[0] <= '9') && forall i :: 0 <= i < |s| ==> '0' <= s[i] <= '9'
  {
    if n < 10 then ['0' + n as char] else Decimal(n / 10) + ['0' + (n % 10) as char]
  }

  lemma {:induction false} OneDigit(c: char)
    requires '0' <= c <= '9'
    ensures Decimal((c - '0') as nat) == [c]
  {
  }

  lemma DecimalNext(tens: nat, digit: nat)
    requires tens >= 1 && digit < 10
    ensures Decimal(tens * 10 + digit) == Decimal(tens) + ['0' + digit as char]
  {
    assert (tens * 10 + digit) / 10 == tens && (tens * 10 + digit) % 10 == digit;
  }

  lemma {:induction false} Written(s: string) returns (n: nat)
    requires s != "" && '1' <= s[0] <= '9' && forall i :: 0 <= i < |s| ==> '0' <= s[i] <= '9'
    ensures n >= 1 && s == Decimal(n)
  {
    hide Decimal;
    var last := |s| - 1;
    var digit := (s[last] - '0') as nat;
    if last == 0 {
      n := digit;
      OneDigit(s[0]);
      assert s == [s[0]];
    } else {
      var tens := Written(s[..last]);
      n := tens * 10 + digit;
      DecimalNext(tens, digit);
      assert s == s[..last] + [s[last]];
    }
  }

  /** The labels of declared evidence are I1, I2, I3 and so on. */
  lemma LabelsAreNumbered(ref: string)
    ensures LabelOk(ref) <==> exists n: nat :: n >= 1 && ref == "I" + Decimal(n)
  {
    if LabelOk(ref) {
      var n := Written(ref[1..]);
      assert ref == "I" + ref[1..];
    }
    if n: nat :| n >= 1 && ref == "I" + Decimal(n) {
      assert forall i :: 1 <= i < |ref| ==> ref[i] == Decimal(n)[i - 1];
    }
  }

  // ------------------------------------------------ what comes of a claim

  /** The authority of a revised item: its own, or that of the item it revises. */
  predicate Inherits(prior: Model, id: ItemId, stated: Authority, kept: Authority) {
    && (!stated.NoAuthority? ==> kept == stated)
    && (stated.NoAuthority? ==>
          match ItemOf(prior, id)
          case Some(ClaimItem(c)) => kept == c.authority
          case Some(StepItem(s)) => kept == s.authority
          case None => kept.NoAuthority?)
  }

  /** A citation comes to name an event that has an authority: itself, or while a case
      is opened the event of the evidence declared under its label. */
  predicate ResolvesTo(x: Ref, y: Ref, ctx: Context) {
    && y.EventRef? && y.id in ctx.known && y.id in ctx.authorities
    && match ctx.labels
       case None => y == x
       case Some(labels) => x.Initial? && x.ref in labels && y.id == labels[x.ref]
  }

  /** What an accepted claim becomes: its text, its citations resolved, its standing
      as stated or else grounded exactly if it cites, and the domains it rests on. */
  ghost predicate BecomesClaim(x: Claim, y: Claim, ctx: Context) {
    && y.id == x.id && y.text == x.text && |y.refs| == |x.refs|
    && (forall i :: 0 <= i < |x.refs| ==> ResolvesTo(x.refs[i], y.refs[i], ctx))
    && (!x.standing.Unstated? ==> y.standing == x.standing)
    && (x.standing.Unstated? ==> y.standing == if x.refs == [] then Hypothesis else Grounded)
    && forall d :: d in y.domains <==> exists i :: 0 <= i < |y.refs| && y.refs[i].id in ctx.authorities
                                                   && ctx.authorities[y.refs[i].id] == d
  }

  lemma RefResolves(c: Claim, ctx: Context, i: nat)
    requires ClaimOk(c, ctx) && i < |c.refs|
    ensures ResolvesTo(c.refs[i], NormalClaim(c, ctx).refs[i], ctx)
  {
    var y := NormalClaim(c, ctx);
    assert RefOk(c.refs[i], ctx) && y.refs[i] == MappedRef(c.refs[i], ctx) && y.refs[i] in y.refs;
  }

  lemma AcceptedBecomes(c: Claim, ctx: Context)
    requires ClaimOk(c, ctx)
    ensures BecomesClaim(c, NormalClaim(c, ctx), ctx) && NormalClaim(c, ctx).authority == c.authority
  {
    var y := NormalClaim(c, ctx);
    forall i | 0 <= i < |c.refs| ensures ResolvesTo(c.refs[i], y.refs[i], ctx) {
      RefResolves(c, ctx, i);
    }
    forall d | d in y.domains
      ensures exists i :: 0 <= i < |y.refs| && y.refs[i].id in ctx.authorities && ctx.authorities[y.refs[i].id] == d
    {
      var r :| r in y.refs && r.EventRef? && r.id in ctx.authorities && ctx.authorities[r.id] == d;
      var i :| 0 <= i < |y.refs| && y.refs[i] == r;
    }
  }

  /** An accepted revision, item by item. */
  lemma RevisedItems(c: Case, events: seq<Event>, session: Session, m: Model, addresses: set<nat>,
                     consequential: bool, i: nat)
    requires PlanRevise(c, events, session, m, addresses, consequential).Some?
    ensures var next := PlanRevise(c, events, session, m, addresses, consequential).value.state.model;
            && next.decision == m.decision && next.stopping == m.stopping && next.topUnknown == m.topUnknown
            && next.other == m.other && |Sections(next)| == |Sections(m)| && |next.plan| == |m.plan|
            && |next.grounding| == |m.grounding| && |next.mechanisms| == |m.mechanisms|
            && (i < |Sections(m)| ==>
                  && BecomesClaim(Sections(m)[i], Sections(next)[i], RevisionContext(events))
                  && Inherits(c.model, Sections(m)[i].id, Sections(m)[i].authority, Sections(next)[i].authority))
            && (i < |m.plan| ==>
                  && next.plan[i] == m.plan[i].(authority := next.plan[i].authority)
                  && Inherits(c.model, m.plan[i].id, m.plan[i].authority, next.plan[i].authority))
  {
    hide Repairs, RevisionContext, NormalClaim, ClaimOk, KeptAuthority, BecomesClaim, Inherits;
    var ctx, kept := RevisionContext(events), PreserveAuthorities(c.model, m);
    var next := NormalModel(kept, ctx);
    assert PlanRevise(c, events, session, m, addresses, consequential).value.state.model == next;
    SameIds(kept, ctx);
    if i < |Sections(m)| {
      KeptSections(c.model, m, i);
      AcceptedBecomes(Sections(kept)[i], ctx);
      KeptInherits(c.model, Sections(m)[i].id, Sections(m)[i].authority);
      SameBut(Sections(m)[i], Sections(kept)[i], Sections(next)[i], ctx);
    }
    if i < |m.plan| {
      KeptInherits(c.model, m.plan[i].id, m.plan[i].authority);
    }
  }

  lemma KeptSections(prior: Model, m: Model, i: nat)
    requires i < |Sections(m)|
    ensures |Sections(PreserveAuthorities(prior, m))| == |Sections(m)|
    ensures Sections(PreserveAuthorities(prior, m))[i] == KeepClaim(prior, Sections(m)[i])
  {
    hide KeepClaim;
  }

  lemma KeptInherits(prior: Model, id: ItemId, a: Authority)
    ensures Inherits(prior, id, a, KeptAuthority(prior, id, a))
  {
  }

  lemma SameBut(x: Claim, kept: Claim, y: Claim, ctx: Context)
    requires BecomesClaim(kept, y, ctx) && kept == x.(authority := kept.authority)
    ensures BecomesClaim(x, y, ctx)
  {
  }
}
