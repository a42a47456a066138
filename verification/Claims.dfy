/** Model claims: what opening and revising a case accept, what replay checks,
    and why the one implies the other for the rest of the case's life. */
module Claims {
  import opened Wrappers
  import opened Records
  import opened Characters
  import opened Staleness

  // ---------------------------------------------------- evidence authority

  /** Probe authority from the commitment events; the newest commitment wins. */
  function ProbeAuthorities(events: seq<Event>): map<nat, Domain> {
    if events == [] then map[]
    else
      var rest := ProbeAuthorities(events[..|events| - 1]);
      var e := events[|events| - 1].body.entry;
      if e.ProbeCommitted? && e.probe != 0 && e.authority.Some? then rest[e.probe := e.authority.value] else rest
  }

  function FromProbe(own: Option<Domain>, probe: nat, probes: map<nat, Domain>): Option<Domain> {
    if own.Some? then own else if probe != 0 && probe in probes then Some(probes[probe]) else None
  }

  /** The authority of one evidence event; a comparison's descriptor comes first. */
  function AuthorityOf(e: Entry, probes: map<nat, Domain>): Option<Domain> {
    match e
    case InitialObservation(d) => Some(d.authority)
    case EvidenceRecorded(d) => Some(d.authority)
    case ProbeObserved(p, _, a, _, _) => FromProbe(a, p, probes)
    case ProbeExposed(p, _, a, _, _) => FromProbe(a, p, probes)
    case ProbeCompared(p, _, a, _, _, _, d) => if d.Some? then Some(d.value.authority) else FromProbe(a, p, probes)
    case _ => None
  }

  function AuthoritiesUnder(events: seq<Event>, probes: map<nat, Domain>): map<nat, Domain> {
    if events == [] then map[]
    else
      var rest := AuthoritiesUnder(events[..|events| - 1], probes);
      var e := events[|events| - 1].body;
      var a := AuthorityOf(e.entry, probes);
      if a.Some? then rest[e.id := a.value] else rest
  }

  function EventAuthorities(events: seq<Event>): map<nat, Domain> {
    AuthoritiesUnder(events, ProbeAuthorities(events))
  }

  method ComputeAuthorities(events: seq<Event>) returns (authorities: map<nat, Domain>)
    ensures authorities == EventAuthorities(events)
  {
    var probes: map<nat, Domain> := map[];
    for i := 0 to |events|
      invariant probes == ProbeAuthorities(events[..i])
    {
      assert events[..i + 1][..i] == events[..i];
      var entry := events[i].body.entry;
      if entry.ProbeCommitted? && entry.probe != 0 && entry.authority.Some? {
        probes := probes[entry.probe := entry.authority.value];
      }
    }
    assert events[..|events|] == events;
    authorities := map[];
    for i := 0 to |events|
      invariant authorities == AuthoritiesUnder(events[..i], probes)
    {
      assert events[..i + 1][..i] == events[..i];
      var authority := AuthorityOf(events[i].body.entry, probes);
      if authority.Some? {
        authorities := authorities[events[i].body.id := authority.value];
      }
    }
  }

  function ProbeOf(e: Entry): nat {
    match e
    case ProbeObserved(p, _, _, _, _) => p
    case ProbeExposed(p, _, _, _, _) => p
    case ProbeCompared(p, _, _, _, _, _, _) => p
    case _ => 0
  }

  lemma {:induction false} OtherProbeIrrelevant(events: seq<Event>, probes: map<nat, Domain>, p: nat, d: Domain)
    requires forall i :: 0 <= i < |events| ==> ProbeOf(events[i].body.entry) != p
    ensures AuthoritiesUnder(events, probes[p := d]) == AuthoritiesUnder(events, probes)
  {
    if events != [] {
      OtherProbeIrrelevant(events[..|events| - 1], probes, p, d);
    }
  }

  /** The authority of recorded events never changes when an event is appended,
      as long as a new commitment takes a probe number nobody has used. */
  lemma AuthoritiesStable(events: seq<Event>, e: Event)
    requires e.body.id == |events| + 1
    requires e.body.entry.ProbeCommitted? ==>
               forall i :: 0 <= i < |events| ==> ProbeOf(events[i].body.entry) != e.body.entry.probe
    ensures forall n :: n in EventAuthorities(events) && n <= |events| ==>
              n in EventAuthorities(events + [e]) && EventAuthorities(events + [e])[n] == EventAuthorities(events)[n]
  {
    assert (events + [e])[..|events|] == events;
    var probes := ProbeAuthorities(events);
    if e.body.entry.ProbeCommitted? && e.body.entry.probe != 0 && e.body.entry.authority.Some? {
      OtherProbeIrrelevant(events, probes, e.body.entry.probe, e.body.entry.authority.value);
    }
    assert AuthoritiesUnder(events, ProbeAuthorities(events + [e])) == EventAuthorities(events);
  }

  // ------------------------------------------------------- accepting a model

  /** What a claim's citations are checked against. While a case is opened,
      `labels` maps the declared initial evidence to the ids it will get. */
  datatype Context = Context(labels: Option<map<string, nat>>, known: set<nat>, authorities: map<nat, Domain>)

  function Cites(r: Ref, ctx: Context): Option<nat> {
    match ctx.labels
    case Some(labels) => if r.Initial? && r.ref in labels then Some(labels[r.ref]) else None
    case None => if r.EventRef? then Some(r.id) else None
  }

  predicate RefOk(r: Ref, ctx: Context) {
    Cites(r, ctx).Some? && Cites(r, ctx).value in ctx.known
  }

  function MappedRef(r: Ref, ctx: Context): Ref {
    match Cites(r, ctx)
    case Some(id) => EventRef(id)
    case None => r
  }

  function MappedRefs(refs: seq<Ref>, ctx: Context): (mapped: seq<Ref>)
    ensures |mapped| == |refs|
    ensures forall i :: 0 <= i < |refs| ==> mapped[i] == MappedRef(refs[i], ctx)
  {
    seq(|refs|, i requires 0 <= i < |refs| => MappedRef(refs[i], ctx))
  }

  function DefaultStanding(c: Claim): Standing {
    if c.standing.Unstated? then (if c.refs == [] then Hypothesis else Grounded) else c.standing
  }

  predicate CitesKnownAuthority(refs: seq<Ref>, authorities: map<nat, Domain>) {
    forall r :: r in refs ==> r.EventRef? && r.id in authorities
  }

  /** A claim with evidence states an authority, every cited event has one, and
      user and external authority are not mixed. */
  predicate AuthorityOk(authority: Authority, refs: seq<Ref>, authorities: map<nat, Domain>) {
    && !authority.BadAuthority?
    && (refs != [] ==>
          && authority.Stated?
          && CitesKnownAuthority(refs, authorities)
          && forall r :: r in refs ==> IsUserDomain(authorities[r.id]) == IsUserDomain(authority.domain))
  }

  predicate ClaimOk(c: Claim, ctx: Context) {
    && c.id != "" && c.text != ""
    && (forall r :: r in c.refs ==> RefOk(r, ctx))
    && !c.standing.BadStanding?
    && (DefaultStanding(c).Grounded? ==> c.refs != [])
    && AuthorityOk(c.authority, MappedRefs(c.refs, ctx), ctx.authorities)
  }

  function CitedDomains(refs: seq<Ref>, authorities: map<nat, Domain>): set<Domain> {
    set r | r in refs && r.EventRef? && r.id in authorities :: authorities[r.id]
  }

  function NormalClaim(c: Claim, ctx: Context): Claim {
    var refs := MappedRefs(c.refs, ctx);
    c.(refs := refs, standing := DefaultStanding(c), domains := CitedDomains(refs, ctx.authorities))
  }

  function NormalClaims(claims: seq<Claim>, ctx: Context): (normal: seq<Claim>)
    ensures |normal| == |claims|
    ensures forall i :: 0 <= i < |claims| ==> normal[i] == NormalClaim(claims[i], ctx)
  {
    seq(|claims|, i requires 0 <= i < |claims| => NormalClaim(claims[i], ctx))
  }

  function NormalModel(m: Model, ctx: Context): Model {
    m.(grounding := NormalClaims(m.grounding, ctx), mechanisms := NormalClaims(m.mechanisms, ctx),
       alternatives := NormalClaims(m.alternatives, ctx))
  }

  function ClaimIds(claims: seq<Claim>): seq<ItemId> {
    seq(|claims|, i requires 0 <= i < |claims| => claims[i].id)
  }

  function StepIds(plan: seq<Step>): seq<ItemId> {
    seq(|plan|, i requires 0 <= i < |plan| => plan[i].id)
  }

  function ItemIds(m: Model): seq<ItemId> {
    ClaimIds(Sections(m)) + StepIds(m.plan)
  }

  ghost predicate Distinct(ids: seq<ItemId>) {
    forall i, j :: 0 <= i < j < |ids| ==> ids[i] != ids[j]
  }

  predicate DependenciesKnown(m: Model) {
    forall step, d :: step in m.plan && d in step.dependsOn ==> d in ItemIds(m)
  }

  /** Exactly the models that opening and revising accept. */
  ghost predicate AcceptsModel(m: Model, ctx: Context) {
    && m.decision != "" && m.stopping != "" && m.topUnknown != ""
    && (forall c :: c in Sections(m) ==> ClaimOk(c, ctx))
    && (forall step :: step in m.plan ==> step.id != "" && step.action != "" && !step.authority.BadAuthority?)
    && Distinct(ItemIds(m))
    && DependenciesKnown(m)
  }

  /** One section's loop: checks its claims against the ids seen so far. */
  method NormalizeSection(claims: seq<Claim>, seen: seq<ItemId>, ctx: Context)
    returns (ok: bool, normal: seq<Claim>)
    requires Distinct(seen)
    ensures ok <==> (forall c :: c in claims ==> ClaimOk(c, ctx)) && Distinct(seen + ClaimIds(claims))
    ensures ok ==> normal == NormalClaims(claims, ctx)
  {
    normal := [];
    for k := 0 to |claims|
      invariant normal == NormalClaims(claims[..k], ctx)
      invariant forall i :: 0 <= i < k ==> ClaimOk(claims[i], ctx)
      invariant Distinct(seen + ClaimIds(claims[..k]))
    {
      var c := claims[k];
      var ids := seen + ClaimIds(claims[..k]);
      if !ClaimOk(c, ctx) {
        return false, [];
      }
      var duplicate := c.id in ids;
      if duplicate {
        var i :| 0 <= i < |ids| && ids[i] == c.id;
        assert (seen + ClaimIds(claims))[i] == (seen + ClaimIds(claims))[|seen| + k];
        return false, [];
      }
      normal := normal + [NormalClaim(c, ctx)];
      assert ClaimIds(claims[..k + 1]) == ClaimIds(claims[..k]) + [c.id];
      assert seen + ClaimIds(claims[..k + 1]) == ids + [c.id];
    }
    assert claims[..|claims|] == claims;
    return true, normal;
  }

  ghost predicate SectionsOk(m: Model, ctx: Context) {
    (forall c :: c in Sections(m) ==> ClaimOk(c, ctx)) && Distinct(ClaimIds(Sections(m)))
  }

  lemma DistinctPrefix(a: seq<ItemId>, b: seq<ItemId>)
    requires Distinct(a + b)
    ensures Distinct(a)
  {
    forall i, j | 0 <= i < j < |a| ensures a[i] != a[j] {
      assert (a + b)[i] == a[i] && (a + b)[j] == a[j];
    }
  }

  method NormalizeSections(m: Model, ctx: Context)
    returns (ok: bool, grounding: seq<Claim>, mechanisms: seq<Claim>, alternatives: seq<Claim>)
    ensures ok <==> SectionsOk(m, ctx)
    ensures ok ==> grounding == NormalClaims(m.grounding, ctx) && mechanisms == NormalClaims(m.mechanisms, ctx)
                   && alternatives == NormalClaims(m.alternatives, ctx)
  {
    hide ClaimOk, NormalClaims, ClaimIds, Distinct;
    var a, b, c := ClaimIds(m.grounding), ClaimIds(m.mechanisms), ClaimIds(m.alternatives);
    SectionIds(m);
    grounding, mechanisms, alternatives := [], [], [];
    assert [] + a == a;
    NothingDistinct();
    ok, grounding := NormalizeSection(m.grounding, [], ctx);
    if ok {
      ok, mechanisms := NormalizeSection(m.mechanisms, a, ctx);
      if ok {
        ok, alternatives := NormalizeSection(m.alternatives, a + b, ctx);
      }
    }
    if Distinct(a + b + c) {
      DistinctPrefix(a + b, c);
      DistinctPrefix(a, b);
    }
    assert forall x :: x in Sections(m) <==> x in m.grounding || x in m.mechanisms || x in m.alternatives;
  }

  lemma NothingDistinct()
    ensures Distinct([])
  {
  }

  lemma SectionIds(m: Model)
    ensures ClaimIds(Sections(m)) == ClaimIds(m.grounding) + ClaimIds(m.mechanisms) + ClaimIds(m.alternatives)
  {
  }

  /** The source's normaliser: refuses every other model, and gives back the
      model with its citations resolved and its defaults filled in. */
  method NormalizeModelClaims(m: Model, ctx: Context) returns (r: Result<Model>)
    ensures r.Ok? <==> AcceptsModel(m, ctx)
    ensures r.Ok? ==> r.value == NormalModel(m, ctx)
  {
    hide ClaimOk, NormalClaims, ClaimIds, Distinct, DependenciesKnown;
    if m.decision == "" || m.stopping == "" || m.topUnknown == "" {
      return Err(BadModel);
    }
    var ok, grounding, mechanisms, alternatives := NormalizeSections(m, ctx);
    if ok {
      ok := CheckPlan(m);
    } else if Distinct(ItemIds(m)) {
      DistinctPrefix(ClaimIds(Sections(m)), StepIds(m.plan));
    }
    if !ok {
      return Err(BadModel);
    }
    r := Ok(m.(grounding := grounding, mechanisms := mechanisms, alternatives := alternatives));
  }

  /** The plan loops: fields and ids first, then the dependencies. */
  method CheckPlan(m: Model) returns (ok: bool)
    requires Distinct(ClaimIds(Sections(m)))
    ensures ok <==>
              (forall step :: step in m.plan ==> step.id != "" && step.action != "" && !step.authority.BadAuthority?)
                    && Distinct(ItemIds(m)) && DependenciesKnown(m)
  {
    var claimIds := ClaimIds(Sections(m));
    for k := 0 to |m.plan|
      invariant forall i :: 0 <= i < k ==>
                  m.plan[i].id != "" && m.plan[i].action != "" && !m.plan[i].authority.BadAuthority?
      invariant Distinct(claimIds + StepIds(m.plan[..k]))
    {
      var step := m.plan[k];
      var ids := claimIds + StepIds(m.plan[..k]);
      if step.id == "" || step.action == "" || step.authority.BadAuthority? {
        return false;
      }
      var duplicate := step.id in ids;
      if duplicate {
        var i :| 0 <= i < |ids| && ids[i] == step.id;
        assert ItemIds(m)[i] == ItemIds(m)[|claimIds| + k];
        return false;
      }
      assert claimIds + StepIds(m.plan[..k + 1]) == ids + [step.id];
    }
    assert m.plan[..|m.plan|] == m.plan;
    for k := 0 to |m.plan|
      invariant forall i, d :: 0 <= i < k && d in m.plan[i].dependsOn ==> d in ItemIds(m)
    {
      if exists d :: d in m.plan[k].dependsOn && d !in ItemIds(m) {
        return false;
      }
    }
    return true;
  }

  // ----------------------------------------------------- what replay checks

  /** Replay's accounting of the model: unknown citations, bad authority
      bindings, unknown dependencies and duplicate ids. */
  function InvalidRefs(m: Model, tip: nat): set<Ref> {
    set c, r | c in Sections(m) && r in c.refs && !(r.EventRef? && 1 <= r.id <= tip) :: r
  }

  function InvalidBindings(m: Model, authorities: map<nat, Domain>): set<ItemId> {
    set c | c in Sections(m) && !AuthorityOk(c.authority, c.refs, authorities) :: c.id
  }

  function InvalidDependencies(m: Model): set<ItemId> {
    set step, d | step in m.plan && d in step.dependsOn && d !in ItemIds(m) :: d
  }

  function DuplicateIds(m: Model): set<ItemId> {
    var ids := ItemIds(m);
    set i, j | 0 <= i < j < |ids| && ids[i] == ids[j] :: ids[i]
  }

  predicate ModelClean(m: Model, events: seq<Event>) {
    && InvalidRefs(m, |events|) == {}
    && InvalidBindings(m, EventAuthorities(events)) == {}
    && InvalidDependencies(m) == {}
    && DuplicateIds(m) == {}
  }

  /** The inductive form: claims that are grounded in known events of the right
      authority, distinct ids and known dependencies. */
  ghost predicate ModelInv(m: Model, events: seq<Event>) {
    && (forall c :: c in Sections(m) ==> ClaimGrounded(c, |events|, EventAuthorities(events)))
    && Distinct(ItemIds(m))
    && DependenciesKnown(m)
  }

  predicate ClaimGrounded(c: Claim, tip: nat, authorities: map<nat, Domain>) {
    && c.id != ""
    && (c.standing.Grounded? ==> c.refs != [])
    && (forall r :: r in c.refs ==> r.EventRef? && 1 <= r.id <= tip)
    && AuthorityOk(c.authority, c.refs, authorities)
  }

  lemma InvIsClean(m: Model, events: seq<Event>)
    requires ModelInv(m, events)
    ensures ModelClean(m, events)
  {
    hide AuthorityOk, EventAuthorities, ItemIds;
    assert InvalidRefs(m, |events|) == {} by {
      forall c, r | c in Sections(m) && r in c.refs ensures r.EventRef? && 1 <= r.id <= |events| {
        assert ClaimGrounded(c, |events|, EventAuthorities(events));
      }
    }
    assert InvalidBindings(m, EventAuthorities(events)) == {} by {
      forall c | c in Sections(m) ensures AuthorityOk(c.authority, c.refs, EventAuthorities(events)) {
        assert ClaimGrounded(c, |events|, EventAuthorities(events));
      }
    }
  }

  lemma SameIds(m: Model, ctx: Context)
    ensures ItemIds(NormalModel(m, ctx)) == ItemIds(m)
    ensures Sections(NormalModel(m, ctx)) == NormalClaims(Sections(m), ctx)
  {
    hide NormalClaim;
    assert ClaimIds(NormalClaims(Sections(m), ctx)) == ClaimIds(Sections(m)) by {
      forall i | 0 <= i < |Sections(m)| ensures NormalClaim(Sections(m)[i], ctx).id == Sections(m)[i].id {
        NormalKeepsId(Sections(m)[i], ctx);
      }
    }
  }

  lemma NormalKeepsId(c: Claim, ctx: Context)
    ensures NormalClaim(c, ctx).id == c.id
  {
  }

  lemma NormalGrounded(c: Claim, ctx: Context, tip: nat, authorities: map<nat, Domain>)
    requires ClaimOk(c, ctx)
    requires forall n :: n in ctx.known ==> 1 <= n <= tip
    requires forall n :: n in ctx.known && n in ctx.authorities ==>
               n in authorities && authorities[n] == ctx.authorities[n]
    ensures ClaimGrounded(NormalClaim(c, ctx), tip, authorities)
  {
    var refs := MappedRefs(c.refs, ctx);
    forall r | r in refs ensures r.EventRef? && r.id in ctx.known {
      var i :| 0 <= i < |refs| && refs[i] == r;
      assert RefOk(c.refs[i], ctx);
    }
  }

  /** An accepted model passes replay over any Timeline that has the events it
      was checked against, with the authorities it was checked against. */
  lemma AcceptedModelInv(m: Model, ctx: Context, events: seq<Event>)
    requires AcceptsModel(m, ctx)
    requires forall n :: n in ctx.known ==> 1 <= n <= |events|
    requires forall n :: n in ctx.known && n in ctx.authorities ==>
               n in EventAuthorities(events) && EventAuthorities(events)[n] == ctx.authorities[n]
    ensures ModelInv(NormalModel(m, ctx), events)
  {
    hide EventAuthorities, NormalClaim, ClaimOk, ClaimGrounded;
    SameIds(m, ctx);
    forall c | c in Sections(NormalModel(m, ctx)) ensures ClaimGrounded(c, |events|, EventAuthorities(events)) {
      var i :| 0 <= i < |Sections(m)| && NormalClaim(Sections(m)[i], ctx) == c;
      NormalGrounded(Sections(m)[i], ctx, |events|, EventAuthorities(events));
    }
  }

  /** A clean model stays clean through every later append. */
  lemma ModelInvStable(m: Model, events: seq<Event>, e: Event)
    requires ModelInv(m, events) && e.body.id == |events| + 1
    requires e.body.entry.ProbeCommitted? ==>
               forall i :: 0 <= i < |events| ==> ProbeOf(events[i].body.entry) != e.body.entry.probe
    ensures ModelInv(m, events + [e])
  {
    AuthoritiesStable(events, e);
    hide EventAuthorities, ItemIds;
    forall c | c in Sections(m) ensures ClaimGrounded(c, |events + [e]|, EventAuthorities(events + [e])) {
      assert ClaimGrounded(c, |events|, EventAuthorities(events));
    }
  }

  // ------------------------------------------------------- opening a case

  /** Initial evidence as the caller declares it: a label and a descriptor. */
  datatype Declared = Declared(ref: string, evidence: Descriptor)

  /** I1, I2, ... */
  predicate LabelOk(ref: string) {
    |ref| >= 2 && ref[0] == 'I' && '1' <= ref[1] <= '9' && forall i :: 2 <= i < |ref| ==> IsDigit(ref[i])
  }

  ghost predicate DeclaredOk(items: seq<Declared>) {
    && (forall i :: 0 <= i < |items| ==> LabelOk(items[i].ref))
    && forall i, j :: 0 <= i < j < |items| ==> items[i].ref != items[j].ref
  }

  function Labels(items: seq<Declared>): (labels: map<string, nat>)
    ensures forall ref :: ref in labels <==> exists k :: 0 <= k < |items| && items[k].ref == ref
  {
    if items == [] then map[]
    else
      var labels := Labels(items[..|items| - 1])[items[|items| - 1].ref := |items|];
      assert forall k :: 0 <= k < |items| - 1 ==> items[..|items| - 1][k] == items[k];
      labels
  }

  function FirstIds(n: nat): (ids: set<nat>)
    ensures forall k :: k in ids <==> 1 <= k <= n
  {
    if n == 0 then {} else FirstIds(n - 1) + {n}
  }

  function DeclaredAuthorities(items: seq<Declared>): (authorities: map<nat, Domain>)
    ensures forall n :: n in authorities <==> 1 <= n <= |items|
    ensures forall n :: 1 <= n <= |items| ==> authorities[n] == items[n - 1].evidence.authority
  {
    if items == [] then map[]
    else DeclaredAuthorities(items[..|items| - 1])[|items| := items[|items| - 1].evidence.authority]
  }

  function OpeningContext(items: seq<Declared>): Context {
    Context(Some(Labels(items)), FirstIds(|items|), DeclaredAuthorities(items))
  }

  lemma DeclaredTables(items: seq<Declared>, k: nat)
    requires k < |items|
    ensures Labels(items[..k + 1]) == Labels(items[..k])[items[k].ref := k + 1]
    ensures FirstIds(k + 1) == FirstIds(k) + {k + 1}
    ensures DeclaredAuthorities(items[..k + 1]) == DeclaredAuthorities(items[..k])[k + 1 := items[k].evidence.authority]
  {
    assert items[..k + 1][..k] == items[..k];
  }

  lemma DeclaredPrefix(items: seq<Declared>, n: nat)
    requires DeclaredOk(items) && n <= |items|
    ensures DeclaredOk(items[..n])
  {
    hide LabelOk;
  }

  lemma DeclaredNext(before: seq<Declared>, item: Declared)
    ensures DeclaredOk(before + [item]) <==>
              DeclaredOk(before) && LabelOk(item.ref) && forall i :: 0 <= i < |before| ==> before[i].ref != item.ref
  {
    hide LabelOk;
    var after := before + [item];
    if DeclaredOk(after) {
      DeclaredPrefix(after, |before|);
      assert after[..|before|] == before && LabelOk(after[|before|].ref);
      forall i | 0 <= i < |before| ensures before[i].ref != item.ref {
        assert after[i].ref != after[|before|].ref;
      }
    }
  }

  /** The loop that assigns ids to the declared evidence and checks the model. */
  method PrepareInitialEvidence(m: Model, items: seq<Declared>) returns (r: Result<Model>)
    ensures r.Ok? <==> DeclaredOk(items) && AcceptsModel(m, OpeningContext(items))
    ensures r.Ok? ==> r.value == NormalModel(m, OpeningContext(items))
  {
    hide DeclaredOk, LabelOk, Labels, FirstIds, DeclaredAuthorities, AcceptsModel, NormalModel;
    var labels: map<string, nat> := map[];
    var known: set<nat> := {};
    var authorities: map<nat, Domain> := map[];
    NothingDeclared(items);
    for k := 0 to |items|
      invariant DeclaredOk(items[..k])
      invariant labels == Labels(items[..k])
      invariant known == FirstIds(k)
      invariant authorities == DeclaredAuthorities(items[..k])
    {
      DeclaredTables(items, k);
      DeclaredNext(items[..k], items[k]);
      assert items[..k + 1] == items[..k] + [items[k]];
      if DeclaredOk(items) {
        DeclaredPrefix(items, k + 1);
      }
      if !LabelOk(items[k].ref) || items[k].ref in labels {
        return Err(BadModel);
      }
      labels := labels[items[k].ref := k + 1];
      known := known + {k + 1};
      authorities := authorities[k + 1 := items[k].evidence.authority];
    }
    assert items[..|items|] == items;
    r := NormalizeModelClaims(m, Context(Some(labels), known, authorities));
  }

  lemma NothingDeclared(items: seq<Declared>)
    ensures DeclaredOk(items[..0]) && Labels(items[..0]) == map[] && FirstIds(0) == {}
            && DeclaredAuthorities(items[..0]) == map[]
  {
  }

  /** The ids handed to the initial evidence are the ones the store issues: a
      Timeline that starts with the declared evidence, in order, gives every
      label the event that carries its descriptor. */
  lemma OpeningAuthorities(items: seq<Declared>, events: seq<Event>)
    requires |items| <= |events|
    requires forall k :: 0 <= k < |events| ==> events[k].body.id == k + 1
    requires forall k :: 0 <= k < |items| ==> events[k].body.entry == InitialObservation(items[k].evidence)
    ensures forall n :: 1 <= n <= |items| ==>
              n in EventAuthorities(events) && EventAuthorities(events)[n] == items[n - 1].evidence.authority
  {
    forall n | 1 <= n <= |items|
      ensures n in EventAuthorities(events) && EventAuthorities(events)[n] == items[n - 1].evidence.authority
    {
      AuthorityAt(events, ProbeAuthorities(events), n);
    }
  }

  lemma {:induction false} AuthorityAt(events: seq<Event>, probes: map<nat, Domain>, n: nat)
    requires 1 <= n <= |events|
    requires forall k :: 0 <= k < |events| ==> events[k].body.id == k + 1
    ensures (n in AuthoritiesUnder(events, probes)) == AuthorityOf(events[n - 1].body.entry, probes).Some?
    ensures AuthorityOf(events[n - 1].body.entry, probes).Some? ==>
              AuthoritiesUnder(events, probes)[n] == AuthorityOf(events[n - 1].body.entry, probes).value
    decreases |events|
  {
    var last := |events| - 1;
    if n <= last {
      AuthorityAt(events[..last], probes, n);
    } else {
      AuthoritiesBounded(events[..last], probes);
    }
  }

  lemma {:induction false} AuthoritiesBounded(events: seq<Event>, probes: map<nat, Domain>)
    requires forall k :: 0 <= k < |events| ==> events[k].body.id == k + 1
    ensures forall n :: n in AuthoritiesUnder(events, probes) ==> 1 <= n <= |events|
  {
    if events != [] {
      AuthoritiesBounded(events[..|events| - 1], probes);
    }
  }
}
