/** What every past change has left in a case: texts and standings in its models, a
    Timeline that tells on which session the case was, and the tools of its probes. */
module Past {
  import opened Wrappers
  import opened Records
  import opened Journal
  import opened Transactions
  import opened Staleness
  import opened Claims
  import opened Calibration
  import opened Observations
  import opened Consultation
  import opened Harness
  import opened Invariants
  import opened Opening

  // ----------------------------------------------------------------- models

  /** A claim says something, has one of the three standings, and is grounded only
      if it cites. */
  predicate ClaimSound(c: Claim) {
    && c.id != "" && c.text != "" && !c.authority.BadAuthority?
    && (c.standing.Grounded? || c.standing.Hypothesis? || c.standing.Undecided?)
    && (c.standing.Grounded? ==> c.refs != [])
  }

  predicate StepSound(step: Step) {
    step.id != "" && step.action != "" && !step.authority.BadAuthority?
  }

  ghost predicate ModelSound(m: Model) {
    && m.decision != "" && m.stopping != "" && m.topUnknown != ""
    && (forall c :: c in Sections(m) ==> ClaimSound(c))
    && forall step :: step in m.plan ==> StepSound(step)
  }

  /** Whatever is accepted is sound once its defaults are filled in. */
  lemma AcceptedSound(m: Model, ctx: Context)
    requires AcceptsModel(m, ctx)
    ensures ModelSound(NormalModel(m, ctx))
  {
    SameIds(m, ctx);
    hide ItemIds, AuthorityOk;
    forall c | c in Sections(NormalModel(m, ctx)) ensures ClaimSound(c) {
      var i :| 0 <= i < |Sections(m)| && NormalClaim(Sections(m)[i], ctx) == c;
      SoundClaim(Sections(m)[i], ctx);
    }
  }

  lemma SoundClaim(c: Claim, ctx: Context)
    requires ClaimOk(c, ctx)
    ensures ClaimSound(NormalClaim(c, ctx))
  {
    if c.refs != [] {
      assert MappedRefs(c.refs, ctx)[0] == MappedRef(c.refs[0], ctx);
    }
  }

  ghost predicate ModelsSound(s: Slot) {
    && s.file.Some? && ModelSound(s.file.value.state.model)
    && forall k :: k in s.archive ==> ModelSound(s.archive[k].state.model)
  }

  lemma KeepsModelsSound(config: Config, s: Slot, ch: Change, number: Option<nat>, t: Slot)
    requires Moved(config, s, ch, number, t) && ModelsSound(s)
    ensures ModelsSound(t)
  {
    hide Fits, Landed, ModelSound, AcceptsModel, NormalModel;
    if ch.entry.ModelRevised? {
      var m := RevisedModel(config, s, ch, number, t);
      AcceptedSound(m, RevisionContext(s.events));
      ArchivesSelf(config, s, ch, number, t);
    } else {
      ModelStays(config, s, ch, number, t);
    }
  }

  lemma ArchivesSelf(config: Config, s: Slot, ch: Change, number: Option<nat>, t: Slot)
    requires Moved(config, s, ch, number, t)
    ensures t.file.Some? && forall k :: k in t.archive ==>
              t.archive[k] == t.file.value || (k in s.archive && t.archive[k] == s.archive[k])
  {
    hide Fits, Landed;
  }

  // ---------------------------------------------------------- session trail

  /** The session an event stands on, and how the case got there from the one
      before: only a move between sessions changes it, and names both. */
  predicate TrailAt(events: seq<Event>, i: nat)
    requires i < |events|
  {
    var here := events[i].body.session;
    match events[i].body.entry
    case SessionMigrated(from, to) => i > 0 && from == events[i - 1].body.session && to == here
    case MigrationAborted(from, to) => i > 0 && from == events[i - 1].body.session && to == here
    case CaseResumed(prior) => i > 0 && prior == events[i - 1].body.session
    case _ => i > 0 ==> here == events[i - 1].body.session
  }

  ghost predicate Trail(s: Slot) {
    && s.file.Some? && s.events != []
    && s.events[|s.events| - 1].body.session == s.file.value.state.session
    && forall i :: 0 <= i < |s.events| ==> TrailAt(s.events, i)
  }

  lemma KeepsTrail(config: Config, s: Slot, ch: Change, number: Option<nat>, t: Slot)
    requires Moved(config, s, ch, number, t) && Trail(s)
    ensures Trail(t)
  {
    TrailNext(config, s, ch, number, t);
    hide Fits, Landed;
    forall i | 0 <= i < |t.events| ensures TrailAt(t.events, i) {
      if i < |s.events| {
        assert TrailAt(s.events, i);
      }
    }
  }

  lemma TrailNext(config: Config, s: Slot, ch: Change, number: Option<nat>, t: Slot)
    requires Moved(config, s, ch, number, t) && Trail(s)
    ensures TrailAt(t.events, |s.events|) && t.file.value.state.session == ch.state.session
  {
    hide AcceptsModel, NormalModel, RevisionContext, StaleClosure, Repairs, Consulted, CaseLabel, EventsById,
         BudgetLeft, FreshOffer, OwnStart, Filled, ItemOf, MayFail;
  }

  /** The events numbered for their session are those by which a case comes to stand
      otherwise, in status or in session. */
  lemma DispositionsMark(config: Config, c: Case, events: seq<Event>, ch: Change)
    requires Fits(config, c, events, ch)
    ensures IsDisposition(ch.entry) <==>
              ch.state.status != c.status || ch.entry.SessionMigrated? || ch.entry.MigrationAborted?
    ensures ch.state.session != c.session ==> IsDisposition(ch.entry)
  {
    hide AcceptsModel, NormalModel, RevisionContext, StaleClosure, Repairs, Consulted, CaseLabel, EventsById,
         BudgetLeft, FreshOffer, OwnStart, ItemOf, MayFail, ToolFits, Mirrored;
  }

  // -------------------------------------------------------- probes' sources

  /** Observations are of tools a probe may be aimed at, and all evidence of probes
      states what it is an authority on. */
  predicate SourceAt(e: Entry) {
    match e
    case ProbeObserved(_, tool, a, _, _) => a.Some? && ToolFits(tool, a.value)
    case ProbeExposed(_, tool, a, _, _) => a.Some? && ToolFits(tool, a.value)
    case ProbeCompared(_, _, a, _, _, _, _) => a.Some?
    case _ => true
  }

  ghost predicate Sources(s: Slot) {
    && s.file.Some?
    && var probe := s.file.value.state.probe;
    && (probe.Some? ==> ToolFits(probe.value.tool, probe.value.authority))
    && forall i :: 0 <= i < |s.events| ==> SourceAt(s.events[i].body.entry)
  }

  lemma KeepsSources(config: Config, s: Slot, ch: Change, number: Option<nat>, t: Slot)
    requires Moved(config, s, ch, number, t) && Sources(s)
    ensures Sources(t)
  {
    hide AcceptsModel, NormalModel, RevisionContext, StaleClosure, Repairs, Consulted, CaseLabel, EventsById,
         BudgetLeft, FreshOffer, OwnStart, Filled, ItemOf, MayFail, ToolFits;
  }

  // ------------------------------------------------------------ pause markers

  /** A marker names the pause it was set by: a pause of this case, since which
      nothing has happened to it but moves of the paused case and failed calls. */
  ghost predicate PausedSince(s: Slot) {
    && s.file.Some?
    && var c := s.file.value.state;
    c.marker.Some? ==>
      && c.status.Paused? && c.marker.value.pauseEvent.Some?
      && 1 <= c.marker.value.pauseEvent.value <= |s.events|
      && s.events[c.marker.value.pauseEvent.value - 1].body.entry.CasePaused?
      && forall k :: c.marker.value.pauseEvent.value <= k < |s.events| ==>
           s.events[k].body.entry.SessionMigrated? || s.events[k].body.entry.OfferFailed?
  }

  lemma KeepsPausedSince(config: Config, s: Slot, ch: Change, number: Option<nat>, t: Slot)
    requires Moved(config, s, ch, number, t) && PausedSince(s)
    ensures PausedSince(t)
  {
    hide AcceptsModel, NormalModel, RevisionContext, StaleClosure, Repairs, Consulted, CaseLabel, EventsById,
         BudgetLeft, FreshOffer, OwnStart, ItemOf, MayFail, ToolFits;
  }

  // --------------------------------------------------------------- all of it

  ghost predicate PastOk(s: Slot) {
    ModelsSound(s) && Trail(s) && Sources(s) && PausedSince(s)
  }

  lemma KeepsPast(config: Config, s: Slot, ch: Change, number: Option<nat>, t: Slot)
    requires Moved(config, s, ch, number, t) && PastOk(s)
    ensures PastOk(t)
  {
    hide Fits, Lands, ModelsSound, Trail, Sources, PausedSince;
    KeepsModelsSound(config, s, ch, number, t);
    KeepsTrail(config, s, ch, number, t);
    KeepsSources(config, s, ch, number, t);
    KeepsPausedSince(config, s, ch, number, t);
  }

  /** A newly opened case has no past to answer for but its model. */
  lemma OpenedPast(s: Slot, id: CaseId, session: Session, model: Model, items: seq<Declared>)
    requires Opened(s, id, session, model, items) && AcceptsModel(model, OpeningContext(items))
    ensures PastOk(s)
  {
    hide AcceptsModel, NormalModel, OpeningContext, ModelSound, ToolFits;
    AcceptedSound(model, OpeningContext(items));
    forall i | 0 <= i < |s.events| ensures TrailAt(s.events, i) && SourceAt(s.events[i].body.entry) {
      assert Beginning(s.events[i].body.entry);
    }
  }
}
