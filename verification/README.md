# Verified model of the epistemic case store

This project models, in Dafny, the durable case store of the epistemic harness
and the machine of probes, comparisons and revisions that runs on it, and proves
what the two promise together.

- **Files and crashes.** `Timeline` has hash-chained events and the snapshots
  bound to their tips. `Journal` has one case directory and the redo journal that
  rewrites it file by file. `Recovery` is the disk as a machine whose steps are
  single durable writes, crashes, restarted recoveries and damage to the sequence
  cache; every step but the journal write is a stutter on the abstract store.
  `Dispositions` and `History` number the lifecycle events of a session across
  all cases. `Transactions` and `Opening` are the two kinds of transition.
  `CaseStores` is the store as a class: it rewrites its files in the order the
  source does, and each commit is proved to be one atomic transition.
- **Operations.** `Harness` gives every operation as a decision on a copy of the
  case and its Timeline. `Fits` says what a change may look like, and every
  decision is proved to fit. `Invariants` and `Past` prove what each change keeps,
  with one predicate for each promise. `Replay`, `ProbeOrder`, `Claims`,
  `Staleness`, `Provenance`, `Observations`, `Calibration`, `Consultation` and
  `CallBudget` hold the theory of each promise and the source's own loops.
  `Grounding`, `Repairing`, `Reach` and `Grading` say what the rules on claims,
  repairs, comparisons and grades decide, in terms of the claims, their words and
  standings, the chains of dependencies and the evidence cited. `Decisions` says
  when each operation on a reachable case goes ahead and what it records, and
  `Rulings` what all of this comes to over whole runs. `HarnessService` is the
  service class: its methods run the source's loops and are proved to decide as
  `Harness` does. `Progress` shows which operations each reachable case can go on
  with.
- **Sessions.** `Sessions` and `Lifecycle` are the moves on a whole store:
  opening, pausing with or without a marker, resuming, two-phase compression with
  crashes between its halves, adoption along a lineage, and every operation on a
  case. `Effects` proves that every move keeps every invariant. `Resumption` and
  `Compression` prove what sessions can rely on over whole runs. `SessionStores`
  is the imperative form of the session operations. `Guarantees` restates the
  main results for every world a run can reach. `CrashRuns`, `SystemRuns` and
  `DiskRuns` join the two halves: the worlds that the disks of crashing runs stand
  for are exactly the worlds of the lifecycle. `Closable` and `Closing` say which
  cases still have a run that closes them, and `OffersSpent` has a run after which
  none is left.
- **Concurrency.** `Clients` lets any number of clients read, think and write
  back, and shows that each successful write is one atomic move. `Dispatch` lets
  tool calls race for a committed probe while other calls recover or discard it,
  and `ReEntry` looks at the calls that are let through to a probe in execution.
  `Overlap` looks at calls for advice that overlap. `Walks` has the moves from which
  their runs are built.
- **Reading.** `CaseIndexes` is the session index. `Json` and `Framing` are the
  texts of the files, written and read back. `Characters` and `Wrappers` are shared
  by all of them.

Conventions. Events and probes carry numbers where the store writes `E000001` or
`PR000001`. SHA-256 is a function parameter with no assumed property; the lemmas
that need two texts never to collide say so with `CollisionFree`. The store lock
makes each store method one atomic step. A crash also releases the execution
lease, which is the move `Releases`. The clock is a number that callers supply.
Model item ids carry no surrounding white space. The raw `append_event` entry
point is not a step of the reachable-state results, because it can record an
observation for which no probe exists.

Four properties that the code and its texts suggest do not hold of it. The model
follows the code, shows where each fails and proves exactly when it holds:

- *No frame outside the claiming dispatch is let through to a probe in execution.*
  The check names the session, the tool and the call but not the case
  (epistemic_harness/harness.py:1109-1135), and a session may be paused while an
  action of its case runs (epistemic_harness/store.py:497-534). In
  `ReEntry.StrangerLetsIn` the action of one case lets an invocation in to the probe
  of another that nobody runs. `ReEntry.AdmissionExact` and `ReEntry.ReEntryExact`
  prove the exact condition for every admission of every run: an action in flight
  under the key is of the same case, which where a key is in flight only once is to
  say that none is of another case. `ReEntry.DistinctCallsKeepApart` proves that a
  host which never uses one call of a tool for two cases always meets it.
- *A case makes no more attempts than its limit.* A call is let start on the attempts
  made, not counting the calls under way (epistemic_harness/harness.py:643-660). In
  `Overlap.OverlapPassesLimit`, for every configuration, calls that overlap and all
  fail go past the limit. `Overlap.LimitExact` and `Overlap.StartExact` prove that the
  limit will hold until the next call exactly when the attempts and the calls under
  way fit in it together; `CallBudget.ExcessBounded` bounds the excess, and
  `CallBudget.NoOverlapKeepsLimit` shows that without overlap there is none.
  Successful offers alone never pass the limit.
- *A case labelled better than a hypothesis rests on evidence.* The calibration
  (epistemic_harness/harness.py:3785-3986) also takes a citation of anything that is
  no evidence event for direct support (`Calibration.UnknownCitationWouldCount`).
  `Calibration.LabelExact` says exactly which models it labels so. For models that
  replay finds clean, and so in every reachable case, that is exactly the models whose
  grounded claims cite evidence really obtained (`Calibration.BetterThanHypothesis`,
  `Guarantees.ResolvesExactly`).
- *Every case can be brought to a close.* With advice required, used up calls waive it
  only when they failed (epistemic_harness/harness.py:3082-3102), as the change log
  says; the overview (README.md:103) names the attempt budget alone. In
  `OffersSpent.OffersUseUpClosing`, for every configuration that allows calls, offers
  use them up and no later run closes the case. `Closing.ClosingExact` proves, for
  every world and every time, that a run to the close exists exactly when
  `Closable.MayYetClose` says so, and `Closing.CanAlwaysRest` that the way to a pause
  that owes nothing is always open.

## Model

| member | source | states |
|---|---|---|
| Timeline.VerifyChain | epistemic_harness/store.py:1028-1042 | the loop accepts exactly the Timelines whose ids are consecutive, whose links name their predecessors and whose hashes are those of their bodies |
| Timeline.PrepareEvents | epistemic_harness/store.py:1356-1381 | the preparing loop yields the specified events |
| Timeline.PreparedExtendsChain | epistemic_harness/store.py:1356-1381 | events prepared after a verifying Timeline keep it verifying |
| Timeline.PreparedAt | epistemic_harness/store.py:1331-1337 | each prepared event carries its request, the next id and number, and only the last one the digest of the case |
| Timeline.SameTipSameTimeline | epistemic_harness/store.py:1792-1795 | without hash collisions, two verifying Timelines of equal length with equal tip hash are equal |
| Timeline.SameTipSameSnapshot | epistemic_harness/store.py:830-854 | without hash collisions, two snapshots bound to the same tip are equal |
| Timeline.BindsOnePrefix | epistemic_harness/store.py:1426-1444 | a snapshot binds to at most one prefix of a verifying Timeline, so recovery cannot mistake the predecessor for the successor |
| Dispositions.NumberedAt | epistemic_harness/store.py:1287-1297 | each disposition of a transaction takes the next number of its own session, after those of the same transaction |
| Past.DispositionsMark | epistemic_harness/store.py:39-46 | the events numbered for their session are exactly those that change the status of a case, or move it between sessions |
| Dispositions.RebuildMarks | epistemic_harness/store.py:629-639 | the rebuilding loops find, for every session, the highest number any Timeline uses |
| Dispositions.FoldEvents | epistemic_harness/store.py:664-681 | one pass over events raises each session's mark to the highest number among them |
| Journal.JournalCommits | epistemic_harness/store.py:1339-1353 | once the journal is written the directory is recoverable, and what recovery will reach is the old Timeline and archive with the transition applied |
| Journal.AcceptedEndsSettled | epistemic_harness/store.py:1394-1491 | whatever is on disk, a journal that passes the checks is finished into a verifying Timeline with the case file bound to its tip |
| Journal.AcceptedLosesNothing | epistemic_harness/store.py:1394-1474 | an accepted journal takes back no event on disk: the Timeline it leaves extends the one it found |
| Journal.AcceptedKnowsFile | epistemic_harness/store.py:1394-1474 | without hash collisions it overwrites no case file but the one it was written over or the one it writes |
| Journal.WriteEventsStutters | epistemic_harness/store.py:1475-1476 | rewriting the Timeline keeps the directory recoverable and its final state the same |
| Journal.WriteCaseStutters | epistemic_harness/store.py:1478-1478 | rewriting the case file keeps the directory recoverable and its final state the same |
| Journal.WriteArchiveStutters | epistemic_harness/store.py:1479-1480 | archiving the version keeps the directory recoverable and its final state the same |
| Journal.UnlinkSettles | epistemic_harness/store.py:1490-1491 | removing the journal last leaves exactly the final state, settled |
| Recovery.MicroRefines | epistemic_harness/store.py:1387-1491 | every durable write, crash, restarted recovery or cache loss keeps the invariant, recovery is never refused, and only a journal write changes the abstract store |
| Recovery.BeginCommits | epistemic_harness/store.py:1339-1353 | the journal write makes the whole transition part of the abstract store at once |
| Recovery.RunsKeepInv | epistemic_harness/store.py:1387-1491 | the invariant holds after any number of writes, crashes and recoveries |
| Recovery.InterruptedRecoveryConverges | epistemic_harness/store.py:1387-1491 | after any interleaving of writes, crashes, restarts and cache losses, a disk with no journal left is exactly the final state of the uninterrupted recovery |
| Recovery.RecoveryNeverStuck | epistemic_harness/store.py:1387-1474 | from every state a crash can leave, a pending journal is accepted |
| Recovery.CacheExact | epistemic_harness/store.py:596-687 | with no journal pending a usable cache holds the true highest numbers, whatever happened to it before |
| History.SessionNumbersDense | epistemic_harness/store.py:651-662 | every number from 1 to a session's count is used by an event of some Timeline |
| History.SessionNumbersUnique | epistemic_harness/store.py:651-662 | no two events of any Timelines use the same number of a session |
| History.CountIsHighWater | epistemic_harness/store.py:629-639 | the number of dispositions committed for a session is the highest number a scan of all Timelines finds |
| History.TransactKeepsStore | epistemic_harness/store.py:1250-1354 | every transition keeps Timelines verifying, bound, completely logged and numbered in order of commit |
| Transactions.WriteSucceeds | epistemic_harness/store.py:1114-1146 | a copy with the current token is accepted, appends exactly its event and leaves exactly its record, with numbers and event ids filled in |
| CaseStores.ContinuesChain | epistemic_harness/store.py:1446-1456 | the loop over the journal's events accepts exactly those that continue the chain |
| CaseStores.CheckJournal | epistemic_harness/store.py:1394-1473 | the checks before the first write accept exactly the acceptable journals, on any disk |
| CaseStores.CaseStore.ReadMarks | epistemic_harness/store.py:596-627 | the cached marks, or, when the cache is missing or malformed, the highest numbers of all Timelines, which are written back |
| CaseStores.CaseStore.Reconcile | epistemic_harness/store.py:664-687 | folding a journal raises each mark to the journal's own number and changes no other |
| CaseStores.RaiseMarks | epistemic_harness/store.py:680-687 | the raising loop is a maximum, session by session |
| CaseStores.CaseStore.ApplyJournal | epistemic_harness/store.py:1394-1491 | a refused journal leaves every file alone; an accepted one leaves the Timeline, case file, archive and cache in their final state and no journal |
| CaseStores.CaseStore.Recover | epistemic_harness/store.py:1387-1392 | from anything a crash can leave, recovery succeeds, leaves nothing pending and changes nothing that was committed |
| CaseStores.AppliedSound | epistemic_harness/store.py:1475-1491 | the five writes of one recovery are five steps of the crash machine, so a crash between any two of them is covered |
| CaseStores.CaseStore.Counts | epistemic_harness/store.py:651-662 | the marks read before allocation are the true counts of all sessions |
| CaseStores.CaseStore.NumberRequests | epistemic_harness/store.py:1287-1297 | the allocating loop numbers each session's dispositions in continuation of its count |
| Journal.LastNumberedIsLast | epistemic_harness/store.py:1299-1320 | the disposition that fills a marker is the last one of the transaction on the case's session |
| CaseStores.Fill | epistemic_harness/store.py:1298-1318 | an empty marker takes the number and event id of the last disposition of its session in the transaction, or the transaction is refused |
| CaseStores.CaseStore.CommitTransaction | epistemic_harness/store.py:1250-1354 | a commit is one atomic transition of the store, or is refused for the specified reason with nothing changed and no number used |
| CaseStores.JournalSound | epistemic_harness/store.py:1339-1353 | once the journal is durable the transition is part of the store, whatever crashes follow |
| Staleness.ExpandStale | epistemic_harness/harness.py:3540-3553 | the fixpoint loop ends, for cyclic plans and any order, with the least set that holds the affected ids and is closed under plan dependency |
| Reach.ClosureIsReach | epistemic_harness/harness.py:3540-3553 | the stale items are exactly those that a chain of named plan dependencies leads to from what was affected |
| Reach.ComparisonExactly | epistemic_harness/harness.py:2433-2548 | exactly when a comparison is accepted; one of a probe bound to a claim names the claim, and beside it only what a chain of dependencies leads to from it |
| Reach.ComparisonLeaves | epistemic_harness/harness.py:2577-2600 | a material mismatch makes stale exactly what rests on what it affects, and of a probe bound to a claim exactly what rests on that claim; any other comparison changes nothing but the probe |
| Repairing.SubstantiveExactly | epistemic_harness/harness.py:3502-3537 | an item is repaired exactly by other words, other dependencies counted with repetition, or a claim held with strictly less certainty |
| Repairing.RaisingNeverRepairs | epistemic_harness/harness.py:3520-3537 | the same words with a status kept or raised never repair a claim |
| Repairing.LoweringRepairs | epistemic_harness/harness.py:3513-3537 | each of the three ways down from grounded over hypothesis to unresolved does |
| Repairing.RevisionMendsExactly | epistemic_harness/harness.py:2206-2265 | a revision of a stale case is accepted exactly if it changes the model, addresses the mismatch, is consequential, and leaves each stale item gone, rewritten or lowered |
| Repairing.BlankParts | epistemic_harness/harness.py:3502-3510 | a blank parts the words before it from those after it, which with `OneWord` and `NoWords` fixes the reading of every text |
| Claims.ComputeAuthorities | epistemic_harness/harness.py:3387-3426 | the two passes compute the authority of every evidence event |
| Claims.AuthoritiesStable | epistemic_harness/harness.py:3387-3426 | appending an event never changes the authority of recorded events, as long as a new commitment takes an unused probe number |
| Claims.NormalizeModelClaims | epistemic_harness/harness.py:3292-3384 | the normaliser accepts exactly the well-formed models and returns the model with citations resolved and defaults filled in |
| Claims.CheckPlan | epistemic_harness/harness.py:3350-3384 | the plan loops accept exactly complete steps with ids distinct from all others and known dependencies |
| Claims.PrepareInitialEvidence | epistemic_harness/harness.py:3246-3289 | opening accepts exactly distinct well-formed labels with a model that fits them |
| Claims.OpeningAuthorities | epistemic_harness/harness.py:3246-3289 | the event ids handed to the initial evidence are the ones the store issues, with the declared authorities |
| Claims.AcceptedModelInv | epistemic_harness/harness.py:3429-3468 | an accepted model is grounded in known events of the right authority, with distinct ids and known dependencies |
| Claims.ModelInvStable | epistemic_harness/harness.py:1863-1906 | and stays so through every later append |
| Claims.InvIsClean | epistemic_harness/harness.py:1863-1906 | then replay finds no invalid reference, binding, dependency or duplicate id |
| Grounding.CrossingRefused | epistemic_harness/harness.py:3429-3468 | a model with one claim that states a domain of one group and cites evidence of the other is never accepted |
| Grounding.OpeningRefusesCrossing | epistemic_harness/harness.py:3246-3290 | opening a case refuses it, by the evidence declared under the label the claim cites |
| Grounding.RevisionRefusesCrossing | epistemic_harness/harness.py:2191-2205 | so does a revision, by the domain each cited event states and the authority the claim states or inherits |
| Grounding.CrossingFlagged | epistemic_harness/harness.py:3429-3468 | standing in a case such a claim is flagged by replay, which then calls the case unusable |
| Grounding.TwoGroups | epistemic_harness/harness.py:58-68 | every domain is the user's or the world's, and none is both |
| Grounding.MisboundExactly | epistemic_harness/harness.py:3429-3468 | exactly which claims replay flags for their authority |
| Grounding.CleanExactly | epistemic_harness/harness.py:3292-3384 | replay passes a model exactly when every citation is of an event on the Timeline, every claim that cites is bound within its group, every dependency is on some item and no two items share an id |
| Grounding.DomainStands | epistemic_harness/harness.py:3387-3426 | an event that states a domain is the authority on it, a comparison by its descriptor first |
| Grounding.UnstatedDomain | epistemic_harness/harness.py:3387-3426 | an event of a probe that states no domain has the one its probe was committed with |
| Grounding.CommittedDomain | epistemic_harness/harness.py:3387-3398 | that is the domain of the newest commitment under the probe's number |
| Grounding.RevisedItems | epistemic_harness/harness.py:2191-2205 | an accepted revision, item by item: text, citations and dependencies as given, standing as given or else grounded exactly if the claim cites, authority as given or else that of the item revised |
| Grounding.LabelsAreNumbered | epistemic_harness/harness.py:3266-3270 | the labels of declared evidence are exactly I1, I2, I3 and so on |
| Provenance.ResolveSound | epistemic_harness/harness.py:3707-3782 | an ok or failed verdict comes with the chain that proves it, also on cyclic event maps |
| Provenance.ResolveComplete | epistemic_harness/harness.py:3707-3782 | every chain that proves a verdict is found |
| Provenance.ResolveExact | epistemic_harness/harness.py:3707-3782 | ok exactly when an acyclic chain of ok displays of one probe ends in an ok root of known origin, failed exactly when such a chain reaches a failed root |
| Observations.ResolveFollowsRecord | epistemic_harness/harness.py:3707-3782 | on a well-recorded Timeline the resolver's guards never fire: it follows the recorded links to the observed root |
| Observations.ExposureNeverRaises | epistemic_harness/harness.py:3707-3782 | an exposure never makes an observation worth more than what it supersedes, and a failed one stays failed |
| Calibration.ClosureCalibration | epistemic_harness/harness.py:3785-3986 | the loops over sections, claims and citations compute the case label |
| Calibration.LabelClaim | epistemic_harness/harness.py:3836-3935 | the loop over a claim's citations computes the claim's label |
| Calibration.OtherProbeGivesNothing | epistemic_harness/harness.py:3871-3912 | a comparison that names the observation of another probe supports nothing |
| Calibration.BadCitationNeverRaises | epistemic_harness/harness.py:3785-3986 | one more citation of a failed or unknown observation never raises the case label in hypothesis < provisional = mixed < supported |
| Calibration.BetterThanHypothesis | epistemic_harness/harness.py:2833-2841 | for a model that replay finds clean, the label is better than hypothesis exactly when a grounded claim cites evidence that was really obtained |
| Calibration.LabelExact | epistemic_harness/harness.py:3785-3986 | for any model, the label is better than hypothesis exactly when a grounded claim cites obtained evidence or something that is no evidence event |
| Calibration.UnknownCitationWouldCount | epistemic_harness/harness.py:3785-3986 | without the authority check, citing an event nobody recorded would make a claim supported |
| Grading.SupportIs | epistemic_harness/harness.py:3858-3945 | a citation of evidence is direct support exactly if the evidence was obtained and neither seen in part only nor a search result, and a lead if it was obtained but is one of these |
| Grading.GradeExactly | epistemic_harness/harness.py:3947-3974 | a clean case is supported exactly when some claim is grounded, all grounded claims have direct support and everything asserted is grounded; provisional when the same holds with leads only; a hypothesis when no grounded claim cites anything obtained; and else mixed |
| Grading.GradesExclude | epistemic_harness/harness.py:3958-3974 | no case deserves two of the four grades |
| Grading.AssertedHypothesisCaps | epistemic_harness/harness.py:3953-3965 | one asserted claim without grounds keeps any case from being called supported or provisional |
| Grading.MentionsIsNames | epistemic_harness/harness.py:3923-3931 | a tool counts as a search if its name holds the word anywhere, in any case |
| Consultation.BudgetUsed | epistemic_harness/methods.py:151-173 | the counters are the distinct ids of offers and service failures, the failures alone, and the positive token counts |
| Consultation.FailureState | epistemic_harness/methods.py:191-208 | the backward loop computes the run of service failures and the time of its newest |
| Consultation.FailureRunCounts | epistemic_harness/methods.py:191-208 | that run is the service failures since the last offer or failure of the caller, with the time of the newest |
| Consultation.CooldownExact | epistemic_harness/methods.py:211-223 | the cooldown holds exactly while that run has enough failures and the newest is younger than the cooldown |
| Harness.NoCallInCooldown | epistemic_harness/harness.py:663-681 | no call for advice starts during the cooldown |
| Consultation.ValidOfferIsTip | epistemic_harness/methods.py:134-148 | an offer that can be answered is the tip of the Timeline and nobody has answered it |
| Consultation.ChosenFollows | epistemic_harness/methods.py:226-303 | an accepted answer directly follows its offer, for its decision point, with a method the rules allow |
| Consultation.DecisionsAreConsulted | epistemic_harness/methods.py:99-125 | the event right before a commitment or close consults on that very decision, and a choice there continues for a probe and stops for a close |
| Consultation.NoSharedConsultation | epistemic_harness/methods.py:99-125 | no consultation covers two decisions |
| Consultation.AnsweredOnce | epistemic_harness/harness.py:926-1005 | no two answers answer the same offer |
| Consultation.OffersWithinBudget | epistemic_harness/harness.py:643-721 | a case never holds more successful offers than its limit, however calls overlap |
| CallBudget.EndedWereStarted | epistemic_harness/harness.py:700-808 | only calls that were started end, in an offer or a failure |
| CallBudget.AttemptsProspective | epistemic_harness/methods.py:151-173 | until another call starts there are never more attempts than those made and those under way |
| CallBudget.ExcessBounded | epistemic_harness/harness.py:643-721 | the attempts go past the limit by no more than the calls that were under way when the last one was let start |
| CallBudget.RoomKeepsLimit | epistemic_harness/harness.py:643-660 | the limit holds if every call was let start with room for itself and all calls under way |
| CallBudget.NoOverlapKeepsLimit | epistemic_harness/harness.py:643-660 | calls that never overlap never go past the limit |
| Overlap.OverlapPassesLimit | epistemic_harness/harness.py:643-808 | fails: for every configuration that allows calls there is a run of overlapping failing calls with one attempt more than the limit |
| Overlap.LimitExact | epistemic_harness/harness.py:643-660 | from any reachable world, every future keeps the limit until another call starts exactly when the attempts made and the calls under way fit in it together |
| Overlap.StartExact | epistemic_harness/harness.py:643-721 | so letting one more call start keeps the limit, in every future until the next, exactly when there is room for it beside them |
| Replay.ComputeAccounting | epistemic_harness/harness.py:1813-1861 | the pass over the Timeline computes replay's accounting |
| Replay.AccountFinds | epistemic_harness/harness.py:1813-1861 | replay finds exactly the newest observations that nothing compared or discarded, the comparisons of no newest observation, and the material mismatches no revision names |
| Replay.InvAgrees | epistemic_harness/harness.py:1813-1861 | in every state that keeps the invariant, replay's uncompared set, invalid references and open mismatches are exactly what the snapshot flags say |
| Replay.ObserveStep | epistemic_harness/harness.py:1550-1612 | an observation or exposure becomes the one the pending probe waits on |
| Replay.CompareStep | epistemic_harness/harness.py:2433-2600 | a comparison settles that observation and opens an obligation exactly when it is a material mismatch |
| Replay.DiscardStep | epistemic_harness/harness.py:2627-2654 | a discard settles the observation, if there is one |
| Replay.RepairStep | epistemic_harness/harness.py:2229-2282 | a revision that names the mismatch settles it |
| ProbeOrder.CommittedOnce | epistemic_harness/harness.py:2379-2387 | probe ids are committed once each and in order |
| ProbeOrder.StartedOnce | epistemic_harness/harness.py:1166-1235 | no probe is started twice |
| ProbeOrder.ObservedOnce | epistemic_harness/harness.py:1550-1612 | no probe is observed twice |
| ProbeOrder.ObservedWasStarted | epistemic_harness/harness.py:1550-1612 | every observation follows the start of its own probe |
| Harness.PerformFits | epistemic_harness/harness.py:2119-3123 | whatever an operation decides, the fields it changes and the event it appends fit what it checked |
| Harness.RecordedWorth | epistemic_harness/harness.py:1550-1780 | a capture is worth what was reported, a recovery only a failure, and an exposure shows success exactly when success was shown |
| Decisions.StrangersAreRefused | epistemic_harness/harness.py:3126-3130 | no session operates on a case that is another's or not active |
| Decisions.FaultsStop | epistemic_harness/harness.py:2293-2297 | nothing goes on while a probe is pending, the model is stale, or replay finds an open obligation or a fault in the model |
| Decisions.CommitExactly | epistemic_harness/harness.py:2286-2431 | exactly when a probe is committed on a reachable case, and the probe and event that are recorded |
| Decisions.ProbeStepsExactly | epistemic_harness/harness.py:2602-2654 | exactly when a probe starts, is captured, shown, recovered or discarded, and of which probe, tool and authority the record is |
| Decisions.StatusesSay | epistemic_harness/harness.py:3634-3671 | what a pair of statuses says: a failure in either field wins, and else success in either counts |
| Decisions.FailuresPart | epistemic_harness/methods.py:23-32 | a failed call excuses unless it is the caller's: changed state, bad input, or an outcome that could not be written |
| Decisions.EvidenceExactly | epistemic_harness/harness.py:2119-2164 | evidence is recorded exactly by the owner, with no probe pending, from an external source, and as it was described |
| Decisions.ComparisonRecords | epistemic_harness/harness.py:2550-2576 | a comparison records the observation compared, the verdict, the descriptor and what it affects as they were given |
| Decisions.PauseExactly | epistemic_harness/harness.py:2656-2671 | a reachable case is set aside exactly by its owner, once it owes nothing; by a subagent's at once |
| Decisions.CloseExactly | epistemic_harness/harness.py:2816-2920 | a reachable case closes exactly when it owes nothing, was consulted on and, as resolved, rests on evidence; recorded are the outcome asked for and the grade its claims make |
| Decisions.StartExactly | epistemic_harness/harness.py:609-684 | a call for advice starts exactly for a case that owes nothing, with advice set up, within both limits, with no offer waiting and nothing cooling |
| Decisions.OutcomesExactly | epistemic_harness/harness.py:806-955 | an offer is recorded right after its own start with its tokens, expiry and candidates; a failure once, after its own start, and after its offer only a failed write |
| Decisions.ChoiceExactly | epistemic_harness/harness.py:956-1005 | a choice is recorded exactly for the offer the Timeline ends in, unanswered and not expired, with the method the rules give |
| Decisions.PreviousIsNewest | epistemic_harness/methods.py:76-81 | the previous method is that of the newest answer that named one |
| Decisions.WaiverExactly | epistemic_harness/harness.py:3034-3113 | a decision is excused exactly where it would stand without advice, nothing was consulted, no offer waits, and failures used the calls up or the cooldown holds with tokens left |
| Harness.OnlyLifecycleRebinds | epistemic_harness/harness.py:2119-2920 | only session operations resume a case or move it to another session |
| Invariants.KeepsReplay | epistemic_harness/harness.py:1813-1861 | every operation moves the snapshot flags and the replayed Timeline together |
| Invariants.KeepsOrder | epistemic_harness/harness.py:2286-2654 | every event is one the Timeline so far allows, and the Timeline alone tells which probe is pending and how far it has got |
| Invariants.KeepsGate | epistemic_harness/harness.py:3034-3123 | every operation keeps what each consultation, offer and decision owes to the event before it |
| Invariants.KeepsModel | epistemic_harness/harness.py:3292-3384 | every operation keeps the model clean for replay |
| Invariants.KeepsVersion | epistemic_harness/store.py:1084-1112 | version is one plus the number of revisions, token and Timeline length move together, and the archive gains exactly the new version |
| Invariants.KeepsStale | epistemic_harness/harness.py:2586-2592 | a stale case names a material mismatch of the current model version, and its stale items are exactly that mismatch's expansion |
| Invariants.KeepsRepairs | epistemic_harness/harness.py:2229-2282 | every recorded repair names a mismatch of the version before it and removed or substantively changed all that it made stale |
| Invariants.KeepsClose | epistemic_harness/harness.py:2816-2920 | a close leaves nothing owed, is final, and if resolved is grounded in obtained evidence |
| Invariants.KeepsRecords | epistemic_harness/harness.py:1572-1612 | every observation keeps the authority its probe was committed with, every exposure supersedes one of the same source, and the snapshot shows the newest |
| Invariants.UsableIsFlags | epistemic_harness/harness.py:1907-1955 | replay calls a reachable case usable exactly when it is not stale and has no probe past commitment |
| Opening.OpenLands | epistemic_harness/store.py:114-171 | opening writes the initial evidence in order, the opening event, version 1 and its archive copy |
| Opening.OpeningNumbered | epistemic_harness/store.py:1287-1297 | an opening takes the next number of its session, and the declared evidence before it none |
| Opening.OpenedCase | epistemic_harness/harness.py:1957-2016 | a newly opened case satisfies everything later operations keep |
| Progress.PendingCanBeSettled | epistemic_harness/harness.py:2602-2654 | a pending probe can be discarded once nothing runs, and an interrupted one recovered |
| Progress.ObservedCanBeCompared | epistemic_harness/harness.py:2433-2600 | a captured observation can always be compared with what the probe was about |
| Progress.StaleCanBeRepaired | epistemic_harness/harness.py:2229-2282 | a stale case always has an acceptable repair |
| Progress.SettledCanGoOn | epistemic_harness/harness.py:2656-2671 | a case that owes nothing can be paused, and without advice probed or closed |
| Progress.ConsultedCanGoOn | epistemic_harness/harness.py:3034-3066 | with advice, a case just consulted on can go ahead |
| Closable.MayBefore | epistemic_harness/harness.py:3034-3125 | no event, whatever decides on it, makes a case closable that was not |
| Closing.ClosingExact | epistemic_harness/harness.py:3034-3125 | from every world that satisfies the invariants, and at every time, some later run closes a case exactly when advice is not required, a call can still be made, one for that decision is under way, failures or the cooldown bring the waiver, or its consultation or offer stands at the tip |
| Closing.CanAlwaysRest | epistemic_harness/harness.py:2656-2671 | unless it is closed, a case has a run to a pause at which it owes nothing, whatever it owes now and whoever holds its lease |
| OffersSpent.OffersUseUpClosing | epistemic_harness/harness.py:3082-3102 | fails: for every configuration that allows calls there is a run after which, at no time, any run closes the case |
| HarnessService.CheckUsable | epistemic_harness/harness.py:1782-1955 | the audit loops compute replay's verdict |
| HarnessService.DecideRevision | epistemic_harness/harness.py:2166-2284 | the revision's checks and loops decide as specified |
| HarnessService.CheckRepairs | epistemic_harness/harness.py:2245-2263 | the loop over stale items accepts exactly the revisions that remove or really change each of them |
| HarnessService.DecideComparison | epistemic_harness/harness.py:2433-2600 | the comparison's checks and expansions decide as specified |
| HarnessService.DecideCommit | epistemic_harness/harness.py:2286-2430 | the commitment's checks decide as specified, with the next probe number counted from the Timeline |
| HarnessService.DecideClose | epistemic_harness/harness.py:2816-2920 | the close's checks and calibration decide as specified |
| HarnessService.EpistemicHarness.Operate | epistemic_harness/harness.py:548-575 | a call without interference is one atomic operation on the session's active case, or is refused with nothing changed |
| Sessions.Acts | epistemic_harness/store.py:1114-1146 | every change that fits is accepted by the store and keeps every invariant, unless it would make the case active on a session another case holds |
| Effects.NextDone | epistemic_harness/store.py:114-582 | every move keeps every invariant, touches at most one case, moves a paused case only with a valid marker or by its explicit resume, and rebinds none whose lease is held |
| Effects.RunsKeepWorld | epistemic_harness/store.py:114-996 | every world of every run satisfies every invariant |
| Resumption.EligibleIffLast | epistemic_harness/store.py:745-769 | a marked paused case is eligible exactly when the disposition that set its marker is the last of its session across all cases |
| Resumption.OneEligible | epistemic_harness/store.py:745-769 | at most one case of a session is eligible |
| Resumption.DormantStays | epistemic_harness/store.py:745-791 | a paused case whose marker is missing or has lapsed stays so through every move but its own explicit resume |
| Resumption.DormantUntilResumed | epistemic_harness/store.py:745-791 | the same over whole runs, through migrations, adoptions and cache losses |
| Resumption.ResumeLands | epistemic_harness/store.py:536-574 | an explicit resume makes the case active on the session asked for |
| Compression.MigrationMoves | epistemic_harness/store.py:418-454 | a migration rebinds the one active case of its source, whose lease is free, and touches no other |
| Compression.PreparesExactly | epistemic_harness/store.py:288-319 | exactly when a compression is prepared, and what is recorded of it |
| Compression.PreparedRecovers | epistemic_harness/store.py:288-365 | what was prepared can be recovered at once while the lease is free, and the case is then active on the session it was prepared for |
| Compression.CompressionConserves | epistemic_harness/store.py:321-416 | recovery and rollback, also when cut short, neither lose nor double an active case and keep it on one of the two sessions |
| Compression.CrashedRecoveryConverges | epistemic_harness/store.py:321-365 | after a crash between migration and removal of the intent, the next recovery ends where the uninterrupted one would have |
| Compression.CrashedAbortConverges | epistemic_harness/store.py:385-416 | the same for a rollback |
| Compression.RecoveryIdempotent | epistemic_harness/store.py:321-365 | a recovery that has succeeded has nothing more to do |
| Compression.AdoptsNewest | epistemic_harness/store.py:856-908 | of all ancestors that own an active or validly marked case, the newest is the one adopted from |
| Compression.AdoptsNothing | epistemic_harness/store.py:856-908 | with no such ancestor nothing changes |
| Compression.AdoptionDecides | epistemic_harness/store.py:856-922 | when the newest owner before the child is a paused case, adoption leaves it waiting on the child for a sign of life exactly if no case record and no event named the child before, and dormant otherwise; while its lease is held it is refused |
| Compression.AdoptionMoves | epistemic_harness/store.py:883-898 | when the newest owner is an active case, it is active on the child afterwards and no other case has moved |
| Compression.AdoptionLeaves | epistemic_harness/store.py:876-908 | with no owner before the child, or the child not in the lineage or active already, nothing changes |
| Compression.PausedAdoption | epistemic_harness/store.py:947-996 | a paused case adopted with its marker can be resumed by the child, and one adopted without it stays dormant |
| Compression.PauseDecides | epistemic_harness/store.py:497-534 | a lifecycle pause with a marker leaves the case eligible for the next sign of life, one without leaves it dormant |
| Compression.ResumedOnce | epistemic_harness/store.py:745-791 | a sign of life on a vacant session resumes its eligible case, after which none is eligible |
| Compression.NothingResumed | epistemic_harness/store.py:748-800 | a sign of life changes nothing where a case is active, none waits, or the one that waits does not replay |
| Guarantees.ReplayAlwaysAgrees | epistemic_harness/harness.py:1813-1906 | in every reachable world replay and snapshot agree and replay finds no fault in the model |
| Guarantees.ClosedCasesAreSettled | epistemic_harness/harness.py:3027-3032 | in every reachable world a closed case has compared or discarded every observation and repaired every material mismatch |
| Guarantees.ResolvedIsGrounded | epistemic_harness/harness.py:2833-2841 | every recorded close is graded above hypothesis exactly when a grounded claim cited evidence obtained before it, and none but such a case was closed as resolved |
| Guarantees.ResolvesExactly | epistemic_harness/harness.py:2816-2841 | a reachable case that owes nothing and was consulted on may close as resolved exactly when a grounded claim cites evidence really obtained |
| Guarantees.ProbesHappenOnce | epistemic_harness/harness.py:1107-1235 | in every reachable world no two events commit, start or observe the same probe |
| Guarantees.VerdictsFollowRecord | epistemic_harness/harness.py:3707-3782 | in every reachable world the resolver's verdict on an observation is the one its recorded links give |
| Guarantees.RevisionsRepair | epistemic_harness/harness.py:2229-2263 | every repair on record removed or really changed each item its mismatch had made stale in the model that was compared |
| Guarantees.DecisionsFollowAdvice | epistemic_harness/harness.py:3034-3123 | with advice enabled every commitment and close in a reachable world directly follows its own consultation, and offers stay within the limit |
| Guarantees.AttemptsBounded | epistemic_harness/harness.py:643-721 | in every reachable world the attempts exceed the limit by no more than the calls under way at the last start |
| Guarantees.OneActivePerSession | epistemic_harness/store.py:576-582 | no session ever has two active cases |
| Guarantees.DispositionsGapFree | epistemic_harness/store.py:651-662 | in every reachable world a session's disposition numbers are 1 up to its count, each used by one event |
| Guarantees.ChainsVerify | epistemic_harness/store.py:1028-1075 | every reachable Timeline verifies and its snapshot is bound to the tip |
| Guarantees.TimelinesGrow | epistemic_harness/store.py:1475-1476 | Timelines are only ever appended to |
| Guarantees.TokenCountsEvents | epistemic_harness/store.py:1259-1280 | event count minus write token is fixed from the opening on |
| Guarantees.VersionsArchived | epistemic_harness/store.py:1563-1569 | the archive of a reachable case holds exactly the versions so far, each under its own number |
| Guarantees.LeaseFencesMigration | epistemic_harness/store.py:432-454 | while a case's execution lease is held only its explicit resume can change its session |
| Rulings.ClaimsStayInGroup | epistemic_harness/harness.py:3429-3468 | in every reachable case each claim that cites states a domain, each event it cites states one, and both are of one group, user or external |
| Rulings.RepairsMend | epistemic_harness/harness.py:2206-2265 | after every recorded repair each item that a chain of dependencies led to from the mismatch is gone, rewritten, or held with strictly less certainty |
| Rulings.ClosesAreGraded | epistemic_harness/harness.py:3785-3986 | every recorded close carries the grade its claims and citations made at that time |
| Rulings.TimelinesTrail | epistemic_harness/store.py:1331-1337 | a Timeline tells the case's session at every event: it changes only at a migration, rollback or resume, and those name the session before and after |
| Rulings.ToolsFit | epistemic_harness/harness.py:2331-2349 | no reachable probe is aimed at a tool of the harness, and none that asks the user claims or observed anything outside the user's own domains |
| Rulings.ModelsStaySound | epistemic_harness/harness.py:3292-3384 | every model a reachable case has or had has its texts, one of three standings on each claim, and no grounded claim without citations |
| Rulings.MarkersNamePauses | epistemic_harness/store.py:1299-1320 | the marker of a reachable case names the pause it was set by, since when nothing has happened to the case but moves while paused and failed calls |
| Rulings.OneTarget | epistemic_harness/store.py:305-318 | no session of a reachable world is prepared to continue as two others |
| CrashRuns.BeginIsTransaction | epistemic_harness/store.py:1275-1353 | numbered from the cache, a new journal is the very transition the order of commits gives, so neither a lost nor a rebuilt cache changes what is committed |
| CrashRuns.CrashRunsAreAtomic | epistemic_harness/store.py:1275-1491 | for every run of the crash machine from a blank disk there is an order of commits under which each step is nothing or one atomic transition, and the store's invariant holds on every disk |
| CrashRuns.NumbersOnDisk | epistemic_harness/store.py:596-687 | on every disk of every crashing run the numbers a session has used are 1 up to the highest, each used by one event |
| SystemRuns.StepIsMove | epistemic_harness/store.py:1114-1146 | each step of the machine is nothing to the world its disk stands for, or the one lifecycle move that planned the journal |
| SystemRuns.SystemsAreRuns | epistemic_harness/store.py:1275-1491 | so every disk of every run, with crashes anywhere and the cache lost at any time, stands for a world that a lifecycle run reaches |
| SystemRuns.DisksAreSound | epistemic_harness/store.py:1387-1491 | everything kept by lifecycle moves holds of every disk of every crashing run, and without a pending journal of the files as they lie |
| SystemRuns.OneActiveOnDisk | epistemic_harness/store.py:114-132 | no disk of any crashing run shows two active cases on one session |
| DiskRuns.MoveOnDisk | epistemic_harness/store.py:1275-1491 | from every disk at rest, each accepted lifecycle move can be carried out by journal, recovery writes and the removal of an intent after the commit, and leaves the disk at rest |
| DiskRuns.DisksAreWorlds | epistemic_harness/store.py:1275-1491 | the worlds the disks of crashing runs stand for are exactly the worlds of lifecycle runs |
| Clients.WriteBackIsAtomic | epistemic_harness/store.py:1114-1146 | a write back after anything else was committed to the case is refused; otherwise it is exactly the atomic operation on the case as it now is |
| Clients.TurnRefines | epistemic_harness/store.py:1084-1146 | every client turn leaves the world alone or is one atomic move, and every draft with a current token still tells the truth |
| Clients.ClientsSerialise | epistemic_harness/store.py:1259-1280 | however clients interleave, the shared world has gone through a run of atomic moves |
| Dispatch.AdmitsExactly | epistemic_harness/harness.py:1100-1190 | an invocation claims a committed probe of its tool, is let in if it is part of the call that runs, is blocked otherwise while the probe executes, and passes in every other case |
| Dispatch.TurnKeeps | epistemic_harness/harness.py:1107-1362 | arrival, lease, claim, capture, crash, recovery and discard, interleaved with every other move, keep the dispatch invariant |
| Dispatch.RunnersAlone | epistemic_harness/harness.py:1166-1235 | two actions never run for one case at once, and while one runs its probe stays executing under its call until the result is captured |
| Dispatch.SettleSpares | epistemic_harness/harness.py:2602-2625 | a recovery or discard that succeeds while an action runs finds its result already recorded: it never settles a probe in execution |
| ReEntry.StrangerLetsIn | epistemic_harness/harness.py:1109-1135 | fails: a run in which the action of one case lets an invocation in to the executing probe of another case that nobody runs |
| ReEntry.AdmissionExact | epistemic_harness/harness.py:1109-1135 | a re-entry meets the running dispatch that claimed the probe exactly when an action in flight under its key is of the same case; it does if none is of another case, and where the key is in flight once only if none is |
| ReEntry.ReEntryExact | epistemic_harness/harness.py:1109-1135 | every re-entered frame of every run was let in at some turn, at which that exact condition decides whether it met the running frame of its own case and probe |
| ReEntry.RunnerClaimed | epistemic_harness/harness.py:1166-1235 | a running frame is the one that claimed its probe, at some turn, and has been there ever since |
| ReEntry.ExecutingWasClaimed | epistemic_harness/harness.py:1166-1235 | in every run a probe executes under the tool and call of a claim of its own case |
| ReEntry.DistinctCallsKeepApart | epistemic_harness/harness.py:1109-1135 | when no call of a tool is used for two cases, every re-entry of the run meets the dispatch that claimed the probe |
| Dispatch.ClaimedOnce | epistemic_harness/harness.py:1166-1235 | a claim is the first and only start of its probe |
| Dispatch.HallsSerialise | epistemic_harness/harness.py:1078-1362 | the world under racing calls has gone through a run of atomic moves, so every guarantee holds there too |
| SessionStores.SessionStore.OpenCase | epistemic_harness/store.py:114-171 | the method is the opening move, or refuses as it does |
| SessionStores.SessionStore.FindActive | epistemic_harness/store.py:576-582 | the scan finds the one active case of a session |
| SessionStores.SessionStore.PauseSession | epistemic_harness/store.py:497-534 | the method is the lifecycle pause, or does nothing when no case is active |
| SessionStores.SessionStore.ResumePaused | epistemic_harness/store.py:536-574 | the method is the explicit resume, or refuses as it does |
| SessionStores.SessionStore.FindEligible | epistemic_harness/store.py:924-945 | the scan finds the one case whose marker carries the session's newest number |
| SessionStores.SessionStore.TryAutoResume | epistemic_harness/store.py:689-791 | the method is the resume on a sign of life, or does nothing |
| SessionStores.SessionStore.MigrateLocked | epistemic_harness/store.py:418-454 | the method is the fenced migration, or refuses as it does |
| SessionStores.SessionStore.PrepareCompression | epistemic_harness/store.py:288-319 | the method records exactly the specified intent, or refuses |
| SessionStores.SessionStore.RecoverPrepared | epistemic_harness/store.py:321-365 | the method is the recovery move, or refuses as it does |
| SessionStores.SessionStore.AbortPrepared | epistemic_harness/store.py:385-416 | the method is the rollback move, or refuses as it does |
| SessionStores.SessionStore.IsPristine | epistemic_harness/store.py:910-922 | the scan tells whether any case names the session, now or in its Timeline |
| SessionStores.SessionStore.MigrateLineage | epistemic_harness/store.py:856-908 | the search over the reversed prefix is the adoption move |
| SessionStores.SessionStore.WriteBack | epistemic_harness/store.py:1114-1146 | a client's write back is accepted exactly under the current token |
| SessionStores.SessionStore.TakeLease | epistemic_harness/store.py:1193-1213 | the lease is taken, or refused at once when it is held |
| SessionStores.SessionStore.ReleaseLease | epistemic_harness/store.py:1214-1227 | the lease is let go |
| SessionStores.SessionStore.LeaseIsHeld | epistemic_harness/store.py:1229-1245 | the question is answered as the leases held stand |
| SessionStores.SessionStore.MigrateActive | epistemic_harness/store.py:269-286 | the method is the migration of the one active case, or refuses as it does |
| CaseIndexes.CaseIndex.Refresh | epistemic_harness/case_index.py:19-62 | only files with a new signature are read again, and the derived maps then agree with the entries |
| CaseIndexes.CaseIndex.Select | epistemic_harness/case_index.py:64-74 | whatever has become of the files, the answer is that of a full rescan: the readable cases asked for in order of id, or an error exactly when a damaged file concerns the session |
| CaseIndexes.SelectIsRescan | epistemic_harness/case_index.py:64-74 | after any scans, what the index answers from its entries is what reading every file now would answer |
| CaseIndexes.SortIds | epistemic_harness/case_index.py:74-74 | the ids are listed in the order of their characters |
| CaseIndexes.IndexMirrorsDisk | epistemic_harness/case_index.py:19-62 | after any additions, rewrites, removals and damage the index holds for every file what reading it now would give |
| CaseIndexes.AttributionExact | epistemic_harness/case_index.py:44-56 | a damaged file is attributed to exactly the session that owned it when last readable and those its Timeline named when the damage was read |
| Json.StringRoundTrip | epistemic_harness/store.py:1493-1507 | reading a written string gives it back, escaped or not, surrogate pairs included (section 7 of RFC 8259) |
| Json.ValueRoundTrip | epistemic_harness/store.py:1710-1715 | reading what was written gives the value back and stops right after it, at any depth and in both styles |
| Json.DocumentRoundTrip | epistemic_harness/store.py:1571-1583 | a written document reads back as its value |
| Json.SortingKeepsContent | epistemic_harness/store.py:1493-1507 | writing in key order keeps every key with its value and adds nothing |
| Json.SortingOrders | epistemic_harness/store.py:1493-1507 | the keys of a dictionary are written in strictly increasing order |
| Json.SortedRoundTrip | epistemic_harness/store.py:1493-1507 | a value written with sorted keys reads back as itself with sorted keys |
| Framing.EscapedClean | epistemic_harness/store.py:1493-1507 | string escaping never lets a raw line feed or other control character through |
| Framing.CompactClean | epistemic_harness/store.py:1493-1507 | a compactly written value is one line, and with ASCII escaping printable ASCII |
| Framing.IndentedFramed | epistemic_harness/store.py:1710-1720 | no line of an indented document starts like the end marker |
| Framing.ReadTimeline | epistemic_harness/store.py:1617-1634 | the loop over lines reads exactly the records between line feeds, or nothing when one of them is unreadable |
| Framing.TimelineRoundTrip | epistemic_harness/store.py:1493-1634 | reading a written Timeline gives the same events in order with their keys sorted, whatever text they hold |
| Framing.CaseFileRoundTrip | epistemic_harness/store.py:1571-1761 | reading a written case file gives the record back with its keys sorted, whatever its texts contain and whatever follows the end marker |

## Left out

- Harness decisions are made on values: the source edits a fresh copy of the case
  dictionary and hands it to the store, so no aliasing exists to model.
- `append_event` is not a step: it can record an observation that belongs to no probe.
- Free text of operations (reasons, rationale, predictions, belief change, argument
  drift) and redaction: recorded, never read by a check modelled here.
- Artifact files, their content addresses and their check in replay.
- Prior-case lessons, transfer evidence, the portfolio listing and the case brief.
- The advice client, its request and answer; an offer is an arbitrary answer.
- The middleware's argument digests: a mismatch is recorded and blocks nothing but a
  nested re-entry with other arguments.
- Native capture context: a capture is any capture that finds its own probe
  executing, and an exposure any exposure of the observed probe.
- Timestamps: `created_at` and `updated_at` are not part of the record; the write
  token is `runtime_revision`.
- Directory creation and its clean-up before a first journal; file locks, deadlines
  and fsync: the store lock is atomicity, the lease a set of held cases.
- A waiver and the decision it permits are two moves here; the calibration of a close
  is computed on the Timeline the decision reads, after a waiver if there is one.
- A call for advice records at most one failure, after its own start, and after its
  offer only a failed write; that is how the call runs, so here it is a guard.
- Cooldown and expiry take the time that the caller read; only the runs of `Closing`
  relate it to the times of events, there the clock never goes back.
- Offer ids are assumed new, as the source draws them at random.
- Json.ValueRoundTrip: numbers are kept as literals and lone surrogates are not
  characters.
- Journals, intents and case ids that are malformed as text: the checks modelled
  start from their parsed fields.
