# Verified model of the odds collection service

This project models how the backend collects, matches, diffs, stores and forwards
bookmakers' odds, and proves what its components promise over every input, every run
and every interleaving. `dafny verify dfyconfig.toml` checks all of it.

Code that works step by step is modelled by classes and methods with the source's fields
and loops. Each method is proved against a specification function, and the theorems are
about those functions. Concurrent components are state machines whose steps are the
stretches of code between two awaits. The objects of the scheduler, the commit section,
both joined, the journal, the outbox and the leases carry a ghost list of the steps taken,
so every theorem about runs is one about the object; the agent's and the repository's
methods are single transitions that keep the invariant.

| files | component |
|---|---|
| `SchedulerModel`, `SchedulerInvariants`, `SchedulerTrace`, `SchedulerRuns`, `SchedulerOutcomes`, `SchedulerPolicy`, `AdaptiveScheduler` | the adaptive scheduler: transition function, invariant, rules on traces, runs, further outcomes, the times it sets and the jobs it picks, and the class |
| `StuckDetails`, `StuckRun` | details that never run again: exactly which steps lead there, and a run that does |
| `CommitSection`, `IngestionCommit` | the promise-tail lock as a state machine; the service object and `scheduledOperation` |
| `CollectionRuns`, `CollectionService` | scheduler and commit section run together through the execute callback; the object that joins them |
| `TeamNames`, `Matching`, `MatchingLaws`, `MatchingMeaning`, `MatchingComponents` | name similarity; the matching algorithm, its conservation and well-formedness, what its answer says of the listed events, and its meaning as connected components |
| `DataIssues`, `Reconciliation`, `ReconciliationLaws`, `ReconciliationIdentity`, `MatchingReconciliation`, `MatchingRepository` | issues, the folding of a matching result into stored matches, decisions and names, which identity a group gets, its translation from the matcher's answer, and the transaction |
| `PublicationCommit`, `PublicationRecord`, `JournalBaselines`, `Delivery`, `RemotePersistence` | the server's transaction, what it records and what it accepts over whole histories, the extension's outbox and sender, the agent's file outbox |
| `MarketChanges`, `MarketJournal`, `JournalAcceptance` | the market diff, the append-only journal, and what it accepts and logs |
| `BlazeFeed`, `BlazeMerge`, `BlazeListing`, `BlazeProjection`, `BlazePreservation`, `BlazeDetail`, `BlazeParser` | Blaze snapshots: the specification, what merge, listing and projection contain field by field, preservation under projection, single events, and the loops |
| `Bet365Records`, `CouponStructure`, `CouponGroups`, `DecimalOdds` | bet365 framing, coupon decoder, where its markets lie, and fractional odds |
| `MarketAnalytics`, `MarketGroups`, `AnalysisResults`, `FairPrices` | comparison of prices; which markets are compared; what a result reports; fair prices and value bets |
| `CdpLease` | the shared browser connection |
| `Domain`, `OrderedMaps`, `Texts` | shared types, insertion-ordered maps, splitting and ordering of strings |

## Results that differ from what one might expect

- Eligibility is not symmetric: the second alias case reads the equal team on opposite
  sides and compares the other two in one direction only. `Matching.SymmetryCondition`
  gives the exact pairs; for two such events, and only for such, their order decides
  whether they match (`MatchingComponents.PairOrderSensitive`).
- A detail with a failure on record that is recalculated while it is barred never runs
  again, even when its event is rescheduled. `StuckDetails.StuckIff` names every step that
  leads there, `StuckDetails.StuckNeverLaunched` says that no launch follows while its
  entry lives, and `StuckRun.ReachesStuck` is a run that does it to an eligible event.
  docs/COLLECTION.md says that a later start lets a stopped detail be evaluated again; the
  code does so only if the detail has no failures on record.
- A publication replaces its envelope's journal observations as a whole, so an old
  observation can be accepted after a newer one (`PublicationCommit.BaselineDisappears`).
  `JournalBaselines.StaleAcceptedIff` says exactly when: every envelope has dropped the
  journal scope or set it back. Where envelopes keep their scopes the accepted times
  increase (`JournalBaselines.AcceptedTimesIncrease`). Convergence holds per envelope scope.
- A queued publication that the server can never accept blocks the outbox for good
  (`Delivery.InvalidHeadBlocks`).
- Projecting a Blaze snapshot changes the answer for an event of another sport that has
  begun (`BlazeDetail.ProjectionPreservesDetail`, `BlazeDetail.ForeignEventDiffers`).
- The diff does not report selections added to or removed from a surviving market, nor
  suspension changes from or to unknown (`MarketChanges.SilentIff`).
- The agent's files are ordered by millisecond, then by random identifier, so only the
  order across different milliseconds is promised (`RemotePersistence.PostedInStampOrder`).

## Assumptions

- One clock, read once per synchronous step, that does not go back. Timers may fire at any
  moment at which the source leaves them armed.
- Serialised equality and hashes agree with equality of values; run identifiers are fresh, and different clients' identifiers differ.
- A time is its instant: texts that denote the same instant count as equal. Comparison of
  ISO texts is comparison of instants.
- Provider names hold no colon and canonical names no vertical bar, so joined keys are
  pairs. Names are sequences of words; canonicalisation is a parameter. Stored names and
  identifiers are not empty.
- `localeCompare` orders by code units.
- A collector throws the event-started error only for details (the scheduler relies on it).
- A database transaction is one atomic update.

## Model

| member | source | states |
|---|---|---|
| AdaptiveScheduling.AdaptiveScheduler.Start | apps/odds-service/src/modules/collection/adaptive-scheduler.ts:102-116 | Starting arms every listing after the startup delay, once; a started or stopping scheduler is left alone. The new state is that of the transition function whose runs are analysed below. |
| AdaptiveScheduling.AdaptiveScheduler.Recalculate | apps/odds-service/src/modules/collection/adaptive-scheduler.ts:129-148 | The in-place pass over all schedule objects equals recalculating each independently; `SchedulerPolicy.RecalculatedDetails` says band by band what that sets. |
| AdaptiveScheduling.AdaptiveScheduler.EarliestDue | apps/odds-service/src/modules/collection/adaptive-scheduler.ts:171-177 | The search finds the due detail that precedes every other by start, then identifier, or finds that none is due. |
| AdaptiveScheduling.AdaptiveScheduler.Launch | apps/odds-service/src/modules/collection/adaptive-scheduler.ts:190-207 | A launch marks the attempt, takes the provider's slot and enters the job table; a job already there is not launched again. |
| AdaptiveScheduling.AdaptiveScheduler.Serve | apps/odds-service/src/modules/collection/adaptive-scheduler.ts:153-188 | One provider's turn: skipped when busy or cooling, a probe after a cooldown, else the listing, else the earliest due detail. |
| AdaptiveScheduling.AdaptiveScheduler.Tick | apps/odds-service/src/modules/collection/adaptive-scheduler.ts:149-189 | The tick loop over all providers equals the tick of the transition function. |
| AdaptiveScheduling.AdaptiveScheduler.Reconcile | apps/odds-service/src/modules/collection/adaptive-scheduler.ts:321-363 | The two loops over catalog and listing equal replacing the provider's share of catalog and schedule at once. |
| AdaptiveScheduling.AdaptiveScheduler.RestoreCatalog | apps/odds-service/src/modules/collection/adaptive-scheduler.ts:311-320 | Restores every provider's catalog, or fails and changes nothing on a scheduler that runs or has jobs. |
| AdaptiveScheduling.AdaptiveScheduler.BeginCommit | apps/odds-service/src/modules/collection/adaptive-scheduler.ts:225-229 | The commit callback succeeds iff the job's signal is not aborted, and then shields the job from its timer. |
| AdaptiveScheduling.AdaptiveScheduler.FireTimeout | apps/odds-service/src/modules/collection/adaptive-scheduler.ts:208-213 | The timer aborts a job that has not begun to commit. |
| AdaptiveScheduling.AdaptiveScheduler.RequestStop | apps/odds-service/src/modules/collection/adaptive-scheduler.ts:367-374 | Stopping disables the scheduler. |
| AdaptiveScheduling.AdaptiveScheduler.EndGrace | apps/odds-service/src/modules/collection/adaptive-scheduler.ts:383-384 | After the grace period exactly the jobs that are not committing are aborted. |
| AdaptiveScheduling.AdaptiveScheduler.Complete | apps/odds-service/src/modules/collection/adaptive-scheduler.ts:231-308 | A settled job is credited, stopped, cancelled or penalised, and always leaves the table. |
| AdaptiveScheduling.AdaptiveScheduler.Perform | apps/odds-service/src/modules/collection/adaptive-scheduler.ts:71-390 | Any interleaving of the steps on the mutable object is a legal run; the invariant and the trace rules hold after every step. |
| SchedulerRuns.RunSound | apps/odds-service/src/modules/collection/adaptive-scheduler.ts:149-390 | Over every run of every step: the state invariant holds, the trace is admissible, and the state reflects the trace. |
| SchedulerRuns.RunSafe | apps/odds-service/src/modules/collection/adaptive-scheduler.ts:149-390 | The same as invariant plus admissible trace, for use by the theorems about traces. |
| SchedulerInvariants.TickInv | apps/odds-service/src/modules/collection/adaptive-scheduler.ts:149-189 | A tick keeps the invariant. |
| SchedulerInvariants.CompleteInv | apps/odds-service/src/modules/collection/adaptive-scheduler.ts:220-309 | The end of a job, however it ends, keeps the invariant. |
| SchedulerInvariants.RestoreCatalogInv | apps/odds-service/src/modules/collection/adaptive-scheduler.ts:311-363 | Restoring catalogs keeps the invariant. |
| SchedulerInvariants.ActiveJobsCounts | apps/odds-service/src/modules/collection/adaptive-scheduler.ts:196-207 | `activeJobs` is the number of the provider's jobs in the table, and at most one. |
| SchedulerInvariants.RunningIffInTable | apps/odds-service/src/modules/collection/adaptive-scheduler.ts:199-207 | A listing or detail is marked running iff its job is in the table. |
| SchedulerTrace.CircuitBreaker | apps/odds-service/src/modules/collection/adaptive-scheduler.ts:154-169 | No job of a provider starts before a cooldown ends; the first one after it is a listing. |
| SchedulerTrace.ListingBeforeDetail | apps/odds-service/src/modules/collection/adaptive-scheduler.ts:280-290 | Between a failure that closes the context and the next detail there is a successful listing of that provider. |
| SchedulerTrace.NoOverlap | apps/odds-service/src/modules/collection/adaptive-scheduler.ts:155-158 | Jobs of one provider never overlap. |
| SchedulerTrace.SpacingWithoutFailure | apps/odds-service/src/modules/collection/adaptive-scheduler.ts:136-146 | Between two launches of a detail with no failure of it in between, however the first attempt ended, lies at least the interval of the band of the second: over 24 hours ahead, 6 to 24, 1 to 6, or below 1. |
| SchedulerTrace.SpacingAfterFailure | apps/odds-service/src/modules/collection/adaptive-scheduler.ts:285-287 | After the n-th failure in a row the next launch of the same detail waits at least the n-th backoff step, or the last one. |
| SchedulerOutcomes.LaunchSpacing | apps/odds-service/src/modules/collection/adaptive-scheduler.ts:136-287 | Over every run, both cases for consecutive launches of a catalogued detail, read off the trace: the interval of its band, spelled out by hours ahead, where the attempt did not fail; the step for its failures in a row where it did. |
| SchedulerModel.DetailIntervalBands | apps/odds-service/src/modules/collection/scheduling-policy.ts:4-15 | There is an interval iff the start is known and ahead; which one, by milliseconds, with exactly 24 and 6 hours in the band between and exactly one hour in the band above it. |
| SchedulerModel.BackoffSteps | apps/odds-service/src/modules/collection/scheduling-policy.ts:16-18 | The n-th failure waits the n-th step, any later one the last. |
| SchedulerPolicy.RecalculatedDetails | apps/odds-service/src/modules/collection/adaptive-scheduler.ts:129-148 | Recalculation changes next runs only: none for a stopped detail or one whose event is not ahead; unchanged with failures on record; now, or as scheduled, if never attempted; otherwise the last attempt plus the interval of the band, band by band. |
| SchedulerPolicy.ListingReplaces | apps/odds-service/src/modules/collection/adaptive-scheduler.ts:321-363 | After a listing a provider's catalog and schedule have exactly the listed identifiers, each with its last listed state; other providers keep theirs. |
| SchedulerPolicy.NewDetailIsDue | apps/odds-service/src/modules/collection/adaptive-scheduler.ts:321-363 | An event listed for the first time has no attempt, failure or stop on record and is due at once iff it can still be collected. |
| SchedulerPolicy.KnownDetailKept | apps/odds-service/src/modules/collection/adaptive-scheduler.ts:321-363 | One listed again keeps its attempts, and keeps a stop iff its start did not move. |
| SchedulerPolicy.TurnLaunches | apps/odds-service/src/modules/collection/adaptive-scheduler.ts:153-188 | A provider without job and cooldown launches its due listing; else, with its context ready, the due detail that starts first, then by identifier; else nothing. |
| SchedulerPolicy.DetailCredited | apps/odds-service/src/modules/collection/adaptive-scheduler.ts:232-250 | A detail that succeeds loses its failures and is due one interval of its band after its launch, or never once its event has begun. |
| SchedulerPolicy.ListingCredited | apps/odds-service/src/modules/collection/adaptive-scheduler.ts:232-250 | A listing that succeeds is due one listing interval after its launch, readies the provider and clears its failures and cooldown. |
| SchedulerPolicy.DetailPenalised | apps/odds-service/src/modules/collection/adaptive-scheduler.ts:272-292 | A detail that fails has one failure more and is due after the step for that many; the provider's counter, cooldown, context and discovery change as stated. |
| SchedulerPolicy.ListingPenalised | apps/odds-service/src/modules/collection/adaptive-scheduler.ts:272-292 | A listing that fails closes the context and is due after its own step. |
| SchedulerTrace.CircuitOpensIff | apps/odds-service/src/modules/collection/adaptive-scheduler.ts:279-292 | A failure opens the circuit, for exactly the cooldown, iff it is at least the threshold-th of its provider since that provider last succeeded. |
| SchedulerTrace.CommitExcludesAbort | apps/odds-service/src/modules/collection/adaptive-scheduler.ts:225-231 | Within one launch a job that begins to commit is never aborted, and an aborted one never begins to commit. |
| SchedulerTrace.NoLaunchAfterStop | apps/odds-service/src/modules/collection/adaptive-scheduler.ts:150-150 | Nothing is launched after a stop was requested. |
| SchedulerOutcomes.RunChronological | apps/odds-service/src/modules/collection/adaptive-scheduler.ts:149-390 | A run's trace is in time order. |
| SchedulerOutcomes.StopReturnsDrained | apps/odds-service/src/modules/collection/adaptive-scheduler.ts:364-390 | Once stopping, when every job of that moment has ended there is no job at all: `stop` returns with an empty table and a disabled scheduler. |
| SchedulerOutcomes.EligibleScheduledIff | apps/odds-service/src/modules/collection/adaptive-scheduler.ts:129-148 | An eligible, unstopped detail has a next run after recalculation iff it has no failures or already had one. |
| SchedulerOutcomes.IneligibleFailureSticks | apps/odds-service/src/modules/collection/adaptive-scheduler.ts:129-148 | A failed detail recalculated while ineligible loses its next run, and recalculation never restores it. |
| StuckDetails.StuckIff | apps/odds-service/src/modules/collection/adaptive-scheduler.ts:129-270 | A step after which a detail still has its schedule entry leaves it stuck (idle, with failures and no next run) iff it was stuck or the step is one of these: a tick, successful listing or restore that finds it failed and barred, or its own end by event-started with a failure on record, or by a shutdown that cancels an attempt already barred. |
| StuckDetails.StuckBySteps | apps/odds-service/src/modules/collection/adaptive-scheduler.ts:129-270 | Over a whole run in which its entry lives, a detail is stuck at the end iff it was at the beginning or some step made it so. |
| StuckDetails.StuckNeverLaunched | apps/odds-service/src/modules/collection/adaptive-scheduler.ts:129-189 | After a detail got stuck the trace holds no further launch of it while its entry lives. |
| StuckRun.ReachesStuck | apps/odds-service/src/modules/collection/adaptive-scheduler.ts:129-148 | A legal run, given move by move, ends with a listed, eligible, unstopped event whose detail is stuck. |
| StuckRun.NeverRunsAgain | apps/odds-service/src/modules/collection/adaptive-scheduler.ts:129-189 | However that run goes on, the event's detail is not launched while its entry lives. |
| SchedulerOutcomes.StuckForever | apps/odds-service/src/modules/collection/adaptive-scheduler.ts:129-148 | In every run a detail that got stuck stays stuck while its schedule object lives. |
| SchedulerOutcomes.NextUnique | apps/odds-service/src/modules/collection/adaptive-scheduler.ts:171-177 | At most one detail comes first. |
| SchedulerOutcomes.NextExists | apps/odds-service/src/modules/collection/adaptive-scheduler.ts:171-177 | If a detail is due, one comes first. |
| SchedulerOutcomes.TickServes | apps/odds-service/src/modules/collection/adaptive-scheduler.ts:153-188 | An idle provider out of cooldown gets its due listing launched, else, if ready, its earliest due detail. |
| IngestionCommit.IngestionCommitService.Begin | apps/odds-service/src/modules/collection/ingestion-commit.service.ts:17-21 | A new run becomes its provider's current one, and was not so before. |
| IngestionCommit.IngestionCommitService.Enter | apps/odds-service/src/modules/collection/ingestion-commit.service.ts:29-36 | Entering appends a frame behind the provider's tail. |
| IngestionCommit.IngestionCommitService.Resume | apps/odds-service/src/modules/collection/ingestion-commit.service.ts:36-41 | A frame whose turn has come enters iff the signal it is given is not aborted and its run is current; otherwise it fails. `CollectionService.Collector.TakeTurn` gives it the signal of the job and calls back the scheduler. |
| IngestionCommit.IngestionCommitService.Publish | apps/odds-service/src/modules/collection/ingestion-commit.service.ts:49-49 | The next publication starts. |
| IngestionCommit.IngestionCommitService.Published | apps/odds-service/src/modules/collection/ingestion-commit.service.ts:49-61 | A settled publication continues, ends or fails the frame; the end releases the tail. |
| IngestionCommit.IngestionCommitService.Finish | apps/odds-service/src/modules/collection/ingestion-commit.service.ts:64-67 | Finishing forgets the run if it is still the current one. |
| CommitSection.RunInv | apps/odds-service/src/modules/collection/ingestion-commit.service.ts:23-62 | Over every interleaving of calls: frames are chained per provider, run in order, and tails point at the last unfinished frame. |
| CommitSection.PublicationsAreSerial | apps/odds-service/src/modules/collection/ingestion-commit.service.ts:29-61 | What a provider's publications did, in time order, is the concatenation of the frames' blocks in order of entry, each block in order and stopped by its first failure. |
| CommitSection.FirstInFirstOut | apps/odds-service/src/modules/collection/ingestion-commit.service.ts:29-36 | A frame leaves the queue only after every earlier frame of its provider has ended. |
| CommitSection.SupersededPublishesNothing | apps/odds-service/src/modules/collection/ingestion-commit.service.ts:39-40 | A run superseded before it got the lock never publishes anything, whatever happens later. |
| CommitSection.TurnDecides | apps/odds-service/src/modules/collection/ingestion-commit.service.ts:37-41 | At its turn a frame publishes iff the signal is not aborted and its run is current; otherwise it ends having done nothing. `CollectionRuns.TurnDecides` joins signal and callback with the scheduler. |
| CommitSection.NoDeadlock | apps/odds-service/src/modules/collection/ingestion-commit.service.ts:29-61 | While a frame is unfinished, some unfinished frame at or before it is unblocked. |
| CommitSection.TailsAreLive | apps/odds-service/src/modules/collection/ingestion-commit.service.ts:57-61 | The tail map holds exactly the providers with an unfinished frame. |
| CollectionService.Collector.Advance | apps/odds-service/src/modules/collection/collection.service.ts:58-84 | A step of the scheduler alone leaves the commit section alone, as one step of a joint run. |
| CollectionService.Collector.Operate | apps/odds-service/src/modules/collection/collection.service.ts:63-67 | The execute callback begins a run for a job of the table. |
| CollectionService.Collector.EnterSection | apps/odds-service/src/modules/collection/scheduled-operation.ts:22-52 | A job whose signal is not aborted enters the commit section with its publications. |
| CollectionService.Collector.TakeTurn | apps/odds-service/src/modules/collection/ingestion-commit.service.ts:36-49 | At its turn a frame reads its job's own signal; it enters iff that is not aborted and the run is current, and entering calls the scheduler's commit callback in the same step. |
| CollectionService.Collector.StartPublication | apps/odds-service/src/modules/collection/ingestion-commit.service.ts:49-49 | The next publication of an entered frame starts. |
| CollectionService.Collector.EndPublication | apps/odds-service/src/modules/collection/ingestion-commit.service.ts:49-61 | It settles, and the frame goes on, ends or fails. |
| CollectionService.Collector.Settle | apps/odds-service/src/modules/collection/collection.service.ts:78-81 | The execution's end finishes its run and hands the outcome to the scheduler. |
| CollectionRuns.RunInv | apps/odds-service/src/modules/collection/collection.service.ts:58-84 | Over every interleaving of scheduler and commit section, with callers outside the scheduler too, executions, frames and jobs stay linked. |
| CollectionRuns.ComponentsRun | apps/odds-service/src/modules/collection/collection.service.ts:58-84 | Each component of a joint run is in a state of one of its own runs, so every theorem about either holds of both together. |
| CollectionRuns.ExecutionsAreLaunches | apps/odds-service/src/modules/collection/adaptive-scheduler.ts:190-231 | Every execution belongs to one launch in the trace. |
| CollectionRuns.AbortedPublishesNothing | apps/odds-service/src/modules/collection/ingestion-commit.service.ts:36-41 | A job aborted at any moment of a launch publishes nothing in that launch, before or ever after. |
| CollectionRuns.PublishingJobCommits | apps/odds-service/src/modules/collection/ingestion-commit.service.ts:36-49 | While an execution publishes, its job is in the table, committing and not aborted. |
| CollectionRuns.TurnDecides | apps/odds-service/src/modules/collection/ingestion-commit.service.ts:37-41 | A frame's turn publishes, and its job commits, iff the job's signal is not aborted and the run is not superseded; otherwise the frame ends empty and the scheduler is unchanged. |
| CollectionRuns.StopLeavesNoFrame | apps/odds-service/src/modules/collection/adaptive-scheduler.ts:364-390 | Once stopping, when the jobs of that moment have ended, no execution's frame waits or publishes. |
| IngestionCommit.ScheduledOperation | apps/odds-service/src/modules/collection/scheduled-operation.ts:10-77 | For any answers of collector, signal, section and store: the commit section is entered iff no abort was seen first and the result is well formed, of the right event and not started; the job succeeds iff it also committed and every event is stored as fresh; the session is closed exactly on the listed failures. |
| IngestionCommit.IsWellFormed | apps/odds-service/src/modules/collection/scheduled-operation.ts:29-40 | Accepts exactly the results with own, distinct, requested and timed events. |
| IngestionCommit.Confirm | apps/odds-service/src/modules/collection/scheduled-operation.ts:63-67 | Accepts iff every collected event is stored at least as fresh. |
| IngestionCommit.OperationIsPossible | apps/odds-service/src/modules/collection/scheduled-operation.ts:22-76 | Jobs run this way give the scheduler the guarantees its runs assume. |
| CollectionService.OperationFits | apps/odds-service/src/modules/collection/scheduled-operation.ts:10-77 | When the operation sees its job's own signal, what it does are steps of a joint run: it may enter the section, or end, exactly where the run allows it. |
| Matching.IsEligible | apps/odds-service/src/modules/matching/matching.ts:66-91 | The pairwise test, alias candidates included with their asymmetric second case. |
| Matching.SymmetryCondition | apps/odds-service/src/modules/matching/matching.ts:36-91 | The test is symmetric for a pair iff the pair is not a crossed alias. |
| Matching.CollectEvents | apps/odds-service/src/modules/matching/matching.ts:110-116 | The deduplication loop. |
| Matching.CollectConflicts | apps/odds-service/src/modules/matching/matching.ts:110-116 | A key is in conflict iff two covered observations of it disagree; every other covered observation is kept. |
| Matching.GrowGroup | apps/odds-service/src/modules/matching/matching.ts:137-144 | The growing worklist terminates and yields the group of its first event. |
| Matching.IsValid | apps/odds-service/src/modules/matching/matching.ts:145-151 | A group is valid iff it has at least two events, one per provider, no conflict, and every event is eligible with each later one. |
| Matching.MatchListing | apps/odds-service/src/modules/matching/matching.ts:124-170 | The main loop compares the valid groups and rejects the members of all others with their reasons. |
| Matching.CompareAllProviders | apps/odds-service/src/modules/matching/matching.ts:93-172 | The whole comparison equals its specification; `MatchingMeaning` says in terms of the listed events what its matches, reasons and exclusions are. |
| MatchingLaws.GroupLaws | apps/odds-service/src/modules/matching/matching.ts:137-144 | A group starts with its event, takes unseen events only, each found by an earlier member, and is closed under eligibility up to seen events. |
| MatchingLaws.GroupsPartition | apps/odds-service/src/modules/matching/matching.ts:135-144 | The groups partition the events: every event is in exactly one. |
| MatchingLaws.Conservation | apps/odds-service/src/modules/matching/matching.ts:110-171 | Every covered provider event appears exactly once across matched, unmatched and not applicable, and nothing else appears. |
| MatchingLaws.MatchedWellFormed | apps/odds-service/src/modules/matching/matching.ts:145-152 | Field by field, of a match and its group: esport, canonical tournament and start of the first event; the span is the largest difference of two starts, at most 300 seconds; one entry per provider with its own event, start and side flag; one competition whenever starts differ; the score. |
| MatchingLaws.MatchedGroups | apps/odds-service/src/modules/matching/matching.ts:145-152 | Every reported match compares one valid group of covered input events, and says of it all that well-formedness lists. |
| MatchingMeaning.EligibleMeans | apps/odds-service/src/modules/matching/matching.ts:28-91 | Two listings are one fixture iff different providers list it for one esport before it begins and either the two teams agree, at one time or in one competition within five minutes, or in such a case one team is equal and the other spelled similarly, one way round. |
| MatchingMeaning.MatchMeans | apps/odds-service/src/modules/matching/matching.ts:110-152 | Every match compares undisputed covered events, one per provider and each of one fixture with every later one, and is well formed. |
| MatchingMeaning.UnmatchedReasons | apps/odds-service/src/modules/matching/matching.ts:153-169 | An unmatched event is ambiguous iff its group has others or its key is disputed; a time or status mismatch iff it is alone, undisputed and another provider lists the same two teams; without a team pair iff none does. |
| MatchingMeaning.NotApplicableMeans | apps/odds-service/src/modules/matching/matching.ts:117-134 | Matching does not apply to a key iff fewer than two providers cover the esport of its last observation. |
| MatchingComponents.GroupSetsAreComponents | apps/odds-service/src/modules/matching/matching.ts:135-144 | Under symmetry the groups are exactly the connected components. |
| MatchingComponents.ValidIsSetProperty | apps/odds-service/src/modules/matching/matching.ts:145-151 | Under symmetry a component is matched iff it is a clique of at least two with distinct providers and no conflict, whatever its order. |
| MatchingComponents.CompareByComponents | apps/odds-service/src/modules/matching/matching.ts:93-172 | Without conflicts and crossed aliases the result, as sets, is a function of the set of contested events. |
| MatchingComponents.OrderIndependence | apps/odds-service/src/modules/matching/matching.ts:93-172 | Any two listings of the same observations give the same matched, unmatched and not-applicable sets. |
| MatchingComponents.PairOrderSensitive | apps/odds-service/src/modules/matching/matching.ts:47-64 | For two events the result is the same in both orders iff the pair is not a crossed alias. |
| MatchingComponents.ReversedSidesDependOnOrder | apps/odds-service/src/modules/matching/matching.ts:47-64 | Two concrete listings that match in one order and not in the other. |
| TeamNames.OneEditTeamName | apps/odds-service/src/modules/matching/team-aliases.ts:85-113 | True iff exactly one word differs, both forms have at least five letters, and their Levenshtein distance is exactly one. |
| TeamNames.OneLetterScan | apps/odds-service/src/modules/matching/team-aliases.ts:104-112 | The greedy scan with two indices decides whether one word is the other with one letter dropped. |
| TeamNames.LevOneLetter | apps/odds-service/src/modules/matching/team-aliases.ts:104-112 | For lengths one apart, distance one means one dropped letter. |
| TeamNames.LevSubstitution | apps/odds-service/src/modules/matching/team-aliases.ts:99-103 | For equal lengths, distance one means one differing letter. |
| TeamNames.OneEditSymmetric | apps/odds-service/src/modules/matching/team-aliases.ts:85-113 | The test is symmetric. |
| TeamNames.InflectedSymmetric | apps/odds-service/src/modules/matching/team-aliases.ts:68-82 | The plural test is symmetric. |
| TeamNames.InflectedMeans | apps/odds-service/src/modules/matching/team-aliases.ts:68-82 | True iff one word of several differs and there one name adds a final s, making five letters or more. |
| TeamNames.InflectedIsOneEdit | apps/odds-service/src/modules/matching/team-aliases.ts:68-113 | Plural pairs are one-edit pairs exactly when both words have at least five letters. |
| TeamNames.AbbreviatedTeamName | apps/odds-service/src/modules/matching/team-aliases.ts:45-65 | The search over all split points equals testing the single split at `long.length - short.length + 1`. |
| TeamNames.AbbreviatedMeans | apps/odds-service/src/modules/matching/team-aliases.ts:45-65 | Letter by letter: the short name ends as the long one does, and its first word is the long name's first word followed by the first letter of each word left out. |
| TeamNames.AbbreviationIsOneWay | apps/odds-service/src/modules/matching/team-aliases.ts:45-65 | No two names abbreviate each other. |
| TeamNames.SimilarSymmetric | apps/odds-service/src/modules/matching/matching.ts:58-62 | The disjunction used by alias candidates is symmetric in its two names. |
| MatchingRepository.Repository.Reconcile | apps/odds-service/src/modules/persistence/repositories/matching.repository.ts:13-279 | The transaction matches the listed events and folds the answer in by its loops; it equals the specification, keeps the invariant, and where a matched event has no row it fails and changes nothing. |
| MatchingRepository.Repository.SettleGroup | apps/odds-service/src/modules/persistence/repositories/matching.repository.ts:88-234 | One matched group: identity chosen, conflict withheld, names learned, canonical event written, members joined; `ReconciliationIdentity` says which identity, by the stored rows and decisions. |
| MatchingRepository.Repository.LearnNames | apps/odds-service/src/modules/persistence/repositories/matching.repository.ts:136-173 | The alias loop adds names and overwrites none. |
| MatchingRepository.Repository.JoinMember | apps/odds-service/src/modules/persistence/repositories/matching.repository.ts:194-233 | One member's row, decision and issue. |
| MatchingRepository.Repository.PartEvent | apps/odds-service/src/modules/persistence/repositories/matching.repository.ts:235-278 | One unmatched event's row, decision and issue. |
| MatchingRepository.Repository.DismissEvent | apps/odds-service/src/modules/persistence/repositories/matching.repository.ts:81-87 | One not-applicable event: issue resolved, an unmatched row dropped, manual rows untouched. |
| ReconciliationLaws.ReconcileInv | apps/odds-service/src/modules/persistence/repositories/matching.repository.ts:81-278 | Folding any result that names each row once keeps: an open unmatched issue means an unmatched row, an unmatched row has its issue open or ignored, the last decision agrees with a non-manual row; rows outside the result, manual rows and stored names do not change. |
| ReconciliationLaws.ReconcileStores | apps/odds-service/src/modules/persistence/repositories/matching.repository.ts:88-278 | After folding such a result unmatched events carry their reason; each group is joined under the identity its members had, a new one if they had none, or, where two members had different ones, keeps its rows and has conflict issues. |
| ReconciliationLaws.HadIff | apps/odds-service/src/modules/persistence/repositories/matching.repository.ts:103-118 | The identity a member had is that of its own match row, else that of its last decision naming one, if that canonical event is of the same esport and teams and starts within five minutes. |
| ReconciliationIdentity.IdentityKept | apps/odds-service/src/modules/persistence/repositories/matching.repository.ts:110-234 | A group whose rows are all matched under one identity keeps it, however far its start has moved, and gives it the group's data. |
| ReconciliationIdentity.DivisionWithheld | apps/odds-service/src/modules/persistence/repositories/matching.repository.ts:119-135 | Where two members' rows are matched under different identities no row of the group changes and each gets a conflict issue. |
| ReconciliationIdentity.IdentityNew | apps/odds-service/src/modules/persistence/repositories/matching.repository.ts:174-193 | A group none of whose rows and decisions names an identity gets a new one with its data. |
| MatchingReconciliation.AnswerOnce | apps/odds-service/src/modules/persistence/repositories/matching.repository.ts:57-81 | What the matcher answers names every row at most once, and exactly the rows of the covered events. |
| MatchingReconciliation.ReconcileListingInv | apps/odds-service/src/modules/persistence/repositories/matching.repository.ts:57-278 | For every listing the whole transaction goes through if every covered event is stored, and then keeps the invariant of `ReconciliationLaws.ReconcileInv` and touches only rows of covered events. |
| MatchingReconciliation.ReconcileListingStores | apps/odds-service/src/modules/persistence/repositories/matching.repository.ts:57-278 | For every listing: unmatched events end unmatched with the matcher's reason, events of a single provider lose their unmatched row, and the rows of each match are joined under the identity they had, a new one if none, or withheld with conflict issues where they had several. |
| MatchingReconciliation.StoredGroup | apps/odds-service/src/modules/persistence/repositories/matching.repository.ts:57-193 | The group stored for a match is that of its listed events: esport, canonical tournament and start of the first, the rows of all, and the reason by whether starts, or only competitions, differ. |
| MatchingReconciliation.ThrowsIff | apps/odds-service/src/modules/persistence/repositories/matching.repository.ts:89-92 | The transaction throws iff some compared event has no row. |
| ReconciliationLaws.SettleInv | apps/odds-service/src/modules/persistence/repositories/matching.repository.ts:88-234 | The same for one group at its turn. |
| ReconciliationLaws.LearnKeeps | apps/odds-service/src/modules/persistence/repositories/matching.repository.ts:136-173 | A stored alias never changes its canonical name. |
| DataIssues.IssuesRepository.OpenIssue | apps/odds-service/src/modules/persistence/repositories/issues.repository.ts:22-60 | Opening creates, reopens or leaves an ignored issue. |
| DataIssues.IssuesRepository.Move | apps/odds-service/src/modules/persistence/repositories/issues.repository.ts:61-77 | A transition changes status and appends history, or does nothing. |
| DataIssues.OpenedCoherent | apps/odds-service/src/modules/persistence/repositories/issues.repository.ts:22-60 | After opening, the issue is open, or ignored iff it was; its history never repeats a status, ends in the current one and only grows. |
| DataIssues.MovedCoherent | apps/odds-service/src/modules/persistence/repositories/issues.repository.ts:61-77 | The same for a transition, which ends in the asked status. |
| DataIssues.ReopeningIsQuiet | apps/odds-service/src/modules/persistence/repositories/issues.repository.ts:47-58 | Opening twice adds one history entry. |
| Delivery.Outbox.Enqueue | apps/odds-collector-extension/src/outbox.ts:18-39 | Appends to the queue, or fails on an oversized publication or a full outbox and changes nothing. |
| Delivery.Outbox.First | apps/odds-collector-extension/src/outbox.ts:41-56 | The cursor meets the head of the queue. |
| Delivery.Outbox.Remove | apps/odds-collector-extension/src/outbox.ts:58-70 | Deleting a key; deleting the oldest pops the head. |
| Delivery.Outbox.Count | apps/odds-collector-extension/src/outbox.ts:72-84 | The number waiting. |
| Delivery.Publisher.Queue | apps/odds-collector-extension/src/publisher.ts:48-51 | A publication is queued, or refused, as one step of a run. |
| Delivery.Publisher.StartFlush | apps/odds-collector-extension/src/publisher.ts:53-58 | A flush starts, or joins the one under way. |
| Delivery.Publisher.ReadOldest | apps/odds-collector-extension/src/publisher.ts:63-86 | A round reads the head and sends it, or ends the flush. |
| Delivery.Publisher.Deliver | apps/odds-service/src/modules/persistence/persistence.service.ts:77-255 | A request, on time or late or repeated, is committed by the service. |
| Delivery.Publisher.ServeOther | apps/odds-service/src/modules/persistence/persistence.service.ts:77-255 | Another client's publication is committed by the same service, as one step of a run. |
| Delivery.Publisher.ConfirmSent | apps/odds-collector-extension/src/publisher.ts:88-89 | Only an accepted reply removes the entry. |
| Delivery.Publisher.Abandon | apps/odds-collector-extension/src/publisher.ts:84-88 | A timeout, lost reply or error ends the flush with the entry kept. |
| Delivery.RunInv | apps/odds-collector-extension/src/publisher.ts:53-91 | Over every run with losses, delays, repeats and crashes the delivery invariant holds. |
| Delivery.ExactlyOnceFifo | apps/odds-collector-extension/src/publisher.ts:53-91 | In every run, whatever other clients publish in between, the outbox is the unremoved rest of the accepted log, at most 1000 long; of what the server has taken in, this outbox's share is the removed part plus at most the head, in order and each once; the server's state is that of committing all it has taken in, once each. |
| Delivery.NothingLost | apps/odds-collector-extension/src/publisher.ts:60-91 | Whatever was accepted has reached the server or is still waiting. |
| Delivery.RepeatHasNoEffect | apps/odds-service/src/modules/persistence/persistence.service.ts:98-114 | A request whose publication has taken effect changes nothing when it arrives again. |
| Delivery.InvalidHeadBlocks | apps/odds-collector-extension/src/publisher.ts:63-91 | A publication that fails validation is never removed, nor is anything queued behind it, and none of these takes effect. |
| Delivery.HeadLeavesIff | apps/odds-collector-extension/src/publisher.ts:60-91 | From rest, one undisturbed attempt removes the head iff its provider is known and the server does not refuse it. |
| Delivery.ReadMeans | apps/odds-collector-extension/src/publisher.ts:63-82 | A flush in its loop sends the head of the queue, or ends: after twenty rounds, with nothing left, or at a provider that is none of the five. |
| PublicationCommit.PersistenceService.CommitPublication | apps/odds-service/src/modules/persistence/persistence.service.ts:77-255 | The transaction yields the specified reply and store, and keeps the store's invariant. |
| PublicationCommit.Validate | apps/odds-service/src/shared/domain/validate-publication.ts:2-46 | Accepts exactly the valid publications. |
| PublicationCommit.Newest | apps/odds-service/src/modules/persistence/persistence.service.ts:257-265 | The loop keeps, per journal scope, the first of the newest observations, in order of first appearance. |
| PublicationCommit.LatestMeans | apps/odds-service/src/modules/persistence/persistence.service.ts:257-265 | The kept observation is one of the scope's and none of them is newer. |
| PublicationCommit.Sift | apps/odds-service/src/modules/persistence/persistence.service.ts:170-180 | The filter accepts the newer observations, or fails iff some observation contradicts the stored one. |
| PublicationCommit.PublishedIff | apps/odds-service/src/modules/persistence/persistence.service.ts:98-180 | A publication takes effect iff it is valid, not yet received, owned by the right feed, strictly newer than its scope, and contradicts nothing stored. |
| PublicationCommit.ScopeAfterCommit | apps/odds-service/src/modules/persistence/persistence.service.ts:123-216 | Only the publication's scope can change, only to the publication, only if newer; a refusal changes nothing at all. |
| PublicationCommit.AcceptedIff | apps/odds-service/src/modules/persistence/persistence.service.ts:156-180 | A journal observation is accepted iff it is strictly newer than every stored observation of its scope and provider. |
| PublicationRecord.ContradictedIff | apps/odds-service/src/modules/persistence/persistence.service.ts:156-180 | A publication clashes iff one of its observations has the time of its baseline and other content; the baseline is the first newest observation of its journal scope in any row of the provider. |
| PublicationRecord.RecordMeans | apps/odds-service/src/modules/persistence/persistence.service.ts:181-200 | A published publication is recorded under its scope and time, and its changes are exactly those from the baseline of each accepted observation to the observation. |
| PublicationRecord.OthersKept | apps/odds-service/src/modules/persistence/persistence.service.ts:98-233 | Only a published publication writes a record or a checkpoint, and only its own. |
| PublicationRecord.CheckpointIsLastPublished | apps/odds-service/src/modules/persistence/persistence.service.ts:222-233 | After any history a checkpoint is stored iff something with its key was published, and is that of the last such publication, whatever was refused, repeated or outdated since. |
| PublicationRecord.CheckpointFollowsScope | apps/odds-service/src/modules/persistence/persistence.service.ts:209-233 | Where scopes share no checkpoint key, as in the envelopes a server builds, a scope's checkpoint is that of the publication its row holds, after any history. |
| PublicationCommit.CommitOk | apps/odds-service/src/modules/persistence/persistence.service.ts:77-255 | Every commit keeps the store's invariant. |
| PublicationCommit.ReplayIsHarmless | apps/odds-service/src/modules/persistence/persistence.service.ts:98-155 | Committing again changes nothing and is neither published nor refused. |
| PublicationCommit.ScopeIsNewest | apps/odds-service/src/modules/persistence/persistence.service.ts:155-216 | After any conflict-free history each scope holds its newest publication. |
| PublicationCommit.DeliveriesConverge | apps/odds-service/src/modules/persistence/persistence.service.ts:155-216 | Two deliveries of the same conflict-free publications, in any orders with any repeats, end with the same stored scopes. |
| PublicationCommit.BaselineDisappears | apps/odds-service/src/modules/persistence/persistence.service.ts:209-216 | Observations are replaced as a whole, so an observation older than one accepted earlier is accepted once the envelope has moved on. `JournalBaselines.StaleAcceptedIff` says exactly when. |
| PublicationCommit.ForgetfulExists | apps/odds-service/src/modules/persistence/persistence.service.ts:209-216 | Such histories exist. |
| JournalBaselines.AcceptedIffUncovered | apps/odds-service/src/modules/persistence/persistence.service.ts:156-216 | After any conflict-free history an observation of a published publication is accepted iff no envelope's newest publication of that provider holds an observation of its journal scope at least as new. |
| JournalBaselines.StaleAcceptedIff | apps/odds-service/src/modules/persistence/persistence.service.ts:156-216 | An observation no newer than one accepted earlier is accepted iff every envelope of the provider has dropped its journal scope or set it back. |
| JournalBaselines.AcceptedTimesIncrease | apps/odds-service/src/modules/persistence/persistence.service.ts:156-216 | In every history whose envelopes keep their journal scopes, the times accepted for a journal scope of a provider strictly increase. |
| MarketChanges.MarketChangesOf | apps/odds-service/src/modules/snapshots/market-journal.ts:37-107 | The diff's nested loops over consumed maps equal the specification. |
| MarketChanges.ChangesAccountForIndex | apps/odds-service/src/modules/snapshots/market-journal.ts:37-107 | Folding the added and removed entries over the old event and market keys gives the new ones. |
| MarketChanges.ChangesExact | apps/odds-service/src/modules/snapshots/market-journal.ts:37-107 | The complete diff of any two observations reports exactly the warranted changes, field by field; a repeated event or market is compared once, with the last old one of its identifier. |
| MarketChanges.SilentIff | apps/odds-service/src/modules/snapshots/market-journal.ts:59-86 | A surviving market is silent iff its suspension did not change between true and false and no selection present in both has new odds or a new line. |
| MarketJournal.SnapshotsAll | apps/odds-service/src/modules/snapshots/market-journal.ts:16-36 | The snapshots are exactly those of the selections: suspended if any level says so, other values from the innermost level that states them. |
| MarketJournal.SnapshotsInOrder | apps/odds-service/src/modules/snapshots/market-journal.ts:16-36 | One snapshot per selection, in the order of matches, markets and selections. |
| MarketJournal.CheckBatch | apps/odds-service/src/modules/snapshots/market-journal.ts:173-203 | Validation accepts exactly the well-formed batches. |
| MarketJournal.Journal.Open | apps/odds-service/src/modules/snapshots/market-journal.ts:136-166 | Opening replays the log into the index. |
| MarketJournal.Journal.ReadLog | apps/odds-service/src/modules/snapshots/market-journal.ts:162-165 | The replay loop keeps the last entry of each scope. |
| MarketJournal.Journal.Ingest | apps/odds-service/src/modules/snapshots/market-journal.ts:167-254 | An accepted batch is logged and indexed; a rejected or ignored one changes nothing. |
| MarketJournal.Journal.Judge | apps/odds-service/src/modules/snapshots/market-journal.ts:172-243 | The decision: reject, ignore or accept with the diff against the last batch. |
| JournalAcceptance.VerdictMeans | apps/odds-service/src/modules/snapshots/market-journal.ts:172-243 | After every run, by the log alone: a batch is accepted iff it is well formed, complete, of one provider that is the scope's, and strictly newer than everything logged of the scope; ignored iff the log has it or something newer; refused otherwise. |
| JournalAcceptance.EntryMeans | apps/odds-service/src/modules/snapshots/market-journal.ts:228-253 | The entry of an accepted batch holds the batch, one snapshot for each of its selections and the exact changes since the scope's last entry. |
| MarketJournal.RunInv | apps/odds-service/src/modules/snapshots/market-journal.ts:136-254 | Over every run with crashes and restarts the log is consistent and the index is its replay. |
| MarketJournal.ReloadRebuildsIndex | apps/odds-service/src/modules/snapshots/market-journal.ts:136-166 | Crashing and reloading changes nothing. |
| MarketJournal.TimesIncrease | apps/odds-service/src/modules/snapshots/market-journal.ts:216-227 | Accepted times of a scope strictly increase. |
| MarketJournal.LogFoldsToLatest | apps/odds-service/src/modules/snapshots/market-journal.ts:228-253 | Folding a scope's logged additions and removals from nothing gives exactly the keys of its latest batch. |
| MarketJournal.LogGrows | apps/odds-service/src/modules/snapshots/market-journal.ts:244-251 | The log only grows, through crashes too. |
| MarketJournal.RetryIsIgnored | apps/odds-service/src/modules/snapshots/market-journal.ts:217-226 | Repeating a batch after a crash between append and index update ends as if there had been no crash. |
| RemotePersistence.Agent.Pending | apps/odds-service/src/modules/runtime/remote-persistence.ts:135-151 | Lists the directory in name order and unlinks exactly the expired files. |
| RemotePersistence.Agent.CommitPublication | apps/odds-service/src/modules/runtime/remote-persistence.ts:90-134 | Accepts iff size, count and total fit after expiry; otherwise changes nothing but the expired files. |
| RemotePersistence.Agent.Tick | apps/odds-service/src/modules/runtime/remote-persistence.ts:166-169 | A delivery round is requested unless one is under way or the backoff has not passed. |
| RemotePersistence.Agent.BeginRound | apps/odds-service/src/modules/runtime/remote-persistence.ts:170-171 | A round starts with the files pending then. |
| RemotePersistence.Agent.SendFirst | apps/odds-service/src/modules/runtime/remote-persistence.ts:174-177 | The first file's request goes out. |
| RemotePersistence.Agent.ReceiveAnswer | apps/odds-service/src/modules/runtime/remote-persistence.ts:153-165 | It is answered with success. |
| RemotePersistence.Agent.UnlinkFirst | apps/odds-service/src/modules/runtime/remote-persistence.ts:178-178 | An answered file is removed. |
| RemotePersistence.Agent.EndRound | apps/odds-service/src/modules/runtime/remote-persistence.ts:180-181 | A completed round resets failures and backoff. |
| RemotePersistence.Agent.FailRound | apps/odds-service/src/modules/runtime/remote-persistence.ts:183-192 | A failed round keeps the files and backs off. |
| RemotePersistence.RunInv | apps/odds-service/src/modules/runtime/remote-persistence.ts:90-196 | Over every run with crashes the agent's invariant holds. |
| RemotePersistence.WithinBounds | apps/odds-service/src/modules/runtime/remote-persistence.ts:101-106 | The directory never exceeds 1000 files, its byte limit or 8 MiB a file. |
| RemotePersistence.FilesConserved | apps/odds-service/src/modules/runtime/remote-persistence.ts:135-179 | Every accepted file is pending, delivered or expired, exactly once, and a delivered one was sent and answered. |
| RemotePersistence.PostedInStampOrder | apps/odds-service/src/modules/runtime/remote-persistence.ts:137-179 | Requests go out in order of their files' millisecond stamps, repeats and unanswered requests included. |
| RemotePersistence.RoundsBackOff | apps/odds-service/src/modules/runtime/remote-persistence.ts:167-188 | After k failures in a row the next round waits 30, 60, 120 or 300 seconds. |
| BlazeParser.AddShardEvents | apps/odds-service/src/modules/blaze/parsers/feed.parser.ts:67-77 | The loop over one shard's events. |
| BlazeParser.Merge | apps/odds-service/src/modules/blaze/parsers/feed.parser.ts:22-80 | The merge of all shards, with every refusal. |
| BlazeParser.ListEvents | apps/odds-service/src/modules/blaze/parsers/feed.parser.ts:188-230 | The loop over merged events. |
| BlazeParser.Listing | apps/odds-service/src/modules/blaze/parsers/feed.parser.ts:181-236 | The parsed and sorted listing; `BlazeMerge.MergeMeans`, `BlazeListing.ListedEvents`, `BlazeListing.ListedIff` and `BlazeListing.ListingInOrder` say from the raw fields what it contains. |
| BlazeMerge.MergeMeans | apps/odds-service/src/modules/blaze/parsers/feed.parser.ts:22-80 | A snapshot merges iff the manifest announces its shards and each fits; then every merged event and tournament comes from the shards as stated. |
| BlazeListing.ListedEvents | apps/odds-service/src/modules/blaze/parsers/feed.parser.ts:81-230 | Of every listed event: the teams are the two competitors in order; each market comes from one type and variant and every variant gives one; its selections are the outcomes in order, 4 named for the first competitor and 5 for the second, with odds and suspension as the fields say; the category is by type, specifier and map. |
| BlazeListing.ListedIff | apps/odds-service/src/modules/blaze/parsers/feed.parser.ts:188-230 | An event of the merged snapshot is listed iff it is a match of the sport, starts after the capture and has both statuses 0. |
| BlazeListing.ListingInOrder | apps/odds-service/src/modules/blaze/parsers/feed.parser.ts:231-236 | The listing is in order. |
| BlazeParser.ProjectCapture | apps/odds-service/src/modules/blaze/parsers/capture-projection.ts:9-63 | The projection's passes over shards, tournaments and descriptions. |
| BlazeProjection.ProjectionExact | apps/odds-service/src/modules/blaze/parsers/capture-projection.ts:9-63 | The projection keeps exactly the sport's events, the tournaments they refer to and the descriptions of the market types they have. |
| BlazePreservation.AddFiltered | apps/odds-service/src/modules/blaze/parsers/feed.parser.ts:67-77 | Adding one sport's events and filtering commute, refusals of conflicting events included. |
| BlazePreservation.ProjectedMerge | apps/odds-service/src/modules/blaze/parsers/capture-projection.ts:12-41 | Merging the projected shards gives the sport's events of the full merge, in order, and agrees with it on all they refer to. |
| BlazePreservation.SameDefinition | apps/odds-service/src/modules/blaze/parsers/capture-projection.ts:42-58 | A kept market type has the same definition as before. |
| BlazePreservation.ProjectionPreservesListing | apps/odds-service/src/modules/blaze/parsers/capture-projection.ts:9-63 | Whenever the full snapshot parses and projects, the projection parses to the same listing. |
| BlazeDetail.DetailIsListed | apps/odds-service/src/modules/blaze/parsers/feed.parser.ts:237-243 | The detail is found iff the listing has an event of that identifier, and is that event; the listing has no identifier twice. |
| BlazeDetail.ProjectionPreservesDetail | apps/odds-service/src/modules/blaze/parsers/feed.parser.ts:237-252 | Projecting preserves the detail result iff the identifier is not that of an event of another sport whose start has passed. |
| BlazeDetail.ForeignEventDiffers | apps/odds-service/src/modules/blaze/parsers/feed.parser.ts:237-252 | A capture with one such event: started by the full snapshot, absent by the projection. |
| BlazeDetail.ListedIsSport | apps/odds-service/src/modules/blaze/parsers/feed.parser.ts:188-230 | A listed event's own merged entry is of the listing's sport. |
| BlazePreservation.ProjectionIsOneSport | apps/odds-service/src/modules/blaze/parsers/feed.parser.ts:185-186 | A projection is refused as any other sport. |
| Bet365Records.ReadRecords | apps/odds-service/src/modules/bet365/parsers/list.parser.ts:8-31 | The framing loop over rows. |
| Bet365Records.ReadRow | apps/odds-service/src/modules/bet365/parsers/list.parser.ts:20-29 | One row's type and fields, or a refusal. |
| Bet365Records.RecordsReadIff | apps/odds-service/src/modules/bet365/parsers/list.parser.ts:8-31 | A body is read iff it begins with the full-feed mark and each row that is not empty has a kind of two capitals and only fields with a name before their first equals sign. |
| Bet365Records.RowMeans | apps/odds-service/src/modules/bet365/parsers/list.parser.ts:20-29 | A record has its row's kind and, for each key, the last value the row states for it. |
| Bet365Records.RecordsInvertPrint | apps/odds-service/src/modules/bet365/parsers/list.parser.ts:8-31 | Reading undoes printing for all well-formed record lists. |
| Bet365Records.RecordsNormalise | apps/odds-service/src/modules/bet365/parsers/list.parser.ts:8-31 | Whatever is read is well formed, and printing and reading it again gives the same records. |
| CouponStructure.CouponStructureOf | apps/odds-service/src/modules/bet365/parsers/protocol.parser.ts:19-52 | The loop with its two cursors equals the specification. |
| CouponStructure.DecoderIsLossless | apps/odds-service/src/modules/bet365/parsers/protocol.parser.ts:28-50 | The feed is an interleaving of the unassociated records and the groups' records: each record in one bucket, in feed order. |
| CouponStructure.ShuffleConserves | apps/odds-service/src/modules/bet365/parsers/protocol.parser.ts:28-50 | An interleaving loses and invents nothing. |
| CouponStructure.BucketsAreRuns | apps/odds-service/src/modules/bet365/parsers/protocol.parser.ts:28-50 | Markets, over all groups in order, are exactly the runs after MA records up to the next MA, MG, EV or CL, with exactly their PA records as selections; the records of headed groups are the runs after MG records. |
| CouponGroups.MarketsInTheirGroups | apps/odds-service/src/modules/bet365/parsers/protocol.parser.ts:28-50 | Each market lies in the one group that owns its MA record: that of the last MG record before it, or, after an EV or CL record or at the start, a headless group begun by the first MA record. Groups and markets keep feed order. |
| DecimalOdds.FractionIff | apps/odds-service/src/modules/bet365/parsers/list.parser.ts:38-41 | A text is read as n/d iff it is a numeral for n, one slash and a numeral for d. |
| DecimalOdds.TruncatesExactly | apps/odds-service/src/modules/bet365/parsers/list.parser.ts:44-45 | The result is at most the exact odds and less than one last digit below. |
| DecimalOdds.OddsAreMonotone | apps/odds-service/src/modules/bet365/parsers/list.parser.ts:44-45 | A larger fraction never gives smaller odds, across the switch of precision at 1.10 too. |
| DecimalOdds.AcceptedIff | apps/odds-service/src/modules/bet365/parsers/list.parser.ts:40-48 | Among positive fractions within the cap exactly those below 1/1000 are refused. |
| MarketAnalytics.GroupMarkets | apps/odds-service/src/modules/monitor/market-analytics.ts:157-179 | The grouping loops; `MarketGroups.GroupsMean` says which markets they bring together. |
| MarketGroups.GroupsMean | apps/odds-service/src/modules/monitor/market-analytics.ts:157-179 | The groups split the counting markets of healthy providers: each group holds all of them with one category, map number, period and line, and no two groups agree in these. |
| MarketGroups.SharedIff | apps/odds-service/src/modules/monitor/market-analytics.ts:169-179 | Two markets share a group iff they agree in category, map number, period and line. |
| MarketGroups.ValidMeans | apps/odds-service/src/modules/monitor/market-analytics.ts:188-219 | The prices that count in a group are those of a two-sided market that is its provider's only one there. |
| MarketAnalytics.AnalyzeMarkets | apps/odds-service/src/modules/monitor/market-analytics.ts:131-330 | Nothing without two different teams and a settled match; otherwise every group's analysis in order; `AnalysisResults.ResultsMean` says what each result compares and reports. |
| AnalysisResults.ResultsMean | apps/odds-service/src/modules/monitor/market-analytics.ts:181-330 | Every result compares all counting markets of one category, map, period and line, and reports best, next best and median, fair prices, value bets, outliers and stakes as defined on their prices. |
| AnalysisResults.QuestionsAnswered | apps/odds-service/src/modules/monitor/market-analytics.ts:181-330 | Every question that two providers price on both sides has a result. |
| MarketAnalytics.OneCandidatePerSide | apps/odds-service/src/modules/monitor/market-analytics.ts:188-231 | Each contributing provider has exactly one price on each side, so the length check never fires. |
| MarketAnalytics.AnalysisExists | apps/odds-service/src/modules/monitor/market-analytics.ts:220-231 | A group is analysed iff two providers contribute. |
| MarketAnalytics.AnalysisArbitrage | apps/odds-service/src/modules/monitor/market-analytics.ts:296-318 | An arbitrage is reported iff some pair of opposite prices has inverse sum below one, and then pays back as stated next. |
| MarketAnalytics.ArbitragePays | apps/odds-service/src/modules/monitor/market-analytics.ts:298-306 | Both legs return 100 divided by the inverse sum, which exceeds 100; rounded stakes sum to 100 or 100.01. |
| MarketAnalytics.BestIsHighest | apps/odds-service/src/modules/monitor/market-analytics.ts:264-267 | The first after sorting is a highest price. |
| MarketAnalytics.MedianSplits | apps/odds-service/src/modules/monitor/market-analytics.ts:111-117 | At most half the values lie below the median and at most half above. |
| MarketAnalytics.OutliersAreFew | apps/odds-service/src/modules/monitor/market-analytics.ts:276-293 | At most half of a side's prices are upward outliers. |
| MarketAnalytics.DeVigEntry | apps/odds-service/src/modules/monitor/market-analytics.ts:119-128 | Each probability is its inverse price over the overround. |
| MarketAnalytics.DeVigNormalises | apps/odds-service/src/modules/monitor/market-analytics.ts:119-128 | For two or three prices above one the probabilities lie strictly between 0 and 1 and sum to 1. |
| FairPrices.ValueBetsExact | apps/odds-service/src/modules/monitor/market-analytics.ts:235-262 | In an analysed market every provider yields a fair probability for each side; the two sides' medians are proper and add up to 1; the value bets are exactly the prices of a trusted match that beat the fair one by the least edge. |
| FairPrices.ValueOnBothSidesPays | apps/odds-service/src/modules/monitor/market-analytics.ts:235-318 | With a positive least edge, value bets on opposite sides come with a reported arbitrage. |
| FairPrices.MedianComplement | apps/odds-service/src/modules/monitor/market-analytics.ts:111-117 | The median of complements to 1 is the complement of the median. |
| FairPrices.OutliersExact | apps/odds-service/src/modules/monitor/market-analytics.ts:276-293 | Outliers are exactly the prices whose deviation from the median, itself above 1, exceeds the threshold, where three or more are compared. |
| CdpLease.Connections.AcquireCdp | apps/odds-service/src/shared/browser/cdp-lease.ts:8-27 | An acquisition joins the endpoint's entry or creates one. |
| CdpLease.Connections.OnConnected | apps/odds-service/src/shared/browser/cdp-lease.ts:14-15 | The connection settles as established. |
| CdpLease.Connections.OnFailed | apps/odds-service/src/shared/browser/cdp-lease.ts:20-22 | A failed connection evicts its own entry. |
| CdpLease.Connections.OnDisconnected | apps/odds-service/src/shared/browser/cdp-lease.ts:16-19 | A lost connection evicts its own entry. |
| CdpLease.Connections.Settle | apps/odds-service/src/shared/browser/cdp-lease.ts:28-46 | A waiting caller gets a lease, or gives its place back and fails. |
| CdpLease.Connections.ReleaseLease | apps/odds-service/src/shared/browser/cdp-lease.ts:32-41 | Releasing gives back once; the last release closes. |
| CdpLease.RunInv | apps/odds-service/src/shared/browser/cdp-lease.ts:6-47 | Over every interleaving the lease accounting holds. |
| CdpLease.UsersAreCallers | apps/odds-service/src/shared/browser/cdp-lease.ts:25-44 | An entry's users are its waiting callers plus unreleased leases. |
| CdpLease.ClosedOnceByLast | apps/odds-service/src/shared/browser/cdp-lease.ts:32-41 | A connection is closed at most once, and exactly when it was established and nobody uses it any more. |
| CdpLease.CurrentIsLive | apps/odds-service/src/shared/browser/cdp-lease.ts:9-24 | The entry an endpoint maps to is being established or open, in use and not closed. |
| CdpLease.OnlyOwnEviction | apps/odds-service/src/shared/browser/cdp-lease.ts:16-22 | An entry leaves the map only by a step about itself; an old one never evicts a newer one. |

## Left out

- How long jobs, timers and the shutdown grace take: the source leaves that to timers; every order of the steps is covered.
- SchedulerOutcomes.TickServes: does not say that every eligible detail is eventually due, which is false of the code; `StuckDetails.StuckIff` and `SchedulerOutcomes.StuckForever` say when.
- IngestionCommit.ScheduledOperation: what a collector returns, what the commit section answers and the store that confirms it are parameters; `CollectionService.OperationFits` and `CollectionRuns` join it with the job's signal and the section.
- Matching.CompareAllProviders: labels, prices and learned names of a comparison are not modelled; its members with their own starts and flags, its start, span, competition and score are.
- MatchingRepository.Repository.Reconcile: reading the fresh listings and their coverage, a comparison's labels and learned names, and the order of its providers are inputs; scores, start differences and issue texts are not modelled. Among equally late decisions one fixed choice is made, where the query leaves it open.
- PublicationCommit.PersistenceService.CommitPublication: sanitising, secret filtering, the catalog tables, the matching run inside the transaction, notifications and the callback after commit are not modelled; scope rows are read in order of creation, where the query leaves the order open.
- Delivery.Publisher.ReadOldest: preview mode and fetching the private configuration are not modelled.
- RemotePersistence.Agent.CommitPublication: writing the temporary file, syncing and renaming are one step; stamps in file names have equal length; unreadable files and the wire check of a payload are not modelled.
- MarketJournal.Journal.Open: only the file mode; a log line torn by a crash is not modelled.
- BlazeParser.Listing: objects are field lists in enumeration order; reading numbers, team normalisation, label replacement, serialisation and the final text order are parameters; blank means ASCII whitespace; ISO formatting and provenance fields are not modelled.
- Bet365Records.ReadRecords: a field named `__proto__` is an ordinary field here.
- CouponStructure.CouponStructureOf: a group opened by a market without a group record has no head here, where the source gives it empty fields.
- MarketAnalytics.AnalyzeMarkets: prices are exact reals; tooltips and display texts are not modelled.
- CdpLease.Connections.OnDisconnected: a connection lost before the handler is attached is not modelled.
- TeamNames.OneEditTeamName: a letter is one character; letters outside the basic plane are not split into two code units.
- Regular-expression cleaning of names, tournaments and labels; London time and locale formatting.
- bet365 `parseCapture` and the parsers and stores of the other providers.
- SQL text, Prisma, NestJS wiring, configuration, authentication, HTTP and browser automation.
- The monitor application, the agent's heartbeat, and the health, log and memory reports of all components.
