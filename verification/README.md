# Data-analysis protocols in Dafny

This project models the database-backed protocols of the data-analysis aggregation
service and proves what they promise over whole runs. A table is a map or a field of a
class, a transaction is one step (its lock, check, write, second check and commit happen
together, with time allowed to pass inside), the database clock is an integer that never
goes back, and JSON decoding, hashing and date parsing are functions the model knows
nothing about. Failures, lost replies and rollbacks are choices that every theorem
quantifies over.

Where the source changes state, the model is a class whose methods are proved against a
function of the old state; the theorems are lemmas about those functions, over every
sequence of events.

| file | part of the service |
|---|---|
| `Common.dfy` | options and results, Go's string order, ascending lists, sums, the newest of a sequence of stamped values |
| `Queue.dfy` | job queue with leases, write fence, source watermarks, recovery of jobs without a lease |
| `Stream.dfy`, `Reader.dfy` | what a project snapshot stream must look like; the bounded reader that decides it |
| `Projection.dfy` | run fence, staging table, bounded reclamation, publication |
| `EndToEnd.dfy` | queue, workers, stage and visible table together, in any interleaving |
| `SyncProjection.dfy` | one attempt from begin to publish or fail, as imperative code |
| `ImportReport.dfy`, `ImportRounds.dfy` | publication of the import report; any sequence of attempts |
| `Alerts.dfy`, `AlertRuns.dfy`, `AlertStories.dfy` | alert lifecycle; any interleaving of rounds and operators; what each column tells |
| `Scan.dfy`, `GuardedUpsert.dfy` | keyset scan of a source; the generated upsert of the mirror tables |
| `Finance.dfy`, `FinanceStore.dfy` | validation and totals of finance facts; optimistic publication |
| `Dictionary.dfy`, `DictionaryRuns.dfy`, `DictionaryEffects.dfy` | metric dictionary with history; any sequence of changes; what each change does |
| `Migration.dfy` | loading and applying schema migrations through failures |
| `Trend.dfy` | monthly trend, early and late truncation |

Four promises do not hold of the code as it is. For each there is a lemma with a concrete
input and one with the exact condition:

* `hit_streak` is said to count consecutive hits (migrations/000028_alert_lifecycle_phase.sql:7-8),
  but no miss resets it: after a hit, a miss and a hit it is two while the run of hits is one
  (`AlertRuns.HitMissHit`). It is the length of the run exactly when no effective round missed
  the alert while its `hit_streak` was above zero (`AlertRuns.HitStreakIsConsecutiveIff`).
* `hit_streak` and `miss_streak` are one byte wide. Since `hit_streak` is never reset, the 256th
  hit of an active alert fails the statement, and the whole round of its rule with it
  (`AlertRuns.HitStreakFillsUp`, `AlertRuns.FullCounterStopsRule`). A round takes effect exactly
  when every counter fits (`Alerts.Fits`, in the contract of `Alerts.AlertTable.ReconcileAlerts`).
  This takes the strict SQL mode that internal/oidc/service.go:339-340 relies on.
* The limit of 500 metrics is asked for only when a custom metric is created. A row for an
  edited published metric escapes it, and a tenant with 501 rows can no longer list its
  dictionary (`DictionaryRuns.PublishedMetricsEscapeTheLimit`), nor ever again
  (`DictionaryRuns.ListingNeverRecovers`). The changes that break it are exactly an accepted
  edit or switch of a published metric without a row at 500 rows, and an accepted batch that
  brings more than 500 codes together (`DictionaryRuns.LimitIsBrokenExactlyBy`).
* The trend query takes eight rows a month. With nine currencies a month, for any number of
  months, the list returned is not the one without the limit (`Trend.NineCurrenciesDoNotFit`). It is
  exactly when no fact beyond the limit is of one of the latest months of contracts and projects
  together (`Trend.LimitIsHarmlessIff`).

A comment that is stricter than the code: the one above the guarded upsert says that
`updated_at` must come last in the assignment list. With the guard `>=` its place does not
matter (`GuardedUpsert.ExecutionIsAtomic`).

## Model

| member | source | states |
|---|---|---|
| Queue.SyncQueue.ClaimQueueJob | internal/aggregation/queue_lease.go:73-103 | a claim succeeds exactly when the row is still in the generation that was listed and is queued or expired under its lease; the new token then passes the fence exactly until the lease ends |
| Queue.SyncQueue.LockedQueueJob | internal/aggregation/queue_lease.go:113-140 | finds the row exactly when the token passes the fence at the clock's time |
| Queue.SyncQueue.AggregationWrite | internal/aggregation/queue_lease.go:144-173 | a fenced write commits exactly when it is not aborted and its token passes before the write and again before the commit |
| Queue.SyncQueue.RenewQueueLease | internal/aggregation/queue_lease.go:179-200 | renews exactly a token that still passes, which then passes until the new end; nothing else changes |
| Queue.SyncQueue.MarkQueueSource | internal/aggregation/queue_lease.go:222-234 | moves the watermark of a known source unless it already shows a later start |
| Queue.Clipped | internal/aggregation/queue_lease.go:207-216 | a failure text of at most 512 characters is kept whole; of a longer one the first 509 are kept and "..." follows |
| Queue.SyncQueue.FinishQueueJob | internal/aggregation/queue_lease.go:236-279 | finishes exactly under a passing token, which is lost afterwards; pause requeues and keeps slot and watermark, success and failure leave their status, their error and a round with the same verdict and the claim's start |
| Queue.SyncQueue.ExecuteQueueJob | internal/aggregation/queue_lease.go:281-340 | renews with each heartbeat, leaves the job alone after a failed heartbeat or a lost lease, otherwise pauses it if cancelled or denied, fails it with the run's error, or else succeeds |
| Queue.ExecutionEndsOwnership | internal/aggregation/queue_lease.go:281-340 | an execution is a run of the queue; if it closes the job the token is gone for good, and no watermark moves unless it ends the job |
| Queue.SyncQueue.CreateSyncJob | internal/modules/admin/infrastructure/gorm_repository.go:115-135 | created exactly when the id is new and no active job holds the source's slot |
| Queue.SyncQueue.LegacyJobs | internal/aggregation/legacy_recovery.go:34-56 | accepts exactly 1 to 100 distinct ids of running jobs without a lease |
| Queue.SyncQueue.RequeueAll | internal/aggregation/legacy_recovery.go:80-108 | requeues the selected jobs and nothing else, with one audit row each |
| Queue.SyncQueue.RecoverLegacySyncJobs | internal/aggregation/legacy_recovery.go:64-112 | all selected jobs or none, exactly when both verifications agree; each is requeued in place with one audit row |
| Queue.RunKeepsInv | internal/aggregation/queue_lease.go:73-279 | every transaction keeps one active slot per source, one owner per generation and the order of the write log |
| Queue.OneHolderPerSource | internal/aggregation/queue_lease.go:113-140 | in every reachable state at most one token passes among all jobs of a source |
| Queue.TakenOverIffNoHolder | internal/aggregation/queue_lease.go:73-103 | a leased job can be claimed exactly when nobody's token passes any more |
| Queue.LostForever | internal/aggregation/queue_lease.go:113-173 | a token that fails the fence once never passes again and nothing is written under it |
| Queue.WritesFollowGenerations | internal/aggregation/queue_lease.go:144-173 | committed writes of a job are ordered by generation, and a generation has one owner |
| Queue.WatermarksShowNewestRound | internal/aggregation/aggregation.go:357-371 | every watermark shows the round with the latest start, the last to finish among equals, whoever comes late |
| Queue.EndedJobsTellTheirClosing | internal/aggregation/queue_lease.go:236-279 | over any run, a job that ended was closed exactly once: its status, error and end are those of that closing, its start that of the claim behind the closing token, and the recorded round of its source carries the same |
| Common.NewestIsLastMaximal | internal/aggregation/aggregation.go:369 | applying stamped updates under "not older than stored" leaves the last one among those with the greatest stamp |
| Common.BeforeIff | internal/aggregation/project_stream.go:339 | the string order without recursion: a proper prefix, or smaller at the first difference |
| Stream.AcceptedIsPrefixFree | internal/aggregation/project_stream.go:212-360 | no proper prefix and no proper extension of an accepted stream is accepted |
| Stream.ChunksAreTheRows | internal/aggregation/project_stream.go:236-259 | the batches concatenate to the rows, are ceil(n/200) many, and all but the last are full |
| Stream.AcceptedIff | internal/aggregation/project_stream.go:200-360 | a stream is accepted exactly if it is a header line, row lines and an end line within the limits, the rows valid, strictly ascending and of the header's snapshot, and the end's total and checksum those of the row lines |
| Stream.LatestIsGreatest | internal/aggregation/project_stream.go:347-350 | the update time of a summary is that of the first row among those with the greatest |
| Reader.NextLine | internal/aggregation/project_stream.go:212-235 | cuts one bounded line, or tells limit, missing newline and end apart |
| Reader.ReadProjectSnapshot | internal/aggregation/project_stream.go:200-360 | succeeds exactly on accepted streams whose batches were all taken; the receiver gets the deliveries in order up to its first failure |
| Projection.ProjectionTables.LockProjectAttempt | internal/aggregation/project.go:171-187 | true exactly for the run and generation that hold the running state row |
| Projection.ProjectionTables.BeginProjectProjection | internal/aggregation/project.go:97-134 | succeeds exactly when the fence can advance, fewer than 50,000 rows of other runs remain and all checks pass; then none of them remains |
| Projection.ProjectionTables.ReclaimProjectStaging | internal/aggregation/project.go:138-170 | succeeds exactly below 50,000 rows of other runs; at or above, with passing checks, exactly 50,000 are removed; rows of its own run are never touched |
| Projection.ProjectionTables.StageProjectProjection | internal/aggregation/project.go:188-227 | adds the batch exactly when the attempt holds the fence, the rows are valid, new and ascending, and the run's totals stay in bounds; otherwise nothing changes |
| Projection.ProjectionTables.PublishProjectProjection | internal/aggregation/project.go:231-265 | replaces the visible rows by the staged ones exactly when the counts and the snapshot agree with the summary; otherwise nothing changes |
| Projection.ProjectionTables.FailProjectProjection | internal/aggregation/project.go:276-290 | under the fence only: the state is failed with the code if it is one of the six known ones, and the run's staged rows are gone |
| EndToEnd.RunKeepsInv | internal/aggregation/project.go:97-290 | every interleaving of attempts keeps: stage is what the current attempt sent, the visible table is one verified stream, publications follow generations |
| EndToEnd.VisibleIsOneVerifiedStream | internal/aggregation/apisync.go:472-539 | whatever interleaves, the visible rows and the published metadata are those of the one accepted stream published last |
| EndToEnd.VisibleRowsAreValid | internal/aggregation/project_stream.go:170-198 | whatever interleaves, visible rows are the tenant's own, well formed and of the published snapshot, at most 50,000 with at most 250,000 service items, none newer than the published update time |
| EndToEnd.PublicationsFollowGenerations | internal/aggregation/project.go:97-134 | a later publication never comes from an earlier generation |
| EndToEnd.OnlyTheCurrentRunWrites | internal/aggregation/project.go:97-187 | from any reachable state over any further events: a run current at both ends was so all the time, rows of other runs only shrink, what is visible stays, and without the run's own transactions no table changes at all |
| EndToEnd.StaleRunHasNoEffect | internal/aggregation/project.go:171-187 | a run that is not the current one changes no table |
| EndToEnd.StagingIsNeverRejected | internal/aggregation/project.go:188-227 | while the attempt is current, the stage accepts the next delivery and then holds exactly the deliveries so far |
| EndToEnd.PublicationIsNeverRejected | internal/aggregation/project.go:231-265 | while the attempt is current and its stream verified, publication is accepted and shows exactly the stream's rows |
| EndToEnd.UndisturbedIsNeverRejected | internal/aggregation/project_stream.go:261-359 | for an attempt that stays current, what the reader checked is all that staging and publication ask for |
| EndToEnd.QueueRuns | internal/aggregation/queue_lease.go:144-173 | seen from the queue, the whole system is a run of the queue |
| EndToEnd.LostTokensCommitNothing | internal/aggregation/queue_lease.go:113-173 | no transaction of any attempt commits under a token lost before |
| SyncProjection.StageAll | internal/aggregation/project.go:188-227 | an undisturbed attempt stages every delivery; only a failing check stops it |
| SyncProjection.ReadAndPublish | internal/aggregation/apisync.go:531-538 | publishes exactly when the stream is accepted, nothing interrupts and the checks pass; otherwise the visible rows stay and the code names what failed first |
| SyncProjection.SyncProjectProjection | internal/aggregation/apisync.go:472-539 | an attempt on its own succeeds exactly when it can begin, the source answers with an accepted stream and every check passes; then that stream is visible. Otherwise nothing visible changes, and once it has begun the failure is recorded exactly if the next two checks pass, under the literal code of its cause, and its staged rows are gone |
| ImportReport.ValidateImportReport | internal/aggregation/import_report.go:166-211 | accepts exactly the complete snapshots of the tenant whose items are well formed with unique items and contracts, and tells an incomplete envelope apart |
| ImportReport.ReportTables.BeginImportReport | internal/aggregation/import_report.go:217-230 | the next generation runs; the success evidence stays |
| ImportReport.ReportTables.RetireSupersededImportVersions | internal/aggregation/import_report.go:413-420 | withdraws exactly the live versions of the item that are higher in either component |
| ImportReport.ReportTables.ItemRow | internal/aggregation/import_report.go:326-379 | keeps the verified row exactly for unchanged content whose facts cannot be read, otherwise a fresh row with its change count |
| ImportReport.ReportTables.PublishImportItem | internal/aggregation/import_report.go:313-408 | one item decides the rows of its item only, and adds its history record |
| ImportReport.ReportTables.PublishImportItems | internal/aggregation/import_report.go:255-262 | over distinct items the loop never collides, mirrors the snapshot in the history, and reports exactly whether verified evidence was kept |
| ImportReport.ReportTables.WithdrawMissingImportItems | internal/aggregation/import_report.go:297-307 | withdraws exactly the live rows of items that the snapshot does not name |
| ImportReport.ReportTables.PublishImportReport | internal/aggregation/import_report.go:241-292 | the loop over items is one decision per stored version; a stale generation, an invalid snapshot or a failure leaves nothing behind |
| ImportReport.ReportTables.FailImportReport | internal/aggregation/import_report.go:519-523 | fails only the running generation, nothing else |
| ImportReport.RoundStatus | internal/aggregation/import_report.go:259-270 | publishing item by item and then withdrawing gives every version exactly its final row |
| ImportRounds.RunKeepsInv | internal/aggregation/import_report.go:217-523 | begins, publications and failures in any order keep the fence, the change counts, the matched evidence, the chains and the verdict |
| ImportRounds.LiveVersionsFormAChain | internal/aggregation/import_report.go:297-420 | live versions of an item are totally ordered in both components, the last snapshot's version is on top and live, absent items have none |
| ImportRounds.HistoryIsTheLastSnapshot | internal/aggregation/import_report.go:255-258 | the history has exactly one row per item of the last published snapshot, in agreement with its status row |
| ImportRounds.FactsWereMatched | internal/aggregation/import_report.go:350-379 | a row that claims source facts names a round that published this version and content and found the facts equal |
| ImportRounds.SupersededCountsChanges | internal/aggregation/import_report.go:339-348 | the count is the number of adjacent unequal digests over the committed rounds of that version, the prior digest the one before the last change |
| ImportRounds.EvidenceIsTheLastVerifiedRound | internal/aggregation/import_report.go:271-290 | the success evidence is that of the last committed round whose error allows it and whose items are API-only or matched; the verdict of a published generation stays |
| ImportRounds.OnlyCommittedRoundsCount | internal/aggregation/import_report.go:252-254 | rounds commit in generation order, and the status table is what they alone produce |
| ImportRounds.ReportsAreCurrent | internal/aggregation/import_report.go:426-444 | channels reported as applied belong to the last snapshot, and source facts to a round that matched them |
| ImportRounds.ReportsAreExact | internal/aggregation/import_report.go:297-444 | the reported channels are exactly those that the committed rounds give the version, and a withdrawn version names the reason and time of the round that withdrew it |
| ImportRounds.LastRoundIsReported | internal/aggregation/import_report.go:313-408 | every item of the last round reports API_APPLIED, and SOURCE_FACTS_APPLIED exactly if that round matched the facts or could not read them while they stand verified; state, error and history follow the cases of source error and match |
| ImportRounds.HistoryIsWellFormed | internal/aggregation/import_report.go:166-211 | the history never holds more than 1000 items, a malformed one, or two on one contract |
| ImportRounds.RoundVerdict | internal/aggregation/import_report.go:263-290 | counting unapplied rows and kept evidence decides exactly whether every required channel was matched |
| Alerts.AlertTable.UpsertAlerts | internal/alertworker/gorm_store.go:140-206 | writes exactly the alerts of enabled rules, all or none, for its own tenant |
| Alerts.AlertTable.CountActiveAlerts | internal/alertworker/gorm_store.go:111-127 | counts the open and acknowledged alerts of the rule |
| Alerts.AlertTable.HitTargets | internal/alertworker/gorm_store.go:235-249 | the non-empty targets, each once |
| Alerts.AlertTable.ReconcileAlerts | internal/alertworker/gorm_store.go:227-313 | the table-wide updates are one decision per row; the round takes effect exactly when the alerts belong to it and every counter fits its column |
| Alerts.PhasesAreOneRound | internal/alertworker/gorm_store.go:260-311 | the phases touch different rows, so together they are one transition of each row |
| Alerts.AlertTable.UpdateStatus | internal/modules/alerts/infrastructure/gorm_repository.go:158-185 | changes an alert in scope only; a manual close is marked as such, an acknowledgement keeps its evidence |
| Alerts.NormalizedIsStable | internal/alertworker/worker.go:114-128 | normalising settles at once, changes exactly what is out of range, and reconciliation uses its rounds unchanged |
| AlertRuns.UpsertDescribes | internal/alertworker/gorm_store.go:177-203 | writing alerts changes descriptions only; a row exists exactly for known targets and enabled alerts |
| AlertRuns.StepBalances | internal/alertworker/gorm_store.go:260-311 | only a round closes automatically, and only a missed active alert; only a hit under the automatic policy reopens |
| AlertRuns.AutoClosuresBalance | internal/alertworker/gorm_store.go:283-311 | automatic closures = reopenings by the rule + decisions over an automatic closure + one if still closed |
| AlertRuns.CountersCountRounds | internal/alertworker/gorm_store.go:260-311 | hit_streak is the number of effective rounds that hit the alert while not manually closed, reopen_count the number of reopenings |
| AlertRuns.HitStreakIsConsecutiveIff | internal/alertworker/gorm_store.go:260-311 | hit_streak is at least the run of hits, and equal to it exactly when no effective round missed the alert while hit_streak was above zero |
| AlertRuns.HitMissHit | internal/alertworker/gorm_store.go:260-293 | the promised count fails: a hit, a miss and a hit give hit_streak two and a run of one |
| AlertRuns.MissStreakIsMissRun | internal/alertworker/gorm_store.go:260-311 | miss_streak is the number of rounds missed while active since insertion, last active hit or reopening, whatever operators do between |
| AlertRuns.ClosesAtConfirmRounds | internal/alertworker/gorm_store.go:283-293 | a step closes an alert automatically exactly when it misses it while active and completes that run |
| AlertRuns.ManualCloseStays | internal/alertworker/gorm_store.go:298-311 | no rounds and no writes ever undo or touch a manual close |
| AlertRuns.ClosuresAreBounded | internal/alertworker/worker.go:332-380 | a round that passes the guard closes at most openTotal - ratio*openTotal alerts plus the hit targets without an active row, up to the rounding of one floating point product |
| AlertRuns.EvaluationClosesFew | internal/alertworker/worker.go:298-366 | whatever ratio was configured, an evaluated round respects that bound for the effective one, rounding included |
| AlertRuns.Worker.EvaluateContractExpiry | internal/alertworker/worker.go:298-366 | writes before it counts, counts before it guards, reconciles only past the guard and both licence checks; reports success exactly when it wrote everything and then stopped for a good reason or reconciled in full |
| AlertRuns.FullCounterStopsRule | internal/alertworker/gorm_store.go:260-268 | while an active alert has a full counter, rounds that hit it do nothing |
| AlertRuns.HitStreakFillsUp | internal/alertworker/gorm_store.go:260-268 | a contract hit in every round reaches 255 and from then on blocks its rule |
| AlertStories.UpsertTells | internal/alertworker/gorm_store.go:177-203 | writing alerts leaves the last description of each target by an enabled rule, and dates a new row by the first |
| AlertStories.CandidatesAreWritten | internal/alertworker/worker.go:305-345 | after an evaluation's alerts are written, each candidate's row carries its data, the rule and the severity |
| AlertStories.RowsTellTheirStory | internal/alertworker/gorm_store.go:140-313 | over any run every column of a row but the counters is what the events tell: description, status, reason, closing time, last hit, acknowledgement, creation and update |
| AlertStories.FitsIff | internal/alertworker/gorm_store.go:260-311 | a round fits exactly if each row it would leave stays within one, one and four bytes |
| AlertStories.EvaluationReconciles | internal/alertworker/worker.go:332-380 | with enough hits for the guard, rounding included, and no failing call, an evaluation does reconcile |
| AlertStories.FailuresStopTheRound | internal/alertworker/worker.go:298-366 | without a licence or its alerts written a round changes nothing, without the second licence it reconciles nothing, and both report an error |
| Scan.ScanSourceBatches | internal/aggregation/aggregation.go:392-414 | keys come strictly ascending from the table each query saw; every key in all of them comes exactly once; a static table of n keys takes floor(n/b)+1 queries |
| Scan.PageIsComplete | internal/aggregation/aggregation.go:395-399 | a page is in order, from the table, and leaves nothing out before its end |
| GuardedUpsert.GuardedDimUpsert | internal/aggregation/aggregation.go:449-461 | one guarded assignment per update column in order, then one for updated_at; well formed exactly when all of them are inserted too |
| GuardedUpsert.ExecutionIsAtomic | internal/aggregation/aggregation.go:417-461 | left to right execution replaces all guarded columns or none, wherever updated_at stands |
| GuardedUpsert.DeliveriesKeepTheNewest | internal/aggregation/aggregation.go:417-461 | after any deliveries the guarded columns are those of the last delivered among the newest, the others those of the first |
| GuardedUpsert.OrderDoesNotMatter | internal/aggregation/aggregation.go:417-461 | with distinct times any order of delivery gives the same guarded columns |
| GuardedUpsert.DimTable.Upsert | internal/aggregation/aggregation.go:449-461 | running the statement in place is the atomic replacement, and touches no other key |
| GuardedUpsert.DimTable.Load | internal/aggregation/aggregation.go:503-540 | a chunk is its rows one after the other |
| GuardedUpsert.KeysAreIndependent | internal/aggregation/aggregation.go:503-540 | each key ends as its own deliveries decide, however keys are mixed |
| Finance.CalculateTotals | internal/standardfacts/finance.go:130-172 | accepts exactly valid rows; the result has each currency once, ascending, with the sums of its rows |
| Finance.AddReceivables | internal/standardfacts/finance.go:133-151 | accepts exactly valid, distinct receivables and keeps one running total per currency |
| Finance.AddReceipts | internal/standardfacts/finance.go:152-161 | accepts exactly valid, distinct receipts not after the as-of date and adds those of its month |
| Finance.Analyze | internal/standardfacts/finance.go:100-125 | accepts exactly the valid, complete, bounded files and computes nothing from others |
| Finance.ResultIsUnique | internal/standardfacts/finance.go:162-171 | the result does not depend on the order in which the map is read |
| Finance.OrderOfRowsDoesNotMatter | internal/standardfacts/finance.go:130-172 | reordering the rows changes no total |
| Finance.OrderDoesNotDecideValidity | internal/standardfacts/finance.go:130-160 | reordering the rows does not change acceptance |
| Finance.TotalsAreBounded | internal/standardfacts/finance.go:19-24 | original = settled + open, 0 <= overdue <= open, every total at most 10^15, for every prefix of the rows |
| Finance.OneReceivableCounts | internal/standardfacts/finance.go:133-151 | one more receivable adds its amounts to its own currency only, and its open part to overdue exactly if it is due more than 90 days before the as-of date |
| Finance.OneReceiptCounts | internal/standardfacts/finance.go:152-161 | one more receipt adds its amount to its own currency exactly if it is of the month of the as-of date |
| Finance.TotalsStartAtZero | internal/standardfacts/finance.go:162-171 | no rows give zeros; a rate is there exactly above zero and is what was settled in percent of the original |
| FinanceStore.Store.PersistFacts | internal/standardfacts/store.go:216-236 | writes all rows of the file or fails at a key that exists |
| FinanceStore.Store.Publish | internal/standardfacts/store.go:144-211 | replays, refuses or publishes; a refused request changes nothing |
| FinanceStore.Store.Status | internal/standardfacts/store.go:95-123 | an error exactly for a damaged source row; otherwise version zero without a batch, or the version of a stored batch with its 64-character digest |
| FinanceStore.VersionsAreContiguous | internal/standardfacts/store.go:144-211 | in every reachable state versions are exactly 1 to N and the source row names batch N |
| FinanceStore.NewFileIsPublished | internal/standardfacts/store.go:173-200 | in a reachable state a valid new file with the current version is published, whatever its rows |
| FinanceStore.RefusedOnlyForConflicts | internal/standardfacts/store.go:163-190 | an acceptable request is refused exactly for other content under its batch id or a stale version; no key ever collides |
| FinanceStore.RequestsAreAnswered | internal/standardfacts/store.go:144-211 | in a reachable state a stored batch id gets its first receipt or a batch conflict, a new one a version conflict or the next version, and only the last of these changes anything |
| FinanceStore.BatchesAreTheirRequests | internal/standardfacts/store.go:173-211 | every stored batch is what exactly such a request published: its digest, date, row count, operator, time and totals, numbered by the batches before it |
| FinanceStore.BatchesNeverChange | internal/standardfacts/store.go:163-172 | a batch id never rebinds to another digest, version or content |
| FinanceStore.ReplayReturnsTheReceipt | internal/standardfacts/store.go:163-172 | a published file sent again at any later time gets its first receipt and changes nothing |
| FinanceStore.StatusTellsTheReceipt | internal/standardfacts/store.go:95-211 | right after a publication the status is not damaged and is exactly the receipt that was returned |
| FinanceStore.ReadFindsExactlyOne | internal/standardfacts/store.go:241-268 | source row and batches join in exactly one row, the newest, and the status is never damaged |
| FinanceStore.FactsAreTheFiles | internal/standardfacts/store.go:216-236 | the fact table holds exactly the receivables and receipts of the published files, each under its batch, kind and id |
| Dictionary.CatalogService.LoadRow | internal/modules/dictionary/application/governance.go:207-232 | finds every code but deleted and unknown ones; afterwards the row's version has a snapshot, at most that baseline was added, and no snapshot changed |
| Dictionary.CatalogService.SaveRow | internal/modules/dictionary/application/governance.go:233-267 | one row is one version higher and nothing else moves; the history gains exactly its snapshot, and the published version before it for the first row of a published metric |
| Dictionary.CatalogService.CreateMetric | internal/modules/dictionary/application/governance.go:268-323 | all of a creation or nothing |
| Dictionary.CatalogService.UpdateMetric | internal/modules/dictionary/application/governance.go:324-367 | all of an update or nothing |
| Dictionary.CatalogService.SetEnabled | internal/modules/dictionary/application/governance.go:368-398 | all of a switch or nothing |
| Dictionary.CatalogService.DeleteMetric | internal/modules/dictionary/application/governance.go:399-429 | all of a deletion or nothing |
| Dictionary.CatalogService.SaveTenantMetrics | internal/modules/dictionary/application/governance.go:461-487 | every entry of a batch in turn, each code once, or none |
| Dictionary.CatalogService.ListForTenant | internal/modules/dictionary/application/governance.go:165-195 | published metrics overlaid with live rows, deleted codes gone, whatever the order of rows; refused above 500 rows |
| DictionaryRuns.RunKeepsInv | internal/modules/dictionary/application/governance.go:196-487 | creations, updates, switches, deletions and batches keep complete histories, distinct ids and justified switches |
| DictionaryRuns.HistoryIsComplete | internal/modules/dictionary/application/governance.go:196-267 | a metric's history holds exactly the versions 1 to the current one, a baseline or creation first, the row itself last |
| DictionaryRuns.NothingComesBack | internal/modules/dictionary/application/governance.go:207-303 | deleted codes never live again, ids and origins stay, versions never fall, snapshots never change |
| DictionaryRuns.EnabledMatchesThePublishedCalculation | internal/modules/dictionary/application/governance.go:104-138 | a stored enabled metric is 2.1, confirmed, not deleted and still calculated as published |
| DictionaryRuns.UpdatesAreRefusedOnlyFor | internal/modules/dictionary/application/governance.go:324-349 | an update is refused exactly for its form, a stale version, a deleted or unknown code, or a taken id |
| DictionaryRuns.PublishedMetricsEscapeTheLimit | internal/modules/dictionary/application/governance.go:233-303 | 500 creations and one edit of a published metric make the list unreadable |
| DictionaryRuns.LimitIsBrokenExactlyBy | internal/modules/dictionary/application/governance.go:165-487 | from every reachable state within the limit: the listing fails after a change exactly if it was accepted and is an edit or switch of a code without a row at 500 rows, or a batch whose codes without a row take the total above 500; then published codes are among them |
| DictionaryRuns.ListingNeverRecovers | internal/modules/dictionary/application/governance.go:165-487 | once the dictionary cannot be listed, no later changes make it listable |
| DictionaryEffects.UpdateTakesEffect | internal/modules/dictionary/application/governance.go:324-367 | after an accepted update the row, its new snapshot and the list carry the given definition under the old identity and origin; it stays enabled only if it may be |
| DictionaryEffects.CreationTakesEffect | internal/modules/dictionary/application/governance.go:268-323 | a creation is accepted exactly for a well formed new code within the limit and a free id; then row, snapshot and list carry the given definition, not enabled |
| DictionaryEffects.SwitchTakesEffect | internal/modules/dictionary/application/governance.go:368-398 | a switch is accepted exactly for the current version of a known metric that may have it; then row, snapshot and list show the requested switch and nothing else differs |
| DictionaryEffects.RemovalTakesEffect | internal/modules/dictionary/application/governance.go:399-429 | a removal is accepted exactly for the current version of a custom metric that nothing refers to; then the row is deleted and its code off the list |
| DictionaryEffects.BatchTakesEffect | internal/modules/dictionary/application/governance.go:461-487 | after an accepted batch every entry stands as given, one version higher, and no other row moved |
| DictionaryEffects.ListShowsTheRows | internal/modules/dictionary/application/governance.go:165-195 | in every reachable state the list is exactly the live rows as they are over the published metrics without a row |
| Migration.Load | internal/migration/migration.go:44-102 | accepts exactly non-empty sets of well formed files whose versions are 1 to n, and returns them in order |
| Migration.FileNamesItem | internal/migration/migration.go:44-102 | an item's name is what stands between the six digits and the extension, its checksum that of the content |
| Migration.Database.Run | internal/migration/migration.go:142-190 | applies what is not recorded, reports what it applied, and stops at the first mismatch or failure |
| Migration.EveryRunIsSound | internal/migration/migration.go:142-190 | after any runs of any builds with any failures, recorded versions are 1 to k, statements ran in order with only the next one repeated, a record carries the checksum that ran last |
| Migration.RunKeepsSound | internal/migration/migration.go:160-190 | one run keeps that, and never executes a version recorded before |
| Migration.NoVersionIsSkipped | internal/migration/migration.go:160-190 | consecutive executions are of the same version or the next one |
| Migration.MismatchExecutesNothing | internal/migration/migration.go:142-169 | an unknown version, other name or other checksum stops the run before a single statement |
| Migration.SuccessRecordsTheBuild | internal/migration/migration.go:160-190 | a run that succeeds has recorded every item under its name and checksum |
| Migration.RunGetsThisFar | internal/migration/migration.go:160-190 | a run over matching records sends the missing statements in order up to the first failing call, and keeps exactly the records that landed |
| Migration.RunSucceedsIff | internal/migration/migration.go:142-190 | a run succeeds exactly if all records agree with the build and both calls of every missing item return |
| Trend.TrendRowsByCurrency | internal/modules/dashboard/infrastructure/gorm_repository.go:596-623 | the first months met, each with the sums and the currency rows of all its facts |
| Trend.CombinePoints | internal/modules/dashboard/infrastructure/gorm_repository.go:627-640 | contract months with their project count, and project months on their own |
| Trend.MergeTrendPoints | internal/modules/dashboard/infrastructure/gorm_repository.go:627-652 | the latest months of contracts and projects together, newest first, whatever the order of the maps |
| Trend.EarlyCutIsHarmless | internal/modules/dashboard/infrastructure/gorm_repository.go:616-652 | cutting falling contract months before merging gives what cutting afterwards gives |
| Trend.LatestIsUnique | internal/modules/dashboard/infrastructure/gorm_repository.go:641-651 | the latest months of a table are one list only |
| Trend.ScopedTrend | internal/modules/dashboard/infrastructure/gorm_repository.go:570-594 | strictly falling, at most the requested months, the latest of what the query returned, and the latest of everything exactly when no fact beyond the row limit is of a month shown |
| Trend.KeptPeriodsConserve | internal/modules/dashboard/infrastructure/gorm_repository.go:602-623 | a kept month has the sums of all its facts and its project count |
| Trend.CurrencyRowsAddUp | internal/modules/dashboard/infrastructure/gorm_repository.go:602-623 | the currency rows of a month are its facts, and add up to its amount and its number of contracts |
| Trend.OneFactIsItsPoint | internal/modules/dashboard/infrastructure/gorm_repository.go:602-623 | a single fact gives one point with its amount, its number of contracts and its currency |
| Trend.LimitIsHarmlessIff | internal/modules/dashboard/infrastructure/gorm_repository.go:570-594 | the list returned is the one without the query's limit exactly when no fact beyond the limit is of one of the latest months of contracts and projects together |
| Trend.EightCurrenciesFit | internal/modules/dashboard/infrastructure/gorm_repository.go:570-594 | with at most eight currencies a month the list returned is the one without the limit |
| Trend.NineCurrenciesDoNotFit | internal/modules/dashboard/interfaces/http/handler.go:112 | with nine currencies in each of any number of months, twelve as the service asks for included, the list returned is not the one without the limit |

## Left out

- Several tenants: each table is that of one tenant. Where a row carries a tenant that the code compares, the comparison is modelled.
- Collation and padding of string keys, rounding of times to milliseconds, SQL text and dialects: keys are compared as strings and times are integers.
- Hashes, JSON and UTF-8 decoding, date and time parsing: functions without properties, except that a parsed date has ten characters and a digest 64.
- Random ids: a new run id or metric id is a parameter; where the code relies on the database to refuse a taken id, the model does too.
- Heartbeat timing, context cancellation and the licence service: a heartbeat is a renewal at any time, cancellation and denial are choices that abort a transaction or an attempt.
- Which expired or queued jobs a worker lists and in which order, and the lock that keeps scheduled and queued rounds of one source apart: a claim may be tried for any job at any time, which covers every list.
- The column last_success_at of a source watermark, which a success sets and nothing here reads.
- The defaults and bounds of lease, heartbeat and timeout settings: the theorems hold for every duration.
- HTTP, machine tokens and URL validation: whether the project API answers, and with which bytes, is a parameter.
- Audit outbox rows, except those of the recovery of legacy jobs.
- Contract expiry thresholds, severity names and the query for candidates: the candidates of a round are a parameter.
- The rest of the trend (project counts, month windows) and the other dashboard queries.
- EndToEnd.VisibleIsOneVerifiedStream: lease generations are unbounded; the code's counter is 64 bits wide. The run generation is bounded as in the code.
- Projection.ProjectionTables.ReclaimProjectStaging: any 200 rows of other runs may be chosen; the code takes them in key order.
- Queue.SyncQueue.ExecuteQueueJob: the heartbeats come one after the other while nobody else acts; what others do between is covered by the theorems on runs of the queue.
- SyncProjection.SyncProjectProjection: batches are staged after the whole stream is read; nothing but the order of reading and staging differs, and a failing batch ends both.
- ImportReport.ReportTables.PublishImportReport: one reading of the clock stands for those of a transaction.
- ImportRounds.EvidenceIsTheLastVerifiedRound: each generation publishes at most once, as its only caller does; the transaction itself would accept a second publication.
- AlertRuns.ClosuresAreBounded: the guard's product may be rounded by one part in 2^53, as a float64 product of numbers in its normal range is; which way is left open.
- Alerts.AlertTable.UpsertAlerts: rows are identified by their target; two targets whose shortened hashes collide are not modelled.
- Scan.ScanSourceBatches: keys are numbered in the order of the key column, which has finitely many places; what the handler does with the rows is a success or a failure.
- GuardedUpsert.DeliveriesKeepTheNewest: deliveries carry a time; a NULL time never replaces anything.
- FinanceStore.ReplayReturnsTheReceipt: the publication time is the stored one; the code's first answer carries it before the database rounds it.
- Dictionary.CatalogService.ListForTenant: the list is a map; sorting it by code is presentation.
- Migration.Database.Run: acquiring the lock and creating the metadata table may fail too; such a run does nothing.
