# Verified model of the persistent protocols of ai-ops

The operations tool keeps its promises in small stores that must survive crashes, restarts, retries and
clock movement. This project models those stores and the evidence pipeline beside them, and proves what
they promise over every run, not over one call.

Each transaction, or each atomic file replacement, is one step. A store is modelled twice: as functions
from tables to tables, which the laws are about, and as a class whose methods change its fields the way
the program does and are proved to do exactly what the functions say. Histories of what was ever sent,
reserved, analysed or stored are kept beside the tables, so that "at most once" is said of whole runs.
Hashes, keyed hashes and canonical encodings are injective, so a hash is kept as the value it covers;
fresh uuids, clock readings, file sizes and what a transport or analyser answers are parameters.

| file | what it covers |
|---|---|
| `ContinuousModel`, `ContinuousModelLaws`, `ContinuousModelClock`, `ContinuousModelRuns`, `ContinuousModelCaps`, `ContinuousModelStops`, `ContinuousModelLife`, `ContinuousModelStore` | the gateway's campaigns, outbox and daily budget: at-most-once paid sends, and how far clocks may be off |
| `ModelComparison`, `ModelComparisonLaws`, `ModelComparisonRuns`, `ModelComparisonApprovals`, `ModelComparisonLife`, `ComparisonStore` | its file-based sibling, with tombstones and two ledgers |
| `Incidents`, `IncidentsLaws`, `IncidentPlay`, `IncidentReader`, `IncidentStore` | the run store: ordered atomic writes, repair, fallback, idempotent resubmission |
| `JobQueue`, `JobQueueLaws`, `JobQueueRetry`, `JobQueueLife`, `JobQueueStore` | the lease and generation queue: fencing, finality, bounded retry |
| `AlertTime`, `Alerts`, `AlertLaws`, `AlertIntake`, `AlertChronology`, `AlertInbox` | alert times as an order, and the alert ledger whose end state does not depend on delivery order |
| `LabLease`, `LabLeaseLaws`, `LabLeaseProgress` | the compare-and-swap lock that never expires, and its cooldown |
| `RecoveryDrafts`, `RecoveryDraftsLaws`, `RecoveryDraftsChecks`, `RecoveryDraftStore` | proposals as event logs with a strict checker |
| `DiagnosticTokens`, `DiagnosticMeaning`, `Evidence`, `Captured`, `CapturedLaws`, `CapturedLogs`, `CapturedMeaning` | projection and normalisation of captured evidence, and what of it is ever stored |
| `SourceTimes`, `Redaction` | the program's source times and one of its redaction rules, which meet the laws the normalisation needs |
| `Snapshot`, `SnapshotLaws`, `SnapshotKeeping`, `SnapshotChecking`, `SnapshotRefusal`, `SnapshotBuilder`, `ReadBudget` | freezing a collection and checking it again |
| `BlindReview`, `BlindReviewImport`, `BlindReviewTerms` | the blind A/B package and its unblinding |
| `RateLimiter` | the fixed-window limiter |
| `Wrappers`, `Sets` | options and results, sizes of sets |

`dafny verify dfyconfig.toml` checks everything.

## What turned out not to hold

- A campaign item can be paid for twice, but only if clocks are off by more than 89 days: a delivery read so
  long before its campaign's creation, or a reservation read so long before an earlier prune, or the two
  together (`AtMostOnceExactly`). The mock entry never looks at the campaign's clock and a prune is not
  remembered, so neither is refused.
- A campaign can send more than its ten items in exactly the same case (`TenExactly`), and a day can reserve
  more than its dollar exactly if a reservation may be read over 90 days before an earlier prune
  (`DollarExactly`).
- The comparison store can send over a dollar on one day, exactly if a run may be read 90 days or more before
  an earlier purge (`CappedExactly`); its at-most-once needs no clock at all.
- The seven-day erasure misses a result that arrives after the body went (`LateResultIsKept`); it is
  complete exactly when there is none (`ErasureMissesExactlyLateResults`).
- A run that is already stored as completed can still become cancelled or failed, exactly if a fault is
  raised between the last write and leaving the guarded part (`FaultAfterLastWriteChangesTheEnd`,
  `FinishedRunCanBecomeCancelled`). Its history is already wrong if the fault comes between setting the final
  status and that write (`LateFaultRewritesTheEnd`).
- A snapshot the builder froze is refused by the checker when an available event's owner uid looks like a
  secret to the redaction, for instance AKIA and sixteen capitals or digits (`ChangedUidIsRefused`,
  `KeyForUidIsRefused`). That is the only case (`ProducerAndCheckerAgree`).
- An observation whose time reads well but falls outside the years 1 to 9999 once it is converted to UTC
  raises past the builder instead of being recorded as invalid, and nothing is added (`AddRaisesExactly`). That
  is exactly a time on the first or the last day whose offset carries it over (`OutOfRangeExactly`), such as
  midnight of the first day at +14:00 (`TooEarlyRaises`).
- Normalised alert times sort as instants from year 1000 on and not before, because the C library writes
  earlier years with fewer than four digits (`OrderHoldsFrom1000`). So an alert said to end in year 999 is
  accepted although it ends before it started (`ShortYearEndIsAccepted`), and would stay as the latest end.
- Finished attempt rows are not immutable in general: cancelling a job that waits to be retried rewrites its
  last failed row, and nothing else does (`FinishedRowChangesExactly`).

## Model

| member | source | states |
|---|---|---|
| `ContinuousModelLaws.SentAtMostOnce` | ai-ops/src/ai_ops/continuous_model.py:420-514 | over every run of the ledger with crashes, restarts, late completions, stops, prunes and re-deliveries, whatever the clocks, an item is sent at most once and only after its reservation was committed, if deliveries read before their campaign and reservations read before an earlier prune are off by 89 days together at most |
| `ContinuousModelRuns.AtMostOnceExactly` | ai-ops/src/ai_ops/continuous_model.py:420-514 | those 89 days, the 90 of a row less the 24 hours of a campaign, are exact: every run within a slack sends each item at most once if and only if the slack is no larger |
| `ContinuousModelRuns.PaysTwice` | ai-ops/src/ai_ops/continuous_model.py:458-514 | for any readings spread wider, a run from the empty ledger within that slack that sends the same item twice |
| `ContinuousModelLaws.SentIsNeverReservedAgain` | ai-ops/src/ai_ops/continuous_model.py:420-473 | within that slack, what was sent can never be reserved again at any later reading, even after its row was pruned and enqueued again, because its 24-hour campaign has ended |
| `ContinuousModelLaws.CampaignSendsAtMostTen` | ai-ops/src/ai_ops/continuous_model.py:456-465 | within that slack a campaign sends ten items at most in its whole life, prunes included |
| `ContinuousModelLaws.BudgetIsConserved` | ai-ops/src/ai_ops/continuous_model.py:458-471 | if no reservation is read more than 90 days before an earlier prune, every UTC day no prune dropped holds exactly ten cents for each reservation of that day, and no day ever reserves more than a dollar |
| `ContinuousModelCaps.TenExactly` | ai-ops/src/ai_ops/continuous_model.py:456-514 | for the limit of ten the 89 days are exact as well: no campaign sends more than ten items in every run within a slack if and only if it is no larger |
| `ContinuousModelCaps.DollarExactly` | ai-ops/src/ai_ops/continuous_model.py:458-514 | for the daily dollar the slack is another and exact too: no day reserves more than a dollar in every run if and only if no reservation is read more than 90 days before an earlier prune |
| `ContinuousModelCaps.ElevenAreSent` | ai-ops/src/ai_ops/continuous_model.py:456-514 | for any readings spread wider, if the eleventh reservation falls on another day or the prune dropped its day, a run from the empty ledger that sends eleven items of one campaign, and reserves all eleven on that one day in the second case |
| `ContinuousModelLaws.PruneSparesWhatCanBeSent` | ai-ops/src/ai_ops/continuous_model.py:502-514 | pruning changes neither the budget of the day nor any row, body included, whose campaign can still be active for a reservation, within the six days a body outlives its campaign |
| `ContinuousModelLaws.OnlyApprovedCampaignsPay` | ai-ops/src/ai_ops/continuous_model.py:207-234 | with any clocks, whatever is reserved belongs to a campaign a named actor approved, within its day and under the terms it was prepared with; an approved live campaign never lacks its approval |
| `ContinuousModelLaws.ReservedRowsAreAttempts` | ai-ops/src/ai_ops/continuous_model.py:456-457 | while a campaign can send, the rows counted against its limit are exactly the reservations ever made for it |
| `ContinuousModelLaws.RestartParks` | ai-ops/src/ai_ops/continuous_model.py:496-500 | a restart keeps the rows, leaves none being sent, makes none ready again and changes no other row |
| `ContinuousModelClock.MonotoneIsTimely` | ai-ops/src/ai_ops/continuous_model.py:461-463 | a run whose readings never go back uses up none of the slack, and stamps nothing later than its clock |
| `ContinuousModelClock.StoredRowsStayIntact` | ai-ops/src/ai_ops/continuous_model.py:444-463 | in such a run no row of an active campaign fails the integrity check, and no reading is refused as going back |
| `ContinuousModelClock.ErasureMissesExactlyLateResults` | ai-ops/src/ai_ops/continuous_model.py:506-508 | in such a run a prune leaves no week-old body, rules or result behind if and only if no row holds a result without a body |
| `ContinuousModelRuns.LateResultIsKept` | ai-ops/src/ai_ops/continuous_model.py:482-508 | a concrete run whose late result survives every prune until its row goes |
| `ContinuousModelStops.StoppedIsForEver` | ai-ops/src/ai_ops/continuous_model.py:420-494 | once a campaign was stopped, at every later moment of every run, prunes and approvals included, none of its items can be reserved and none was since, nothing is delivered for it and nobody can approve it |
| `ContinuousModelStops.StopChangesOneState` | ai-ops/src/ai_ops/continuous_model.py:492-494 | stopping changes no other campaign, no row, no approval and no budget |
| `ContinuousModelLife.PaidExactly` | ai-ops/src/ai_ops/continuous_model.py:420-473 | over every run and with any clock, a waiting item is reserved if and only if its body is still there, its campaign is approved and in its day, code, transport and prices are those of the plan, and both limits leave room; then ten cents and the mark are written together and nothing else |
| `ContinuousModelLife.PaidRowsAgree` | ai-ops/src/ai_ops/continuous_model.py:436-455 | of any tables, forged ones included, nothing is paid for a row that no longer says what was bound, nor for a live campaign without its complete approval |
| `ContinuousModelLife.PreparedExactly` | ai-ops/src/ai_ops/continuous_model.py:154-205 | over every run a campaign is prepared for 24 hours under a fresh id if and only if its plan is one of its mode |
| `ContinuousModelLife.MockApprovedExactly` | ai-ops/src/ai_ops/continuous_model.py:224-234 | over every run a mock campaign is approved if and only if it is prepared, in its 24 hours and named with its very terms |
| `ContinuousModelLife.LiveApprovedExactly` | ai-ops/src/ai_ops/continuous_model.py:207-222 | the same for a live one with both acknowledgements; no earlier approval is ever in the way |
| `ContinuousModelLife.DeliveredExactly` | ai-ops/src/ai_ops/continuous_model.py:249-308 | over every run a delivery leaves one new item, or nothing if that very item or another of its source run is there or its campaign does not take it; delivered again, the item is accepted if and only if it is bound to the same |
| `ContinuousModelLife.SubmittedExactly` | ai-ops/src/ai_ops/continuous_model.py:310-368 | the same for the live entry, which takes items for an approved campaign in its day only |
| `ContinuousModelLife.CompletedExactly` | ai-ops/src/ai_ops/continuous_model.py:487-490 | a late outcome is written if and only if the item is still being sent, and then it waits for review with its identity, dates and body |
| `ContinuousModelLife.RestartedExactly` | ai-ops/src/ai_ops/continuous_model.py:496-500 | a restart holds back exactly what was being sent |
| `ContinuousModelLife.PrunedExactly` | ai-ops/src/ai_ops/continuous_model.py:502-514 | over every run a prune drops exactly the rows and budget days of 90 days ago and the campaigns of that age that keep no row, and erases exactly the bodies a week old |
| `ContinuousModelStore.ContinuousModelStore.PrepareCampaign` | ai-ops/src/ai_ops/continuous_model.py:154-205 | a campaign is added for 24 hours, or nothing changes and the reason is returned |
| `ContinuousModelStore.ContinuousModelStore.ApproveMock` | ai-ops/src/ai_ops/continuous_model.py:224-234 | a prepared, unexpired, exactly matching mock campaign becomes approved, or nothing changes |
| `ContinuousModelStore.ContinuousModelStore.ApproveLive` | ai-ops/src/ai_ops/continuous_model.py:207-222 | the same for a live campaign, with its approval row |
| `ContinuousModelStore.ContinuousModelStore.Insert` | ai-ops/src/ai_ops/continuous_model.py:289-308 | the insertion both entries end with: idempotent on identity, refusing a second item of a source run |
| `ContinuousModelStore.ContinuousModelStore.Enqueue` | ai-ops/src/ai_ops/continuous_model.py:249-308 | the mock entry, without a look at the campaign clock |
| `ContinuousModelStore.ContinuousModelStore.EnqueueSubmission` | ai-ops/src/ai_ops/continuous_model.py:310-368 | the live entry, inside an approved campaign only |
| `ContinuousModelStore.ContinuousModelStore.Reserve` | ai-ops/src/ai_ops/continuous_model.py:420-473 | the transaction before the paid call: every check, the budget, the clock and the mark, or nothing |
| `ContinuousModelStore.ContinuousModelStore.Complete` | ai-ops/src/ai_ops/continuous_model.py:487-490 | the transaction after the paid call, which writes only while the item is still being sent |
| `ContinuousModelStore.ContinuousModelStore.Stop` | ai-ops/src/ai_ops/continuous_model.py:492-494 | a campaign is stopped |
| `ContinuousModelStore.ContinuousModelStore.ReconcileSending` | ai-ops/src/ai_ops/continuous_model.py:496-500 | items being sent are held for review |
| `ContinuousModelStore.ContinuousModelStore.Prune` | ai-ops/src/ai_ops/continuous_model.py:502-514 | the statements of the prune, in order, together give the pruned tables |
| `ModelComparisonLaws.SentAtMostOnce` | ai-ops/src/ai_ops/model_comparison.py:237-338 | over every run with crashes between any two file writes, purges and re-preparations, under any clock, an identifier is sent at most once |
| `ModelComparisonLaws.SentCannotBeginAgain` | ai-ops/src/ai_ops/model_comparison.py:251-296 | after it was sent, no call of run reserves for that identifier again: its record is spent or a tombstone |
| `ModelComparisonLaws.SendsAreReserved` | ai-ops/src/ai_ops/model_comparison.py:237-296 | the sends of a day never exceed its written reservations, wherever a crash falls |
| `ModelComparisonLaws.LedgerCoversSends` | ai-ops/src/ai_ops/model_comparison.py:237-249 | whatever the clock, if no run is read 90 days or more before an earlier purge, a day no purge dropped holds exactly ten cents for each reservation, and every day reserves a dollar at most and covers its sends |
| `ModelComparisonRuns.CappedExactly` | ai-ops/src/ai_ops/model_comparison.py:237-338 | those 90 days are exact: no day sends over a dollar in every run read at most so many days before a purge if and only if they are fewer than 90 |
| `ModelComparisonRuns.ElevenOnOneDay` | ai-ops/src/ai_ops/model_comparison.py:237-338 | a run from the empty store, with a purge read 90 days ahead, that sends eleven requests on one day |
| `ModelComparisonLaws.ClockIsNeverRefused` | ai-ops/src/ai_ops/model_comparison.py:237-249 | a run whose readings never go back is in time for every purge, and no reservation or purge in it is refused as a clock that went back |
| `ModelComparisonApprovals.PaidExactlyWhenApproved` | ai-ops/src/ai_ops/model_comparison.py:186-296 | over every run and with any clock, a reservation is written if and only if the comparison waits with an approval that was given for its terms, with both acknowledgements for a live plan, half an hour ago at most and within its seven days, and transport, code, prices and budget are those of its plan |
| `ModelComparisonLife.ApprovedExactly` | ai-ops/src/ai_ops/model_comparison.py:186-208 | over every run an approval is given if and only if the comparison is prepared, in its seven days, named with its terms, still derived by the code, its prices are fresh and a live one has both acknowledgements |
| `ModelComparisonLife.PaidRecordsAgree` | ai-ops/src/ai_ops/model_comparison.py:251-277 | of any files, forged ones included, nothing is paid without a current approval of the very terms of the record |
| `ModelComparisonLife.SendIsClosed` | ai-ops/src/ai_ops/model_comparison.py:281-296 | over every run what a sender reports after its send is stored as the end, and nothing else |
| `ModelComparisonLife.StoppedSendIsParked` | ai-ops/src/ai_ops/model_comparison.py:260-263 | a send whose process stopped is never repeated: the next run holds it for review and reports it unknown |
| `ModelComparisonLife.EndsAreKept` | ai-ops/src/ai_ops/model_comparison.py:251-338 | whatever runs later, an ended record keeps its end until its tombstone replaces it, and the tombstone stays for ever |
| `ModelComparisonLife.BuriedExactly` | ai-ops/src/ai_ops/model_comparison.py:303-325 | over every run a purge replaces a record by its tombstone if and only if its seven days are over |
| `ModelComparisonLife.PurgedExactly` | ai-ops/src/ai_ops/model_comparison.py:303-338 | a whole purge buries every expired record and then cuts the mock and the live ledger, up to the first whose last reading is ahead |
| `ComparisonStore.ComparisonStore.Prepare` | ai-ops/src/ai_ops/model_comparison.py:150-172 | a record is added for seven days; the same binding again is a no-op, a tombstone included, and another binding is a conflict |
| `ComparisonStore.ComparisonStore.Approve` | ai-ops/src/ai_ops/model_comparison.py:186-208 | a prepared record within its life becomes approved for thirty minutes at most, or nothing changes |
| `ComparisonStore.ComparisonStore.Reserve` | ai-ops/src/ai_ops/model_comparison.py:237-249 | ten cents are added to the day of the mode, within the limit and never back in time |
| `ComparisonStore.ComparisonStore.Run` | ai-ops/src/ai_ops/model_comparison.py:251-296 | a run refuses, parks an unknown earlier send, returns a finished record, or reserves, marks, sends once and closes, in that order |
| `ComparisonStore.ComparisonStore.PurgeLedger` | ai-ops/src/ai_ops/model_comparison.py:328-337 | days 90 days old leave the ledger |
| `ComparisonStore.ComparisonStore.Purge` | ai-ops/src/ai_ops/model_comparison.py:303-338 | every expired record becomes a tombstone, one file at a time, before both ledgers are cut |
| `IncidentsLaws.RepairRestoresTheStore` | ai-ops/src/ai_ops/incidents.py:247-267 | wherever the last lock holder stopped, repair included, once the lock is held and repaired the index and the runs with metadata are in one-to-one correspondence and no run is active |
| `IncidentsLaws.ResubmissionReturnsTheRun` | ai-ops/src/ai_ops/incidents.py:412-417 | submitting the input of a stored run again starts nothing and returns that run, which reads back without error |
| `IncidentsLaws.AnotherInputIsRefused` | ai-ops/src/ai_ops/incidents.py:412-417 | any other input under the request of a stored run is refused as contradictory and starts nothing |
| `IncidentsLaws.AnalysedAtMostOnce` | ai-ops/src/ai_ops/incidents.py:412-456 | over every run, however often it crashed and was submitted again, the analyser is asked at most once for a request |
| `IncidentsLaws.FinishedMeansDurable` | ai-ops/src/ai_ops/incidents.py:269-331 | at every moment a run stored as completed or partial has its input, report, rendering and, for a model report, its tool audit, and the reader accepts it |
| `IncidentsLaws.HistoriesAreLegal` | ai-ops/src/ai_ops/incidents.py:239-246 | every stored history is a legal path from accepted that ends in the stored status, as long as no fault is raised after the final status was set |
| `IncidentsLaws.TerminalRunsNeverChange` | ai-ops/src/ai_ops/incidents.py:239-267 | as long as no fault is raised after the last write, the metadata of an ended run never changes, through earlier faults, fallbacks, crashes and repairs |
| `IncidentsLaws.EndedRunsAreFinal` | ai-ops/src/ai_ops/incidents.py:239-267 | the same for any run from the empty store: what has ended at one moment is the same at every later one |
| `IncidentsLaws.FaultAfterLastWriteChangesTheEnd` | ai-ops/src/ai_ops/incidents.py:468-474 | that window is exact: any fault raised after the last write and handled turns the run stored as completed or partial into a failed or cancelled one |
| `IncidentsLaws.LateFaultRewritesTheEnd` | ai-ops/src/ai_ops/incidents.py:468-474 | for histories the window opens with the final status and is exact too: a fault raised in it and handled always leaves an illegal history |
| `IncidentsLaws.UndisturbedRunFinishes` | ai-ops/src/ai_ops/incidents.py:434-470 | left alone, an investigation whose analyser answers well reaches its end, stored, finished and indexed |
| `IncidentsLaws.FinishedRunCanBecomeCancelled` | ai-ops/src/ai_ops/incidents.py:468-474 | from any such investigation, an interrupt right after the last write undoes the finished run |
| `IncidentStore.IncidentStore.Transition` | ai-ops/src/ai_ops/incidents.py:239-245 | the status, reason and history change in memory and the metadata file alone is replaced |
| `IncidentStore.IncidentStore.Reconcile` | ai-ops/src/ai_ops/incidents.py:247-267 | the repair loop fails exactly the interrupted runs, indexes every run with metadata and keeps every existing entry |
| `IncidentStore.IncidentStore.FindRequest` | ai-ops/src/ai_ops/incidents.py:160-169 | a stored request is found if and only if some run with metadata has it, and its record is readable |
| `IncidentStore.IncidentStore.InvestigateBundle` | ai-ops/src/ai_ops/incidents.py:377-505 | an undisturbed call stores exactly the concluded run and its index entry; if an earlier run has the request, it is refused exactly if that run has another input, and otherwise returns that run's report, or nothing if it ended without one |
| `IncidentStore.IncidentStore.Recover` | ai-ops/src/ai_ops/incidents.py:472-502 | the handlers store the fallback report for a listed model failure, and a cancelled or failed status otherwise |
| `IncidentStore.ConcludedIsOk` | ai-ops/src/ai_ops/incidents.py:419-505 | what an undisturbed call stores is durable, readable and has a legal history that ended |
| `IncidentPlay.ConcludedIsPlayed` | ai-ops/src/ai_ops/incidents.py:412-505 | the concluded run is what the steps of the run store leave, played from the start of an investigation with the one fault it meets, the handlers included |
| `IncidentPlay.RecoveredIsPlayed` | ai-ops/src/ai_ops/incidents.py:468-502 | the recovered run is what the steps of the handler leave, from wherever the fault was raised |
| `IncidentPlay.FaultDecidesTheEnd` | ai-ops/src/ai_ops/incidents.py:468-502 | over every run, whatever is raised and handled ends the run in the status and reason of that fault; the fallback report is stored if and only if it ends as partial, and a tool audit if the model left one |
| `IncidentReader.ReadExactly` | ai-ops/src/ai_ops/incidents.py:269-331 | whatever files are there, a run is read if and only if they agree with each other, with the name of the run and with the end its metadata tells, and then its own report is returned |
| `IncidentReader.ChangedSnapshotIsRefused` | ai-ops/src/ai_ops/incidents.py:269-331 | no file of a finished snapshot run, nor its status, reason or name, can be replaced unnoticed, unless input and report are forged together |
| `JobQueueLaws.ReachableShape` | ai-ops/src/ai_ops/job_queue.py:194-309 | in every reachable database one job is active at most, at most 100 wait, generation equals attempts and is at most 3, attempt rows are exactly the generations, each the child of its predecessor and failed unless it is the last, a lease is set exactly on active jobs, and a job is the one of its key |
| `JobQueueLaws.ClaimsAreSpaced` | ai-ops/src/ai_ops/job_queue.py:247-261 | two claims of a job are apart by min(5 * 2^(a-1), 20) seconds after the failed attempt a |
| `JobQueueLaws.LateOperationChangesNothing` | ai-ops/src/ai_ops/job_queue.py:267-309 | an operation of an attempt the job has left, or that stopped, changes no table, however many transactions run in between; heartbeat, checkpoint and finish report the lost lease |
| `JobQueueLaws.OwnerAndRecoveryExclude` | ai-ops/src/ai_ops/job_queue.py:293-297 | at any reading the conditions of an owner failing and of recovery failing exclude each other |
| `JobQueueLaws.TerminalJobsAreFinal` | ai-ops/src/ai_ops/job_queue.py:231-309 | a job that ended keeps its row until it is purged |
| `JobQueueLaws.SupersededAttemptsAreFinal` | ai-ops/src/ai_ops/job_queue.py:231-309 | attempt rows below the current generation are failed and never change again |
| `JobQueueLaws.FinishedRowChangesExactly` | ai-ops/src/ai_ops/job_queue.py:231-309 | a finished attempt row that is still there changes if and only if its job is cancelled while it waits to be retried after that attempt; only retention removes rows |
| `JobQueueLaws.EndedAttemptsAreFinal` | ai-ops/src/ai_ops/job_queue.py:231-309 | once a job has ended, all its attempt rows, the last one included, are final until it is purged |
| `JobQueueLaws.WorkIsBounded` | ai-ops/src/ai_ops/job_queue.py:247-309 | over any run a job changes state at most nine times and is claimed at most three times, by a measure each change decreases |
| `JobQueueLaws.KeyHasOneJob` | ai-ops/src/ai_ops/job_queue.py:194-210 | an episode key keeps the one job it was given |
| `JobQueueLaws.ClaimTakesTheOldest` | ai-ops/src/ai_ops/job_queue.py:247-262 | a claim takes the ready job no other precedes, and only when none is active |
| `JobQueueRetry.FailedAttemptEndsExactly` | ai-ops/src/ai_ops/job_queue.py:293-309 | an attempt fails if and only if it runs and its owner still has the lease, or recovery finds it over; then with review its job needs review, and without it is queued again after 5, 10 or 20 seconds if fewer than three attempts were made and failed at the third, and nothing else changes |
| `JobQueueRetry.FailedJobIsRetried` | ai-ops/src/ai_ops/job_queue.py:247-309 | after a first or second failure, whatever runs in between without claiming or cancelling the job, a claim whose turn it is takes it if and only if its pause is over |
| `JobQueueRetry.ThreeAttemptsAreMade` | ai-ops/src/ai_ops/job_queue.py:194-309 | a run from the empty queue that claims one job three times |
| `JobQueueLife.SubmittedExactly` | ai-ops/src/ai_ops/job_queue.py:194-210 | in every reachable database a key is answered by its own job, if that is not being deleted and was submitted with the same content, and a new key starts a job if and only if fewer than a hundred wait |
| `JobQueueLife.ClaimedExactly` | ai-ops/src/ai_ops/job_queue.py:247-262 | a job is claimed if and only if one is due and its turn, and then that job and its new attempt row are all that changes |
| `JobQueueLife.CheckpointExactly` | ai-ops/src/ai_ops/job_queue.py:278-282 | in every reachable database the owner moves on exactly while its lease lasts, with its attempt row |
| `JobQueueLife.FinishedExactly` | ai-ops/src/ai_ops/job_queue.py:284-291 | in every reachable database the owner publishes a completed or partial report exactly while its lease lasts, on the job and its attempt row alike |
| `JobQueueLife.CancelledExactly` | ai-ops/src/ai_ops/job_queue.py:231-241 | cancelling ends a job exactly while it waits or runs, together with the row of its last attempt |
| `JobQueueStore.JobQueue.Submit` | ai-ops/src/ai_ops/job_queue.py:194-210 | submission commits exactly its transaction, deduplicated on the episode key, or changes nothing |
| `JobQueueStore.JobQueue.Claim` | ai-ops/src/ai_ops/job_queue.py:247-262 | the oldest ready job is claimed with its lease and attempt row, or nothing changes |
| `JobQueueStore.JobQueue.Heartbeat` | ai-ops/src/ai_ops/job_queue.py:273-276 | the lease of the owning attempt is extended, or the lease is reported lost |
| `JobQueueStore.JobQueue.Checkpoint` | ai-ops/src/ai_ops/job_queue.py:278-282 | the owning attempt moves to analysis, or the lease is reported lost |
| `JobQueueStore.JobQueue.Finish` | ai-ops/src/ai_ops/job_queue.py:284-291 | the owning attempt publishes its result |
| `JobQueueStore.JobQueue.Fail` | ai-ops/src/ai_ops/job_queue.py:293-309 | the owner or recovery fails the attempt: retry with backoff, review, or the end |
| `JobQueueStore.JobQueue.Cancel` | ai-ops/src/ai_ops/job_queue.py:231-241 | a waiting job is cancelled with its last attempt row |
| `AlertTime.KeysOrderInstants` | ai-ops/src/ai_ops/alerts.py:26-38 | for times in UTC years 1000 to 9999, normalised texts are equal exactly for equal instants and compare as the instants do (sections 5.1 and 5.6 of RFC 3339) |
| `AlertTime.NumberIsInstant` | ai-ops/src/ai_ops/alerts.py:26-38 | the numeric form counts the same instant as the text |
| `AlertTime.ShortYearSortsWrong` | ai-ops/src/ai_ops/alerts.py:26-38 | year 999, written with three digits, sorts after year 1000 |
| `AlertTime.OrderHoldsFrom1000` | ai-ops/src/ai_ops/alerts.py:26-38 | the order holds from a year on if and only if that year is at least 1000 |
| `AlertTime.DateOfInvertsOrdinal` | ai-ops/src/ai_ops/alerts.py:26-38 | the date of a day number has that day number |
| `AlertTime.DateOfOrdinal` | ai-ops/src/ai_ops/alerts.py:26-38 | and the day number of a date gives back the date |
| `AlertTime.CivilOfInvertsSeconds` | ai-ops/src/ai_ops/alerts.py:26-38 | the civil time of a number of seconds counts to that number |
| `AlertTime.CivilOfSeconds` | ai-ops/src/ai_ops/alerts.py:26-38 | and the seconds of a civil time give back the civil time |
| `AlertLaws.PermutedRawDelivery` | ai-ops/src/ai_ops/alerts.py:64-161 | permuting the raw alerts of one delivery changes nothing but job ids: both are refused as malformed, or both are refused by the transaction, or both are accepted and leave the same |
| `AlertLaws.AcceptItemErased` | ai-ops/src/ai_ops/alerts.py:131-160 | accepting one item is a step that depends on no job id |
| `AlertLaws.CountsSum` | ai-ops/src/ai_ops/alerts.py:127-161 | the five counts of a receipt sum to the size of the delivery |
| `AlertLaws.AcceptAllExplains` | ai-ops/src/ai_ops/alerts.py:129-160 | after any accepted deliveries an episode is resolved exactly when a resolved alert for it arrived, and its end is the latest delivered, as texts compare |
| `AlertLaws.OrderBatchingAndRepetitionDoNotMatter` | ai-ops/src/ai_ops/alerts.py:124-161 | two histories with the same alerts, in any order, batching and repetition, leave the same status and end for every episode |
| `AlertLaws.AcceptAllLinks` | ai-ops/src/ai_ops/alerts.py:145-158 | an episode that started keeps the one job it was linked to |
| `AlertLaws.ResolvedInDeliveryStartsNoJob` | ai-ops/src/ai_ops/alerts.py:128-131 | an episode resolved within a delivery starts no job in it |
| `AlertIntake.FiringPreparedExactly` | ai-ops/src/ai_ops/alerts.py:83-121 | a firing alert out of scope is set aside, in scope it is kept if and only if it is well formed, and otherwise refused; what is kept names the registered target of its labels and the question to ask |
| `AlertIntake.ResolvedPreparedExactly` | ai-ops/src/ai_ops/alerts.py:83-121 | the same for a resolved one, which must name its end |
| `AlertIntake.AcceptedExactly` | ai-ops/src/ai_ops/alerts.py:131-160 | an item is taken in if and only if its key stands for no other alert, the ledger has room and the queue takes its job, and then one row, one count and at most one job change |
| `AlertChronology.EndsInOrderAreAccepted` | ai-ops/src/ai_ops/alerts.py:64-118 | a well-formed resolved alert that ends in year 1000 or later is accepted if and only if it started since 1970, is not too far ahead and ended no earlier than it started, as instants |
| `AlertChronology.AcceptedEndsInOrder` | ai-ops/src/ai_ops/alerts.py:109-112 | an accepted alert ended no earlier than it started, as instants, if and only if its end lies in year 1000 or later |
| `AlertChronology.ShortYearEndIsAccepted` | ai-ops/src/ai_ops/alerts.py:109-112 | whatever started before year 9000 and is said to end in year 999 is accepted, although it ends before it started |
| `AlertChronology.KeepsLaterFrom1000` | ai-ops/src/ai_ops/alerts.py:150-153 | of two ends acceptance keeps the later instant, among all ends from some year on, if and only if that year is at least 1000 |
| `AlertChronology.StoredEndIsLatestInstant` | ai-ops/src/ai_ops/alerts.py:129-160 | after any history of deliveries the stored end is the latest delivered instant, for ends in year 1000 or later |
| `AlertInbox.AlertInbox.Prepare` | ai-ops/src/ai_ops/alerts.py:64-80 | each alert of a delivery becomes an item or is rejected, in order |
| `AlertInbox.AlertInbox.Accept` | ai-ops/src/ai_ops/alerts.py:124-161 | one delivery is prepared, sorted and applied in one transaction, or nothing changes |
| `LabLeaseLaws.MutualExclusion` | ai-ops/src/ai_ops/b6_coordination.py:53-95 | with any number of clients, writes that arrive late, twice or never and answers that are lost, at most one client is between acquire returning and release being called, while nobody deletes the lease |
| `LabLeaseLaws.OneClientPerLease` | ai-ops/src/ai_ops/b6_coordination.py:53-95 | even when the lease is deleted and made again, no two clients are inside the same lease |
| `LabLeaseLaws.DeadHolderBlocksForever` | ai-ops/src/ai_ops/b6_coordination.py:53-76 | a holder that never releases blocks every later acquire: no run of the others changes the lease |
| `LabLeaseLaws.LostAnswerBlocksForever` | ai-ops/src/ai_ops/b6_coordination.py:53-95 | a holder that never heard its acquire succeed blocks every later acquire, whatever it goes on to call |
| `LabLeaseLaws.UnheardTakeIsStuck` | ai-ops/src/ai_ops/b6_coordination.py:69-75 | a take that is committed but not heard leaves a new client in exactly that state |
| `LabLeaseLaws.HolderCanRelease` | ai-ops/src/ai_ops/b6_coordination.py:77-95 | a holder can plan its release if and only if it remembers this very lease, and then the release frees it |
| `LabLeaseLaws.NextAcquireWaits` | ai-ops/src/ai_ops/b6_coordination.py:61-68 | with any clocks, the next object stored for a lease was not acquired before what it replaced allowed |
| `LabLeaseLaws.EveryLaterAcquireWaits` | ai-ops/src/ai_ops/b6_coordination.py:61-95 | with readings that never go back, every later acquire waited for everything the lease ever said, and not-before never decreases |
| `LabLeaseLaws.ReleaseStoresCooldown` | ai-ops/src/ai_ops/b6_coordination.py:86-95 | a release after a started scenario, read at r, stores not-before r + 305 seconds and frees the client |
| `LabLeaseLaws.StartedReleaseHoldsOff` | ai-ops/src/ai_ops/b6_coordination.py:61-95 | once a release after a started scenario, read at r, is stored, however late its write arrives, every acquire stored later was read at r + 305 seconds or later |
| `LabLeaseProgress.FreeLeaseCanBeAcquired` | ai-ops/src/ai_ops/b6_coordination.py:53-68 | an idle client gets past the checks of acquire if and only if the lease is absent, or is the lab's own, has no holder and names no moment after the reading |
| `LabLeaseProgress.HeardAcquireEnters` | ai-ops/src/ai_ops/b6_coordination.py:53-75 | and then, when its write arrives and is heard on an unchanged server, the lease names it and it is inside |
| `LabLeaseProgress.CooledDownLeaseCanBeTaken` | ai-ops/src/ai_ops/b6_coordination.py:53-95 | a lease given back after a started scenario at reading r is taken by any idle client that finds it so from r + 305 seconds on, and not before |
| `LabLeaseProgress.OnlyTheRecoveredHolderReleases` | ai-ops/src/ai_ops/b6_coordination.py:77-95 | only a verified recovery of the client that took this very lease and still holds it gives it back |
| `LabLease.LabLease.Acquire` | ai-ops/src/ai_ops/b6_coordination.py:53-68 | what acquire writes, or why it refuses |
| `LabLease.LabLease.Acquired` | ai-ops/src/ai_ops/b6_coordination.py:69-75 | the uid is remembered exactly when the answer confirms the holder |
| `LabLease.LabLease.Release` | ai-ops/src/ai_ops/b6_coordination.py:77-88 | what release writes, or why it refuses |
| `LabLease.LabLease.Released` | ai-ops/src/ai_ops/b6_coordination.py:89-95 | the uid is forgotten exactly when the answer confirms the release |
| `RecoveryDraftsLaws.AcceptsExactlyPhases` | ai-ops/src/ai_ops/c_recovery.py:500-513 | the strict checker accepts a state row and log if and only if they are those of an open, cancelled-in-time or lapsed proposal |
| `RecoveryDraftsLaws.EveryAcceptedLogIsReachable` | ai-ops/src/ai_ops/c_recovery.py:424-565 | every log the checker accepts is one the store can write |
| `RecoveryDraftsLaws.HistoryIsNeverRejected` | ai-ops/src/ai_ops/c_recovery.py:476-527 | over every run from an empty or legacy database the checker never rejects what is stored: it fails only for a wrong actor or a moment before creation |
| `RecoveryDraftsLaws.StoredHistory` | ai-ops/src/ai_ops/c_recovery.py:476-527 | every stored history is a draft event and at most one end, by the owner in time or by the deadline |
| `RecoveryDraftsLaws.StateLockedRefines` | ai-ops/src/ai_ops/c_recovery.py:476-527 | the locked transaction is the clock acting on the phase, seen by the requester |
| `RecoveryDraftsLaws.CancelRefines` | ai-ops/src/ai_ops/c_recovery.py:549-565 | cancel ends an open proposal at its moment, a late one at its deadline, and leaves an ended one |
| `RecoveryDraftsLaws.EndsAreFinal` | ai-ops/src/ai_ops/c_recovery.py:476-565 | an ended proposal stays as it ended under any operations and clock |
| `RecoveryDraftsLaws.StatusIsWhatWasStored` | ai-ops/src/ai_ops/c_recovery.py:516-527 | the view of status, an expiring one included, equals an immediate re-read, and any later one once it ended |
| `RecoveryDraftsLaws.CancelIsWhatWasStored` | ai-ops/src/ai_ops/c_recovery.py:549-565 | the view of cancel equals any later re-read |
| `RecoveryDraftsLaws.ExpiryOnReadAndSave` | ai-ops/src/ai_ops/c_recovery.py:446-474 | read commits the expiry it finds; save finds the same expiry and rolls it back |
| `RecoveryDraftsLaws.ReadableExactlyWhileOpen` | ai-ops/src/ai_ops/c_recovery.py:459-474 | a proposal can be read if and only if it is open and its deadline has not passed |
| `RecoveryDraftsChecks.SavedExactly` | ai-ops/src/ai_ops/c_recovery.py:424-457 | in every reachable database a draft is saved if and only if it fits its request in every shared field, meets no other content, request or proposal, and has not ended, and no other proposal is touched |
| `RecoveryDraftsChecks.ServedExactly` | ai-ops/src/ai_ops/c_recovery.py:476-527 | of any database whatever, forged rows included, a proposal is served if and only if its requester asks, from its creation on, and its state row and log are ones the store could have written |
| `RecoveryDraftsChecks.EndWrittenExactly` | ai-ops/src/ai_ops/c_recovery.py:529-540 | an end is written if and only if the row is the draft of the version that was read, and adds exactly one event, in order |
| `RecoveryDraftStore.RecoveryDraftStore.SaveRequest` | ai-ops/src/ai_ops/c_recovery.py:405-413 | a request is stored once |
| `RecoveryDraftStore.RecoveryDraftStore.Save` | ai-ops/src/ai_ops/c_recovery.py:424-457 | a draft is registered with its history, or nothing changes |
| `RecoveryDraftStore.RecoveryDraftStore.Read` | ai-ops/src/ai_ops/c_recovery.py:459-474 | the proposal, with the expiry committed even when the read fails |
| `RecoveryDraftStore.RecoveryDraftStore.StateLocked` | ai-ops/src/ai_ops/c_recovery.py:476-527 | ownership, history and expiry are checked together, legacy rows included |
| `RecoveryDraftStore.RecoveryDraftStore.TransitionLocked` | ai-ops/src/ai_ops/c_recovery.py:529-540 | an end is written only from the draft state and version that were read |
| `RecoveryDraftStore.RecoveryDraftStore.Status` | ai-ops/src/ai_ops/c_recovery.py:542-547 | the view of a proposal, or a rollback |
| `RecoveryDraftStore.RecoveryDraftStore.Cancel` | ai-ops/src/ai_ops/c_recovery.py:549-565 | the cancelled view and event, or a rollback |
| `SnapshotLaws.ProducerAndCheckerAgree` | ai-ops/src/ai_ops/collection.py:234-366 | after any candidates, readings and deadline, the checker accepts the frozen snapshot if and only if no available event holds an owner uid that redaction changed; times are UTC dates of the years 1 to 9999 |
| `SnapshotRefusal.AgreeWithProgramTimes` | ai-ops/src/ai_ops/collection.py:234-366 | the same with the program's own reading and writing of times, and nothing assumed of them |
| `SnapshotRefusal.ChangedUidIsRefused` | ai-ops/src/ai_ops/data_policy.py:46-130 | whatever owner uid redaction changes, the builder freezes a snapshot of such an event and the checker refuses it |
| `SnapshotRefusal.KeyForUidIsRefused` | ai-ops/src/ai_ops/data_policy.py:46-130 | a concrete such snapshot: an owner uid of AKIA and sixteen zeros |
| `Redaction.CodecIsLawful` | ai-ops/src/ai_ops/evidence.py:68-92 | the laws taken for granted of times and redaction hold of the program's times and of its rule for access keys |
| `Redaction.KeysPassForUids` | ai-ops/src/ai_ops/evidence.py:74 | every access key passes the check of an owner uid, and that rule masks it |
| `SourceTimes.UtcTextReads` | ai-ops/src/ai_ops/evidence.py:47-64 | every UTC text reads back as its instant, to the microsecond |
| `SourceTimes.ZonedReads` | ai-ops/src/ai_ops/evidence.py:47-60 | a time with any explicit offset of at most 14 hours, and any digits of a second, reads as the instant that many minutes before its own clock, and its offset is kept as it was written |
| `SourceTimes.ZoneSaysOffset` | ai-ops/src/ai_ops/evidence.py:47-60 | and those minutes are what the sign and digits of the offset say, negative behind UTC |
| `SourceTimes.OutOfRangeExactly` | ai-ops/src/ai_ops/evidence.py:47-64 | a text that reads well denotes an instant outside the years 1 to 9999 if and only if its date is the first or the last and its offset carries it over |
| `SnapshotRefusal.AddRaisesExactly` | ai-ops/src/ai_ops/collection.py:272-340 | a candidate that could be added is recorded with its audit entry, or raises past the builder exactly when its time is such a text |
| `SnapshotRefusal.RaisingLeavesNothing` | ai-ops/src/ai_ops/collection.py:272-279 | and then nothing is added |
| `SnapshotRefusal.TooEarlyRaises` | ai-ops/src/ai_ops/collection.py:272-279 | midnight of the first day at +14:00 is such a time |
| `SnapshotLaws.CheckerAcceptsExactly` | ai-ops/src/ai_ops/data_policy.py:46-130 | the same for any normalisation that is stable |
| `SnapshotChecking.CheckedExactly` | ai-ops/src/ai_ops/data_policy.py:46-130 | whoever wrote it, a snapshot is accepted if and only if it is of these settings, its times and status fit, and every item has exactly one entry that says the same of it, with times that read as stored and a payload that is its own normal form |
| `SnapshotLaws.ProgramIsStable` | ai-ops/src/ai_ops/data_policy.py:104-118 | the program normalises every stored payload, rebuilt, to itself in any wider window, except such an event |
| `SnapshotLaws.AddKeepsBuilder` | ai-ops/src/ai_ops/collection.py:234-340 | every added item is the normal form of its candidate with its time metadata, or holds no payload |
| `SnapshotKeeping.AddedExactly` | ai-ops/src/ai_ops/collection.py:234-262 | a candidate is added if and only if it is in scope and new, has a time of its kind, there is room, and the clock is not behind the start |
| `SnapshotKeeping.KeptExactly` | ai-ops/src/ai_ops/collection.py:263-340 | what is added records the first thing that is wrong with its time or payload, keeps the payload in its normal form if and only if nothing is, and charges the log budget for every log that was looked at |
| `SnapshotKeeping.CollectionStaysInBudget` | ai-ops/src/ai_ops/collection.py:234-340 | over any candidates, no more items than allowed are kept, each once and with its audit entry, logs within their budget and no payload too large |
| `SnapshotKeeping.FrozenExactly` | ai-ops/src/ai_ops/collection.py:342-366 | a collection is frozen once, if and only if it is open, not empty, small enough and the clock is not behind an item, and it is complete if and only if everything is available and nothing ran out of time |
| `CapturedLaws.NormalizeAgain` | ai-ops/src/ai_ops/evidence.py:350-439 | normalising captured evidence is idempotent after the checker rebuilds the raw form, for an event exactly when redaction left its owner uid alone |
| `CapturedLaws.EventAgain` | ai-ops/src/ai_ops/evidence.py:386-398 | a stored event normalises to itself if and only if redaction left its owner uid alone |
| `CapturedLaws.MetricAgain` | ai-ops/src/ai_ops/evidence.py:285-317 | a stored metric, its samples put back to their source times, normalises to itself in any wider window |
| `CapturedLaws.LogAgain` | ai-ops/src/ai_ops/evidence.py:361-385 | a stored log, its lines put behind their source times, normalises to itself in any wider window |
| `CapturedLaws.FlatAgain` | ai-ops/src/ai_ops/evidence.py:418-439 | workload, deployment and configuration payloads normalise to themselves |
| `Evidence.ProjectAgain` | ai-ops/src/ai_ops/evidence.py:254-282 | projection onto the allowed fields is idempotent if and only if redaction leaves every kept text, and it stays short enough |
| `CapturedMeaning.ProjectedExactly` | ai-ops/src/ai_ops/evidence.py:254-282 | a value is projected if and only if it conforms to the shape, within the limits of length, number and depth, and what is left has redacted texts and of every object the allowed fields only |
| `CapturedLogs.LogHoldsTokensOnly` | ai-ops/src/ai_ops/evidence.py:361-385 | a stored log has the name of its container and, for each line that carries a token and in their order, its time and tokens; nothing else of the text is left |
| `CapturedLogs.NothingToKeepExactly` | ai-ops/src/ai_ops/evidence.py:361-385 | a log has no diagnostic fields if and only if it is well formed and none of its lines carries a token |
| `CapturedMeaning.EventHoldsTokensOnly` | ai-ops/src/ai_ops/evidence.py:386-398 | an event is stored if and only if it fits and redaction keeps its owner, and then as its reason, type, redacted owner and tokens only |
| `CapturedMeaning.FlatHoldsAllowedFields` | ai-ops/src/ai_ops/evidence.py:418-439 | workloads, deployments and configuration are stored if and only if their allowed fields are plain and pass the checks of their kind, and then as those very fields |
| `CapturedMeaning.MetricHoldsItsMeaning` | ai-ops/src/ai_ops/evidence.py:285-317 | a metric is stored if and only if its projection means what its query asks, such as just a ratio of one at most and the traffic behind it, and its samples lie in the window; then every sample is dated in UTC |
| `DiagnosticTokens.TokensAreStable` | ai-ops/src/ai_ops/evidence.py:334-347 | the diagnostic tokens of the rendered tokens of any text are those tokens |
| `DiagnosticTokens.WordlessHasNoTokens` | ai-ops/src/ai_ops/evidence.py:396-397 | a text without word characters, such as the fixed notice of an omitted message, has no tokens |
| `DiagnosticTokens.DiagnoseIsShort` | ai-ops/src/ai_ops/evidence.py:334-347 | the projection of any text is short |
| `DiagnosticMeaning.MarkerStandsExactly` | ai-ops/src/ai_ops/evidence.py:334-337 | a marker is a token of a text if and only if it stands somewhere in it with no word character next to it |
| `DiagnosticMeaning.FieldTokenStands` | ai-ops/src/ai_ops/evidence.py:338-347 | a field is a token only if key and value are in the vocabulary and stand in the text as key=value with no word character next to them |
| `DiagnosticMeaning.StandingFieldIsToken` | ai-ops/src/ai_ops/evidence.py:338-347 | and any that stands so is one, unless the same key and an equals sign come just before |
| `ReadBudget.ReadsStayInBudget` | ai-ops/src/ai_ops/collection.py:194-232 | over any reads, discarded ones included, the byte budgets are overrun by one reply beyond its limit at most |
| `ReadBudget.AcceptedStaysInBudget` | ai-ops/src/ai_ops/collection.py:194-232 | what was accepted never exceeds the total budget, whatever the transport returns |
| `ReadBudget.AsksForAllThatFits` | ai-ops/src/ai_ops/collection.py:200-210 | a read asks for the largest reply that every limit and budget allows, and for none if not one byte fits |
| `ReadBudget.ReadIsPaidFor` | ai-ops/src/ai_ops/collection.py:211-221 | whatever comes back to a read is paid for in full, used or not, and nothing else is |
| `ReadBudget.ReadAcceptedExactly` | ai-ops/src/ai_ops/collection.py:194-232 | a reply is accepted if and only if it was asked for, came in time with status 200 and fits every budget |
| `SnapshotBuilder.SnapshotBuilder.Read` | ai-ops/src/ai_ops/collection.py:194-232 | one read spends its budgets and is accepted or refused with the fixed reason |
| `SnapshotBuilder.SnapshotBuilder.Observe` | ai-ops/src/ai_ops/collection.py:272-288 | the time of an observation, read and placed against the window |
| `SnapshotBuilder.SnapshotBuilder.Retain` | ai-ops/src/ai_ops/collection.py:289-325 | the log budget is spent, the payload normalised and kept with its time metadata, or the reason why not |
| `SnapshotBuilder.SnapshotBuilder.Refuse` | ai-ops/src/ai_ops/collection.py:240-262 | what raises before anything is recorded |
| `SnapshotBuilder.SnapshotBuilder.Add` | ai-ops/src/ai_ops/collection.py:234-340 | one candidate is appended with its audit entry, or nothing changes |
| `SnapshotBuilder.SnapshotBuilder.Finish` | ai-ops/src/ai_ops/collection.py:342-366 | the items and audit are frozen together, once |
| `SnapshotBuilder.NormalizeSampleTimes` | ai-ops/src/ai_ops/evidence.py:285-295 | sample times are rewritten in place, all of them or the evidence is refused |
| `SnapshotBuilder.CollectLines` | ai-ops/src/ai_ops/evidence.py:368-383 | the loop over log lines keeps those with a token, or refuses them all |
| `SnapshotBuilder.ValidateSnapshot` | ai-ops/src/ai_ops/data_policy.py:46-130 | the loop over the evidence decides exactly the checks of a snapshot |
| `BlindReview.BuildPackage` | ai-ops/scripts/prepare_blind_review.py:36-78 | a package is built if and only if both packets are well formed and agree, and it shows behind each alias the report of the mode the map names |
| `BlindReview.HalfShowFixedFirst` | ai-ops/scripts/prepare_blind_review.py:46-55 | whatever the shuffle, exactly eight cases show the fixed report first |
| `BlindReview.BuiltMapIsInvertible` | ai-ops/scripts/prepare_blind_review.py:49-78 | the private map names both modes for every one of the sixteen cases |
| `BlindReviewTerms.PackageTellsNothing` | ai-ops/scripts/prepare_blind_review.py:36-78 | the package alone does not tell who wrote which report: if the two ways of working had written each other's reports and the shuffle had fallen the other way, it would be the same |
| `BlindReviewTerms.BuildableExactly` | ai-ops/scripts/prepare_blind_review.py:20-65 | a package is built if and only if both packets hold the first report of each of sixteen different cases, of one suite and rubric, and the cases are the same |
| `BlindReviewTerms.CaseIsShownOnce` | ai-ops/scripts/prepare_blind_review.py:49-78 | in a built package each case is shown once, with its own fields and one report of each packet behind the two aliases, and the private map says which is which and keeps its class |
| `BlindReviewImport.ImportReviews` | ai-ops/scripts/prepare_blind_review.py:95-155 | an import succeeds if and only if the submission is acceptable and each mode gets sixteen judgements, and then returns them sorted by mode and case |
| `BlindReviewImport.CountCheckNeverFires` | ai-ops/scripts/prepare_blind_review.py:147-148 | on the map of a built package the final count check never fires, by the pigeonhole on 32 different pairs |
| `BlindReviewTerms.AcceptableExactly` | ai-ops/scripts/prepare_blind_review.py:95-148 | on the map of a built package judgements are imported if and only if a named reader attests to them for this package, both blank forms are its own, and every one of the 32 reports is judged exactly once and completely |
| `BlindReviewTerms.JudgementIsImportedWhole` | ai-ops/scripts/prepare_blind_review.py:118-155 | every judgement of an accepted submission lands under the way of working whose report it judged, as the only one of its case there, and says the same |
| `BlindReviewImport.OutputIsComplete` | ai-ops/scripts/prepare_blind_review.py:147-155 | each mode gets every one of the sixteen cases exactly once, in order |
| `BlindReviewImport.UnblindingInvertsBlinding` | ai-ops/scripts/prepare_blind_review.py:118-155 | a judgement of the report shown as an alias lands, with its content, under the mode whose report was shown there, and alone for that case |
| `RateLimiter.Server.Allowed` | ai-ops/src/ai_ops/alert_receiver.py:85-90 | one call of the limiter |
| `RateLimiter.AnyMinuteAdmitsAtMostTwice` | ai-ops/src/ai_ops/alert_receiver.py:85-90 | any half-open minute admits at most two windows of calls, 120 for the alert server |
| `RateLimiter.WindowAdmitsTheFirst` | ai-ops/src/ai_ops/alert_receiver.py:85-90 | inside one window exactly the first calls up to the limit are admitted |
| `RateLimiter.TwoWindowsFillAMinute` | ai-ops/src/ai_ops/alert_receiver.py:85-90 | the bound of two windows is met |

## Left out

- File permissions, locks, fsync and symbolic links: a transaction or a replaced file is one atomic step.
- Floating-point rounding: clock readings are real numbers, or whole microseconds where the program uses dates.
- Shapes of labels, identifiers and hashes that the program checks with patterns, where a type already excludes the rest.
- Characters outside ASCII as letters or digits: the diagnostic tokens read word characters as ASCII, and alert times accept ASCII digits only.
- More than one clock reading inside one call: each modelled call has the readings its transaction uses.
- Continuous model: the table of rejected projections and the queries that only read.
- Continuous model: what a mock or live transport computes; a send is one step that may or may not be followed by its completion.
- Comparison store: previews, orphaned temporary files, the keyed hash of each file and the re-validation of a stored model report.
- Run store: the daily AI budget file, API keys, `replay`, and the text of reports; analysers answer a report or raise.
- Run store: faults raised inside a handler are the same as a crash there.
- Run store: snapshot reports of earlier rule versions, which the reader derives again by their own rules; one version is modelled.
- Job queue: `worker.py` and `retention.py` enter only as the transactions they call; deleting purged files is one step.
- JobQueueStore.JobQueue.Finish: carries the ownership check its caller makes in the same transaction, because the program's own method has none.
- Alerts: the identity hash and the target settings are parameters of the prepared item.
- AlertLaws.PermutedRawDelivery: says that a permuted delivery is refused together with the original; the reasons the two transactions name are not compared.
- Lab lease: an operator who edits the lease by hand; deleting it is modelled.
- Recovery drafts: how a proposal is drafted; its matching fields, times and state are kept, its diff and patterns are not.
- Recovery drafts: time texts, which read back exactly.
- Captured evidence: redaction counts, runbooks, and file bundles with a manifest.
- Captured evidence: redaction is any function that leaves a bracket where it changes a text and leaves the fixed vocabulary alone; of the program's rules only the one for access keys is written out.
- Source times: a fraction or an offset is read as Python 3.11 reads it, with digits beyond the sixth dropped.
- SnapshotLaws.ProducerAndCheckerAgree: takes registered query dimensions and a positive lookback, as the collectors and settings guarantee.
- Snapshot reads: which requests are inside the registered scope.
- Blind review: the HTML page; case names are their rank in the order the program sorts by.
