# Verification of the subscription platform's protocols

A Dafny model of the parts of the API server in `apps/api/src` that have a real protocol, state machine,
calendar or codec in them, with proofs of what they promise. Database rows are values held in maps and
sequences, a single statement or transaction is one atomic step, and every `await` at which another request
may come between is a step boundary. `dafny verify dfyconfig.toml` checks everything.

Most components come in two layers.

* A *machine*: a state, a set of events and a total function `Next` (an event that is not possible changes
  nothing). `Run` folds it over any sequence of events, so a lemma about `Run(Init, es)` speaks of every
  interleaving, failure and repetition. Main results are lemmas of this kind.
* A *class* with the source's methods, whose loops and field updates are proved against the machine (a
  ghost `trace` says which run the object has been through) or against a specification function, so that
  what is proved of the machine holds of the objects.

## Modules

| module | what it is about |
|---|---|
| `Backoff` | the capped exponential wait shared by the sync engine and the job worker |
| `ErpLedger`, `SyncRow`, `SyncChain`, `SyncTiming`, `SyncEngine` | financial sync: the ERP as a ledger that honours idempotency keys; overlapping attempts over a lossy network; the life of one row; the engine's methods |
| `LicenseKeys` | the compare-and-swap activation loop with any number of callers, revocation and transfer |
| `Calendar`, `Schedule`, `ScheduleText` | UTC days and civil dates; `computeNextRun`; the schedule strings |
| `JobQueue`, `JobAccounting`, `JobPacing`, `JobChains`, `JobFinality`, `JobDrain`, `JobWorker` | the background-job queue, its worker and its administrators, whose requests read a job and write it later |
| `Entitlements`, `EntitlementSync`, `EntitlementRuns`, `EntitlementService` | grants, precedence, the cached answer, the sync of a subscription's grants, and runs of all the operations |
| `Sessions`, `SessionService` | refresh-token rotation and replay punishment, step by step and request by request |
| `FinancialEvents` | recording an event once under a race |
| `Webhooks`, `WebhookRedelivery`, `WebhookRepeats`, `WebhookService` | webhook deliveries, redeliveries, overlapping deliveries and manual confirmations down to the financial event |
| `Paging` | the keyset cursor, pages, and whole walks over a table that may change |
| `CsvExport` | the audit export against a reader of section 2 of RFC 4180 |

## What turned out not to hold

Each of these is stated by a lemma, with the condition under which the promise does hold.

* Exactly-once is per ledger: a sync whose organization edits its connection's address or company between two
  attempts is invoiced on both ledgers; this happens if and only if the connections that attempts read lead
  to two ledgers (`SyncChain.EditedConnectionInvoicesTwice`, `SyncChain.InvoicedTwiceIffTwoLedgers`). A
  successful sync stores the connection's id but not where it led, so the stored ids lead to the documents
  if and only if no connection is ever read with two addresses (`SyncChain.StoredIdLeadsBackIff`).
* The attempt that an organization's retry starts looks at neither status nor due time, and a retry writes
  what it read earlier. Behind a sweep's attempt this leaves SUCCESS with an unresolved error, or a success
  turned into a dead letter (`SyncTiming.DirectAttemptDisagrees`). Status, error and numbering agree if and
  only if no write hit a SUCCESS row and no success was recorded over a dead letter
  (`SyncTiming.SyncAccounting`); which attempts and retries keep the agreement is stated row by row
  (`SyncTiming.AttemptKeepsAccounting`, `SyncTiming.RetryKeepsAccounting`).
* Revoking a license key does not stop a caller that has already read it: one activation can land afterwards,
  if and only if a caller is about to swap on the count as it stands
  (`LicenseKeys.LandsAfterRevocationIffPoised`, `LicenseKeys.AtMostOneLandsAfterRevocation`).
* `Date.UTC` reads the years 0 to 99 as 1900 to 1999, so the next calendar run is right exactly when the
  year of `from` is not one of these (`Schedule.NextRunIsNext`). Weekday 7 to 9 matches the pattern and
  never ends the weekly loop (`Schedule.NoSuchWeekDay`).
* An administrator's cancellation or retry of a job checks a row that it has read before and then writes it
  whatever it has become. A finished job stays finished if and only if nobody is about to write it
  (`JobFinality.FinishedIsFinal`, `JobFinality.LateRetryUndoesSuccess`), and a recurring chain has one
  unfinished job if and only if no such write took a success away (`JobChains.OneUnfinishedJobPerChain`).
  A cancellation between the worker's load and its mark is lost
  (`JobFinality.CancelBetweenLoadAndMarkIsLost`).
* A recurring job whose successor cannot be created has its recorded success turned into a failure under
  the same attempt number (`JobFinality.SuccessIsTakenBack`); job histories are exact if and only if this
  never happened (`JobAccounting.HistoryIsExact`).
* The entitlement cache does not follow the clock: a row stays right if and only if its grant has not run
  out and no stronger one has begun (`Entitlements.RowStaysRight`). A sync leaves the grants of a former
  plan's definitions as they are (`EntitlementSync.FormerPlanGrantsStay`).
* A lineage need not keep one live session: a live token that is presented can get its session two successors
  if and only if a refresh of it is still in flight then, about to create the new session or to mark the old
  one (`Sessions.ForksIffHeld`; `Sessions.OverlapForks` has two refreshes at once). A refresh that has passed
  its check survives the punishment of a replay (`Sessions.RacerSlipsThrough`).
* An event need not advance its subscription once. A redelivery can have the subscription engine act again if
  and only if the event's row is not PROCESSED when it begins (`WebhookRepeats.RedeliveryAdvancesIff`), which
  is so after a failure anywhere behind the engine: in the books, the platform event or the marking. A first
  payment may then be booked as a renewal (`WebhookRedelivery.RedeliveryRenewsTwice`).
* Nor is it marked once. When a delivery begins while another one of the event is at work, both can come
  through if and only if the row is not PROCESSED, the other is not yet marking it FAILED and the transaction
  it may be about to create is not there yet (`WebhookRepeats.BothComeThroughIff`;
  `WebhookRedelivery.OverlapProcessesTwice` has two that both looked before either was done).
* A cursor leads back to its row exactly when the row's id is not empty and holds no bar
  (`Paging.CursorRoundTrip`).

## Model

| member | source | states |
|---|---|---|
| Backoff.TotalClosedForm | apps/api/src/financial-events/sync-engine.service.ts:343-346 | for every m, the first m waits sum to 2^(m+1) - 2 minutes while m <= 5 and to 62 + 60(m - 5) from there on |
| Backoff.FirstWaits | apps/api/src/background-jobs/job-worker.service.ts:164-167 | the waits are 2, 4, 8, 16 and 32 minutes in milliseconds, an hour from the sixth on, and thirty minutes in all before a fifth attempt |
| ErpLedger.Find | apps/api/src/erp-connector/ledgix-erp-connector.service.ts:27-33 | the document a key stands for, and none only if no document has the key |
| ErpLedger.PostAnswersOnce | apps/api/src/erp-connector/ledgix-erp-connector.service.ts:27-33 | a request whose key was answered adds nothing whatever it asks for, no request adds two documents, and a new key is answered with the document it made |
| ErpLedger.KeysIdentifyCalls | apps/api/src/financial-events/sync-engine.service.ts:299-326 | keys built from any two sync ids and call names are equal only for the same call of the same sync |
| SyncChain.NextKeepsInv | apps/api/src/financial-events/sync-engine.service.ts:123-341 | every step of overlapping attempts, lossy deliveries and manual retries keeps ledgers duplicate-free, requests and phases rooted in the sync's own documents, and rows truthful |
| SyncChain.ExactlyOnceEffect | apps/api/src/financial-events/sync-engine.service.ts:253-341 | after any run, in each ledger a sync has at most one invoice, one receipt and one payment, which bill its own event field by field, the receipt on that invoice and the payment on that receipt; only activations, renewals and payments of LedGix organizations reach it |
| SyncChain.SuccessNamesTheChain | apps/api/src/financial-events/sync-engine.service.ts:145-177 | a charge sync that is SUCCESS stores the ids of a complete chain, which is all it has in the ledger its connection led to when the attempt read it, even when attempts overlap |
| SyncChain.SuccessBillsTheEvent | apps/api/src/financial-events/sync-engine.service.ts:288-326 | the chain of a charge sync that is SUCCESS bills its event: the invoice its amount, currency, tax, discount, description and payer, the receipt the same amount and currency, the payment its method and reference, each with the source's default when the event has none |
| SyncChain.StatusesUnderOverlap | apps/api/src/financial-events/sync-engine.service.ts:179-228 | even under overlap RETRYING has 1 to 4 attempts, and DEAD_LETTER at least 5 and an unresolved error |
| SyncChain.OnlyTheirLedgers | apps/api/src/financial-events/sync-engine.service.ts:253-297 | no ledger is ever written but those that the connections read by attempts lead to, and rows store such connections only |
| SyncChain.OneAddressOneLedger | apps/api/src/financial-events/sync-engine.service.ts:253-297 | if the connections that attempts read lead to one ledger only, no other is ever written |
| SyncChain.InvoiceLands | apps/api/src/erp-connector/ledgix-erp-connector.service.ts:215-269 | after any run a further attempt whose request gets through leaves the sync's invoice on the ledger it resolved to, and takes nothing from any ledger |
| SyncChain.EditedConnectionInvoicesTwice | apps/api/src/financial-integration/erp-connection.service.ts:85-101 | for any two contents of a connection that lead to different ledgers, the id unchanged or not, some run that reads these only leaves an invoice of the same sync on both ledgers |
| SyncChain.InvoicedTwiceIffTwoLedgers | apps/api/src/financial-events/sync-engine.service.ts:253-297 | over a set of connections to be read some run invoices a sync on two ledgers if and only if two of the set lead to different ledgers |
| SyncChain.StoredIdLeadsBackIff | apps/api/src/financial-events/sync-engine.service.ts:145-177 | over a set of connections to be read, the id that a successful charge stores leads to its documents in every run if and only if no connection of the set has two addresses |
| SyncTiming.StatusesHold | apps/api/src/financial-events/sync-engine.service.ts:145-228 | in every run of sweeps, manual retries and the attempts these start, RETRYING has 1 to 4 attempts, DEAD_LETTER at least 5 and an unresolved error, and there are at most five attempts and two for each retry |
| SyncTiming.HistoryCounts | apps/api/src/financial-events/sync-engine.service.ts:145-228 | the history has an entry for each counted failure and for a success, and exactly one too many for each write that hit a SUCCESS row |
| SyncTiming.SyncAccounting | apps/api/src/financial-events/financial-sync.service.ts:94-137 | the history is numbered 1, 2, ... exactly if no attempt or retry wrote a row that was SUCCESS; DEAD_LETTER and an unresolved error go together exactly if no success was recorded over a dead letter |
| SyncTiming.AttemptKeepsAccounting | apps/api/src/financial-events/sync-engine.service.ts:123-229 | after any run that left numbering, status and error in agreement, one more attempt leaves the row in agreement if and only if the row was neither SUCCESS nor, when the attempt succeeds, DEAD_LETTER |
| SyncTiming.RetryKeepsAccounting | apps/api/src/financial-events/financial-sync.service.ts:102-122 | the write of a retry keeps that agreement if and only if the row it hits is not SUCCESS |
| SyncTiming.RetryWrites | apps/api/src/financial-events/financial-sync.service.ts:102-122 | a retry makes the row pending and due at once whatever it has become, and resolves the error only if it read one |
| SyncTiming.DirectAttemptDisagrees | apps/api/src/financial-events/financial-sync.service.ts:123-134 | after any run that dead-lettered the row, a retry whose own attempt comes behind the sweep's leaves SUCCESS with an unresolved error, or turns a success into a dead letter and logs one number twice |
| SyncTiming.ElapsedCoversBackoffs | apps/api/src/financial-events/sync-engine.service.ts:343-346 | failed attempts i to j of the automatic retries are at least the sum of their waits apart |
| SyncTiming.FirstDeadLetter | apps/api/src/financial-events/sync-engine.service.ts:179-228 | whatever is attempted directly or retried late, the first dead-lettering is the fifth attempt's, after four RETRYING ones and at least thirty minutes after the first failure |
| SyncEngine.TriesPostOnce | apps/api/src/erp-connector/ledgix-erp-connector.service.ts:215-269 | however many of a request's tries the ERP processes, its document is posted once, and is posted if any try was processed |
| SyncEngine.BatchIsDue | apps/api/src/financial-events/sync-engine.service.ts:98-118 | a sweep takes at most twenty rows, each once and in order of creation, that are PENDING or RETRYING and whose time has come; such a row that it leaves out was created after twenty it takes |
| SyncEngine.SweepKeepsRowsOrderly | apps/api/src/financial-events/sync-engine.service.ts:98-118 | a sweep keeps every row in step with its history when it attempts the rows that were due when it looked |
| SyncEngine.RetryKeepsRowsOrderly | apps/api/src/admin-financial/admin-financial.service.ts:147-174 | a manual retry of a dead-lettered row keeps every row in step with its history |
| SyncEngine.SyncEngineService.constructor | apps/api/src/financial-events/sync-engine.service.ts:81-95 | an empty store is where the machine begins |
| SyncEngine.SyncEngineService.CreateSync | apps/api/src/financial-events/financial-events.service.ts:90-96 | a new sync row is pending with no attempts and is the machine's creation step |
| SyncEngine.SyncEngineService.SendOnce | apps/api/src/erp-connector/ledgix-erp-connector.service.ts:215-240 | one try puts the request on its way and reaches only its own ledger, once |
| SyncEngine.SyncEngineService.Call | apps/api/src/erp-connector/ledgix-erp-connector.service.ts:215-269 | of at most three tries one is answered exactly when the call is, with the document its key stands for; the ledger holds it once if any try was processed |
| SyncEngine.SyncEngineService.SyncLedgixErp | apps/api/src/financial-events/sync-engine.service.ts:253-341 | the charge ends well exactly when all three calls are answered, and then the ledger holds the chain it names, whose documents bill the event; it is a run of the machine throughout |
| SyncEngine.SyncEngineService.AttemptSync | apps/api/src/financial-events/sync-engine.service.ts:123-229 | an attempt rewrites exactly its row, which tells of success, retry after the backoff or dead letter as outcome and count demand, succeeds exactly when provider, connection and answers allow, and touches no ledger but the one its connection leads to |
| SyncEngine.SyncEngineService.ProcessDue | apps/api/src/financial-events/sync-engine.service.ts:98-118 | a sweep attempts each of the first twenty due rows once and leaves every other row alone |
| SyncEngine.SyncEngineService.Retry | apps/api/src/admin-financial/admin-financial.service.ts:147-174 | a manual retry finds, refuses or re-arms the row as status and ownership say; a re-armed row is due at once and nothing else changes |
| SyncEngine.SyncEngineService.RetryAtOnce | apps/api/src/financial-events/financial-sync.service.ts:94-137 | the organization's retry re-arms the row and then attempts it without looking at status or due time, succeeding exactly when provider, connection and answers allow |
| LicenseKeys.ActivationSafety | apps/api/src/licenses/license-keys.service.ts:94-133 | under every interleaving the count is the initial count plus the calls that landed, each once, and never exceeds the limit |
| LicenseKeys.GivingUpTakesFive | apps/api/src/licenses/license-keys.service.ts:97-132 | a call that ends in "please retry" read five times with another landed activation between any two reads and after the last |
| LicenseKeys.RefusedOnlyWhenFull | apps/api/src/licenses/license-keys.service.ts:98-113 | on a key nobody revokes and that does not expire the only refusal of its organization's calls is a full key |
| LicenseKeys.FiveCallsAllLand | apps/api/src/licenses/license-keys.service.ts:97-132 | at most five calls on an unrevoked, unexpired key with room for all are never refused and never give up |
| LicenseKeys.AtMostOneLandsAfterRevocation | apps/api/src/licenses/license-keys.service.ts:135-156 | under every interleaving at most one activation lands after the revocation |
| LicenseKeys.OneMayLandAfterRevocation | apps/api/src/licenses/license-keys.service.ts:98-128 | for every key that can be activated some run lands one activation after the revocation |
| LicenseKeys.LandsAfterRevocationIffPoised | apps/api/src/licenses/license-keys.service.ts:110-115 | from a state in which the key is revoked some continuation lands an activation if and only if a caller is about to swap on the count as it stands |
| LicenseKeys.NextKeepsInv | apps/api/src/licenses/license-keys.service.ts:94-211 | every step of a call, a revocation or a transfer keeps the count, the log of landed calls and each call's reads in step |
| LicenseKeys.EveryCallIsJudgedRightly | apps/api/src/licenses/license-keys.service.ts:94-133 | in every run whoever landed or is about to swap belongs to the key's organization and last read it not after its expiry, and whoever was refused was refused for what it then read |
| LicenseKeys.ActivatesIff | apps/api/src/licenses/license-keys.service.ts:98-113 | calls of an organization that read at an instant can activate the key if and only if it is theirs, not past its expiry then, and has room |
| LicenseKeys.NobodyActivatesExpired | apps/api/src/licenses/license-keys.service.ts:103-105 | if every read of a run comes after the expiry nobody activates the key |
| LicenseKeys.TransferMovesTheKey | apps/api/src/licenses/license-keys.service.ts:158-211 | a transfer moves the key to the other license, for good until the next one, and changes nothing else |
| LicenseKeys.LicenseKeysService.IncrementIf | apps/api/src/licenses/license-keys.service.ts:110-115 | the conditional update counts one activation and logs its caller exactly when the count is still the expected one, and else changes no row and leaves the caller a further read or none |
| LicenseKeys.LicenseKeysService.GetKey | apps/api/src/licenses/license-keys.service.ts:98-108 | the caller goes on to its swap exactly when the row is its organization's, not revoked, not expired and not full, and is else refused for the first of these that fails |
| LicenseKeys.LicenseKeysService.TryOnce | apps/api/src/licenses/license-keys.service.ts:97-129 | one round refuses or goes on to its swap exactly as the row, when it is read, calls for, and ends as the machine's call does |
| LicenseKeys.LicenseKeysService.Activate | apps/api/src/licenses/license-keys.service.ts:94-133 | with any steps of others between its own, the loop ends as its call does in the machine; success is logged, and giving up means five other landed activations during the call |
| Calendar.YearLength | apps/api/src/background-jobs/schedule.util.ts:35-49 | the first days of successive years are 365 or 366 days apart as the leap-year rule of section 21.4.1 of ECMA-262 says |
| Calendar.YearIsUnique | apps/api/src/background-jobs/schedule.util.ts:35-49 | a day lies in one year only |
| Calendar.YearsAreGregorian | apps/api/src/background-jobs/schedule.util.ts:38-47 | years have 366 days when divisible by 400, or by 4 and not by 100, and else 365 |
| Calendar.MonthsAreGregorian | apps/api/src/background-jobs/schedule.util.ts:38-47 | April, June, September and November have 30 days, February 28 or 29, the others 31 |
| Calendar.DayToCivilAndBack | apps/api/src/background-jobs/schedule.util.ts:40-46 | for every day, making a day of its year, month and date gives the day back |
| Calendar.CivilToDayAndBack | apps/api/src/background-jobs/schedule.util.ts:40-46 | for every valid civil date, the day made of it has that year, month and date |
| Schedule.NextAtTimeOfDay | apps/api/src/background-jobs/schedule.util.ts:54-62 | for a valid time the method finds the least later instant at that time of day if and only if the year of `from` is not misread |
| Schedule.ComputeNextRun | apps/api/src/background-jobs/schedule.util.ts:10-52 | the method, its weekly loop included, computes the specified next run, in at most six rounds when the weekday is 0 to 6: for intervals so many seconds, minutes, hours or days later, for calendar schedules the least later occurrence exactly unless the year is misread |
| Schedule.DailyIsNext | apps/api/src/background-jobs/schedule.util.ts:20-23 | the daily branch finds the least later instant at that time of day |
| Schedule.WeeklyIsNext | apps/api/src/background-jobs/schedule.util.ts:25-33 | the weekly branch finds the least later instant on that weekday at that time |
| Schedule.MonthlyIsNext | apps/api/src/background-jobs/schedule.util.ts:35-49 | the monthly branch finds the least later instant on date min(DD, 28) at that time, across December too |
| Schedule.NextRunIsNext | apps/api/src/background-jobs/schedule.util.ts:20-62 | for documented ranges the computed run is the least later occurrence, and the only instant that is, if and only if `Date.UTC` does not misread the year of `from` |
| Schedule.NextRunAdvances | apps/api/src/background-jobs/schedule.util.ts:10-62 | for documented ranges the next run is strictly later in every year |
| Schedule.EveryAdvances | apps/api/src/background-jobs/schedule.util.ts:11-18 | an interval schedule advances if and only if its amount is positive |
| Schedule.UnitsAgree | apps/api/src/background-jobs/schedule.util.ts:11-18 | sixty seconds make a minute, sixty minutes an hour, twenty-four hours a day, and an interval of days keeps the time of day |
| Schedule.OccurrencesShow | apps/api/src/background-jobs/schedule.util.ts:20-49 | an occurrence is an instant at which the clock shows the hour and minute, on the weekday or date asked for |
| Schedule.WeekDaysFollow | apps/api/src/background-jobs/schedule.util.ts:25-33 | the epoch was a Thursday, weekdays follow each other day by day and change at midnight only |
| Schedule.NoSuchWeekDay | apps/api/src/background-jobs/schedule.util.ts:25-33 | on weekday 7 to 9 no number of rounds ends the loop |
| ScheduleText.ParseReadsTheVocabulary | apps/api/src/background-jobs/schedule.util.ts:1-52 | a text is read as a schedule exactly when it is one of that schedule's documented forms |
| ScheduleText.PrintedIsRead | apps/api/src/background-jobs/schedule.util.ts:11-51 | every schedule the patterns have room for has a text that is read back as it |
| ScheduleText.IntervalTextRuns | apps/api/src/background-jobs/schedule.util.ts:11-18 | `every:<n>` with s, m, h or d runs n seconds, minutes, hours or days later |
| ScheduleText.FieldsComeInOrder | apps/api/src/background-jobs/schedule.util.ts:20-49 | the hour comes before the minute, behind the weekday or the date |
| JobQueue.BatchIsTheFirstTwenty | apps/api/src/background-jobs/job-worker.service.ts:45-66 | a job that waits in a queue that is not paused, with its times come, is left out of a sweep only behind twenty that are more urgent, or as urgent and older |
| JobQueue.BatchIsDue | apps/api/src/background-jobs/job-worker.service.ts:45-66 | every job a sweep takes is PENDING, SCHEDULED or RETRYING, in a queue that is not paused, with neither of its times to come; at most twenty, each once, by priority and then by age |
| JobAccounting.NextKeepsInv | apps/api/src/background-jobs/job-worker.service.ts:79-162 | every step of the worker and every read and every write of the administrators keeps attempt bounds, statuses and the worker's view in step |
| JobAccounting.AttemptBounds | apps/api/src/background-jobs/job-worker.service.ts:128-154 | attempts never exceed max(maxAttempts, 1) plus manual retries, and RETRYING has attempts left |
| JobAccounting.HistoryIsExact | apps/api/src/background-jobs/job-worker.service.ts:94-154 | all histories are numbered exactly 1 to attemptCount if and only if no successor's creation ever failed |
| JobAccounting.FaultRepeats | apps/api/src/background-jobs/job-worker.service.ts:116-154 | a failed successor creation puts one attempt number into the history twice |
| JobPacing.NoRunBeforeItsTime | apps/api/src/background-jobs/job-worker.service.ts:45-66 | in every run no job is run, and no attempt recorded, before the time it was enqueued for |
| JobPacing.FailuresAreApart | apps/api/src/background-jobs/job-worker.service.ts:134-167 | in every run a job that nobody has retried by hand is attempted again only when the backoff of its last failure has passed |
| JobPacing.FailuresCoverBackoffs | apps/api/src/background-jobs/job-worker.service.ts:164-167 | attempts that failed one after the other are at least the sum of their backoffs apart |
| JobChains.UnfinishedJobsOfChain | apps/api/src/background-jobs/job-worker.service.ts:94-154 | conservation: after any run a recurring chain has one unfinished job, and one more for each success an administrator's late write took away for good, less one between a success and its successor |
| JobChains.OneUnfinishedJobPerChain | apps/api/src/background-jobs/job-worker.service.ts:94-132 | so it has exactly one job that is not SUCCESS, and none between a success and its successor, if and only if no late write took a success away for good |
| JobChains.ChainMovesForward | apps/api/src/background-jobs/job-worker.service.ts:116-131 | with documented schedules a job is due strictly later than every job it was created to follow, whatever administrators write |
| JobChains.UntouchedChainIsALine | apps/api/src/background-jobs/job-worker.service.ts:116-131 | in a chain that no late write has hit, of any two jobs the older is SUCCESS and the younger follows it and is due later |
| JobFinality.FinishedIsFinal | apps/api/src/background-jobs/background-jobs.service.ts:78-128 | a SUCCESS or CANCELLED job is never run or written again if and only if the worker is not in the middle of it and no administrator who read it earlier is about to change it |
| JobFinality.LateRetryUndoesSuccess | apps/api/src/background-jobs/background-jobs.service.ts:104-118 | of two retries that both read a dead letter, the second sets the job pending again whenever, before it writes, any run of sweeps and requests has brought the job to success |
| JobFinality.SweepReaches | apps/api/src/background-jobs/job-worker.service.ts:45-92 | a sweep can come to run any job of its batch, wherever it stands in it, with no administrator writing meanwhile |
| JobFinality.CancelBetweenLoadAndMarkIsLost | apps/api/src/background-jobs/job-worker.service.ts:79-92 | a cancellation between the worker's load and its mark is overwritten |
| JobFinality.SuccessIsTakenBack | apps/api/src/background-jobs/job-worker.service.ts:116-154 | when the successor cannot be created the success already recorded becomes RETRYING or DEAD_LETTER, logged under the same number |
| JobDrain.NextSpendsBudget | apps/api/src/background-jobs/job-worker.service.ts:90-154 | each attempt that ends and each cancellation of a waiting job lowers the sum of remaining attempts, and no other step raises it |
| JobDrain.AttemptsAreBounded | apps/api/src/background-jobs/job-worker.service.ts:90-154 | without new jobs, manual retries and recurring jobs, the attempts ever made are at most that sum |
| JobDrain.LoneJobIsBounded | apps/api/src/background-jobs/job-worker.service.ts:134-154 | a job that is alone and new is attempted maxAttempts times at most, and once when that is below one |
| JobDrain.SweepSpends | apps/api/src/background-jobs/job-worker.service.ts:45-76 | from the query of a sweep that found a job due to the worker's return the sum falls by at least one, whatever happens in between |
| JobDrain.QueueDrains | apps/api/src/background-jobs/job-worker.service.ts:45-154 | so no more sweeps than that sum ever find a job due, and once so many have and the last has ended every job is SUCCESS, DEAD_LETTER or CANCELLED |
| JobDrain.DrainedMeansFinished | apps/api/src/background-jobs/job-worker.service.ts:90-154 | when the sum is used up every job is SUCCESS, DEAD_LETTER or CANCELLED |
| JobDrain.WaitingJobsComeDue | apps/api/src/background-jobs/job-worker.service.ts:45-66 | a waiting job of a queue that is not paused, once its times have come, makes the next sweep non-empty |
| JobDrain.WaitingJobIsFoundInTime | apps/api/src/background-jobs/job-worker.service.ts:45-66 | whatever its times, a waiting job of an unpaused queue is due for a sweep that comes late enough |
| JobDrain.NothingFoundIffAllDone | apps/api/src/background-jobs/job-worker.service.ts:45-66 | between sweeps, when no waiting job is paused or before its time, the next sweep finds nothing if and only if every job is SUCCESS, DEAD_LETTER or CANCELLED |
| JobDrain.TimelySweepsDrain | apps/api/src/background-jobs/job-worker.service.ts:45-154 | as many sweeps at such times as the sum of remaining attempts finish every job, whatever else happens between them, without new jobs, manual retries and recurring jobs |
| JobWorker.JobStore.EnqueueJob | apps/api/src/background-jobs/background-jobs.service.ts:37-53 | a new job is appended as drafted, with normal priority, the default queue and five attempts where the draft is silent, SCHEDULED exactly when its time is still to come |
| JobWorker.JobStore.CancelJob | apps/api/src/background-jobs/background-jobs.service.ts:78-102 | only a job read as waiting is cancelled; the write then cancels it whatever others made of it in between, and a refusal changes nothing |
| JobWorker.JobStore.RetryJob | apps/api/src/background-jobs/background-jobs.service.ts:104-128 | only a job read as failed or dead-lettered is retried; the write then sets it pending and due whatever others made of it in between |
| JobWorker.JobStore.SetPaused | apps/api/src/background-jobs/background-jobs.service.ts:158-188 | exactly this queue's state changes: no job of a paused queue is ready, the jobs of a resumed one are ready as if nothing were paused |
| JobWorker.JobStore.Attempt | apps/api/src/background-jobs/job-worker.service.ts:79-162 | one attempt makes its row tell of success, of a retry after the backoff or of the dead letter, skips a cancelled job, appends the successor exactly when it can, and changes no other row |
| JobWorker.JobStore.ProcessDue | apps/api/src/background-jobs/job-worker.service.ts:45-76 | a sweep attempts each job of its batch once and changes no other; whatever it changes was waiting, in a queue not paused, with its times come |
| Entitlements.PickWinner | apps/api/src/entitlements/entitlement-resolver.service.ts:86-96 | the reduce finds the grant that beats every other candidate, in whatever order they come, and none only if there is none |
| Entitlements.ResolutionIsUnique | apps/api/src/entitlements/entitlement-resolver.service.ts:10-15 | grants, triple and time determine the resolved answer |
| Entitlements.HighestSourceDecides | apps/api/src/entitlements/entitlement-resolver.service.ts:10-15 | a manual grant is overruled by manual ones only, a promotional one not by trials or subscriptions, a trial not by a subscription, and within a source the newest decides |
| Entitlements.AllowedNeedsAGrant | apps/api/src/entitlements/entitlement-resolver.service.ts:54-55 | access is allowed only by a live grant that is unlimited, switched on or carries a number |
| Entitlements.FirstInForceDecides | apps/api/src/entitlements/entitlement-resolver.service.ts:28-80 | the grant in force that comes first, by MANUAL, PROMOTIONAL, TRIAL, SUBSCRIPTION and then by age, gives the answer field by field |
| Entitlements.NoneInForceDenies | apps/api/src/entitlements/entitlement-resolver.service.ts:28-80 | without a grant in force the answer is no, with no values |
| Entitlements.UncrossedKeepsAnswer | apps/api/src/entitlements/entitlement-resolver.service.ts:33-48 | an answer stays the right one while no active grant's validity begins or ends |
| Entitlements.RowStaysRight | apps/api/src/entitlements/entitlement-resolver.service.ts:33-52 | as time passes a cached row remains what a fresh resolution gives if and only if its grant has not run out and no stronger one has begun; a missing row, if and only if none has begun |
| Entitlements.ExpiredWinnerStaysCached | apps/api/src/entitlements/entitlement-resolver.service.ts:33-48 | in particular, once the grant behind a row has run out the row differs from a fresh resolution |
| EntitlementRuns.NextKeepsInv | apps/api/src/entitlements/entitlement-grants.service.ts:17-202 | every grant operation keeps keys unique and every cached row what its last computation gives for the grants as they are |
| EntitlementRuns.CacheAgrees | apps/api/src/entitlements/runtime-authorization.service.ts:30-62 | after any sequence of create, revoke, sync and passing time the cached answer is the fresh resolution as of the last operation that touched the triple, and as of now while no bound was crossed, or exactly while no stronger grant began and its own has not run out |
| EntitlementRuns.AnswersAtOnce | apps/api/src/entitlements/entitlement-resolver.service.ts:27-84 | an operation that touches a triple leaves the answer a fresh resolution gives there and then |
| EntitlementSync.KeysIdentify | apps/api/src/entitlements/entitlement-grants.service.ts:132-146 | for subscription ids of one length the grant key tells subscription and definition |
| EntitlementSync.SyncApplies | apps/api/src/entitlements/entitlement-grants.service.ts:125-190 | a whole sync keeps keys unique, changes each grant there was by exactly the rounds that name it, and adds none unless the subscription entitles |
| EntitlementSync.SyncSettles | apps/api/src/entitlements/entitlement-grants.service.ts:160-190 | while the subscription entitles, every definition of the plan has an active grant with the plan's values |
| EntitlementSync.SyncDecidesThePlan | apps/api/src/entitlements/entitlement-grants.service.ts:111-202 | after a sync the grant of each of the plan's definitions is active exactly when the subscription is ACTIVE, TRIALING or GRACE_PERIOD and else revoked if it was active; there is one at most, with the plan's values and, when new, the subscription's own; grants of what the plan does not list are as before |
| EntitlementSync.VersionsCountRounds | apps/api/src/entitlements/entitlement-grants.service.ts:154-185 | while the subscription entitles, a grant's version counts the rounds that have written it |
| EntitlementSync.SyncIsIdempotent | apps/api/src/entitlements/entitlement-grants.service.ts:111-202 | syncing again, at any later time, changes nothing but version counters |
| EntitlementSync.FormerPlanGrantsStay | apps/api/src/entitlements/entitlement-grants.service.ts:125-190 | a grant of a definition the plan no longer has is left as it is |
| EntitlementService.EntitlementStore.Recompute | apps/api/src/entitlements/entitlement-resolver.service.ts:27-84 | recomputing one row makes it agree with the grants now, changes no other row and is recorded with its time |
| EntitlementService.EntitlementStore.HasEntitlement | apps/api/src/entitlements/runtime-authorization.service.ts:30-62 | after every sequence of operations the read answers as CacheAgrees says, and denies what has no definition |
| EntitlementService.EntitlementStore.CreateGrant | apps/api/src/entitlements/entitlement-grants.service.ts:17-60 | a grant of a known definition is added as drafted, its triple and no other is computed at this time, and its cached answer is the fresh resolution |
| EntitlementService.EntitlementStore.RevokeGrant | apps/api/src/entitlements/entitlement-grants.service.ts:62-93 | exactly an active grant of the organization is revoked, its triple and no other is computed at this time, and its cached answer is the fresh resolution |
| EntitlementService.EntitlementStore.SyncRound | apps/api/src/entitlements/entitlement-grants.service.ts:132-190 | one round writes the grant its key names as the status demands and computes exactly its answer |
| EntitlementService.EntitlementStore.SyncFromSubscription | apps/api/src/entitlements/entitlement-grants.service.ts:111-202 | the nested loops do exactly the plan's rounds; the answers about its definitions and no others are computed at this time and are the fresh resolutions |
| Sessions.NextKeepsInv | apps/api/src/auth/auth.service.ts:206-339 | every step of logins, refreshes, punishments, logouts and revocations keeps links, owners and half-done refreshes sound, and forks no lineage unless it presents a token still in flight |
| Sessions.LinksAreSound | apps/api/src/auth/auth.service.ts:216-233 | under every interleaving replacement links lead forward to a session of the same user and choices, from a revoked one, and no two lead to the same session |
| Sessions.OneLivePerLineage | apps/api/src/auth/auth.service.ts:243-278 | when no token is presented while its refresh is unfinished, a lineage has two live sessions only between the two writes of a refresh of the older |
| Sessions.QuietLineage | apps/api/src/auth/auth.service.ts:243-278 | with no refresh in flight such a lineage has at most one live session |
| Sessions.ReplayShutsOut | apps/api/src/auth/auth.service.ts:255-268 | presenting a revoked token leaves its user without a live session, and for good until the next login unless a refresh had passed its check |
| Sessions.RacerSlipsThrough | apps/api/src/auth/auth.service.ts:273-278 | such a refresh, whenever there is one, does leave a live session behind the punishment |
| Sessions.RevocationIsFinal | apps/api/src/auth/auth.service.ts:280-332 | logging out or revoking a session sets its revocation and nothing else, and no run brings it back |
| Sessions.RevokedTokenIssuesIff | apps/api/src/auth/auth.service.ts:243-278 | the token of a revoked session can still get a new session if and only if a refresh of it had passed its check |
| Sessions.OverlapForks | apps/api/src/auth/auth.service.ts:243-278 | any live token presented twice at once becomes two live sessions of one lineage |
| Sessions.ForksIffHeld | apps/api/src/auth/auth.service.ts:243-278 | when a live token is presented its session can get two successors, with no token presented out of turn from then on, if and only if a refresh of it was in flight, before creating or before marking |
| SessionService.AuthService.Login | apps/api/src/auth/auth.service.ts:135-138 | a new lineage begins with a live session that lasts 30 days or one day as asked, and every lineage still has at most one live session |
| SessionService.AuthService.Refresh | apps/api/src/auth/auth.service.ts:243-278 | the four outcomes hold exactly in their cases; a live token is exchanged for one live successor with the same owner and a full new term, a revoked one costs its user every live session, and no other session changes |
| SessionService.AuthService.Logout | apps/api/src/auth/auth.service.ts:280-302 | exactly the live session of the presented token is revoked, its other fields and all other sessions as they were; in all other cases nothing changes |
| SessionService.AuthService.RevokeSession | apps/api/src/auth/auth.service.ts:320-332 | a session is revoked exactly when it exists and is the user's, its other fields and all other sessions as they were |
| SessionService.AuthService.RevokeAllSessions | apps/api/src/auth/auth.service.ts:334-339 | the user has no live session afterwards and no other user's session changes |
| FinancialEvents.NextKeepsInv | apps/api/src/financial-events/financial-events.service.ts:53-122 | every step of any number of calls keeps keys unique, the three tables in step, and each call's event its own |
| FinancialEvents.OnlyTheKeyCollides | apps/api/src/financial-events/financial-events.service.ts:77-99 | the transaction fails exactly on a taken idempotency key, never on the other two unique indexes, and otherwise adds one row to each table |
| FinancialEvents.OneEventPerKey | apps/api/src/financial-events/financial-events.service.ts:53-122 | whatever calls overlap or fail, a key has one event, and each event exactly one queue row and one sync row |
| FinancialEvents.CallsAgree | apps/api/src/financial-events/financial-events.service.ts:62-67 | calls that return have the same event exactly when they share a key, and a call without a key an event of its own |
| FinancialEvents.EventsAreFinal | apps/api/src/financial-events/financial-events.service.ts:36-52 | rows are only added: what an event records is what its first caller asked for |
| FinancialEvents.ThrowsOnlyOnEmptyKey | apps/api/src/financial-events/financial-events.service.ts:100-110 | a step makes a call throw if and only if it is a failure from outside, or the call inserts with the empty key while an event has it; losing the race never does |
| FinancialEvents.EmptyKeyThrows | apps/api/src/financial-events/financial-events.service.ts:62-110 | of two calls with the empty key the second throws |
| FinancialEvents.NeverThrows | apps/api/src/financial-events/financial-events.service.ts:53-122 | a call without a key or with one that is not empty never throws by itself |
| FinancialEvents.FiveTurnsReturn | apps/api/src/financial-events/financial-events.service.ts:53-122 | five steps of its own bring any other call to the event of its key, whatever the others do |
| FinancialEvents.FinancialEventsService.FindByKey | apps/api/src/financial-events/financial-events.service.ts:62-67 | the lookup finds the event of the key or there is none, and after a lost race it always finds the winner |
| FinancialEvents.FinancialEventsService.Insert | apps/api/src/financial-events/financial-events.service.ts:76-110 | the transaction fails exactly when an event has the key and then changes nothing; else it adds the event, its queue row and its sync row with the provider read |
| FinancialEvents.FinancialEventsService.Record | apps/api/src/financial-events/financial-events.service.ts:53-122 | with any steps of others between, the call returns the event of its key, or its own; it inserted it exactly when the event is its own, and then the sync row has the organization's provider or INTERNAL |
| Webhooks.NextKeepsInv | apps/api/src/payments/payment-event-dispatcher.service.ts:58-124 | every step of overlapping, failing, crashing deliveries and confirmations keeps the books, the transactions and the calls in step |
| Webhooks.KeysIdentifyPayments | apps/api/src/payments/payment-event-dispatcher.service.ts:355-367 | a payment's key names its transaction and is no other family's key |
| Webhooks.RecordWrites | apps/api/src/payments/payment-event-dispatcher.service.ts:355-367 | recording leaves the event of its key in the books and adds at most that one |
| Webhooks.ManualIsRecorded | apps/api/src/payments/transactions.service.ts:15-36 | a transaction entered by hand is added as PENDING with what was entered, unless its id or reference is in use |
| Webhooks.ElsewhereIsRecorded | apps/api/src/financial-events/financial-events.service.ts:53-122 | what other callers record is in the books afterwards, as an event of its own when its key is new or it has none |
| Webhooks.OneBookingPerTransaction | apps/api/src/payments/payment-event-dispatcher.service.ts:339-368 | across redeliveries, failures and confirmations a transaction's payment is booked by one event at most, with its own amount and currency |
| Webhooks.ProcessedMeansBooked | apps/api/src/payments/webhooks.service.ts:68-74 | a row is PROCESSED only if a call came through, and a call that came through has its payment in the books |
| Webhooks.ProcessedOnce | apps/api/src/payments/webhooks.service.ts:40-89 | deliveries of an event that do not overlap mark it PROCESSED once, for good |
| Webhooks.TwoAdvancesMeanAFailure | apps/api/src/payments/payment-event-dispatcher.service.ts:90-124 | if two such deliveries both had the subscription engine act, one of them failed or died afterwards |
| WebhookRedelivery.RedeliveryRenewsTwice | apps/api/src/payments/payment-event-dispatcher.service.ts:98-108 | a failure between engine and books makes the redelivery call the engine again, book the payment once, and book a first payment as a renewal |
| WebhookRedelivery.OverlapProcessesTwice | apps/api/src/payments/webhooks.service.ts:41-74 | two deliveries that both looked before either was done both advance the subscription and mark the row |
| WebhookRepeats.AdvancesIffNotProcessed | apps/api/src/payments/webhooks.service.ts:40-89 | from any state of deliveries that do not overlap, a delivery of a payment for a subscription can have the engine act if and only if the event's row is not PROCESSED as it begins |
| WebhookRepeats.RedeliveryAdvancesIff | apps/api/src/payments/payment-event-dispatcher.service.ts:90-124 | over whole runs of such deliveries: a further delivery has the engine act in some continuation if and only if the row is not PROCESSED, wherever behind the engine the one before failed |
| WebhookRepeats.BothComeThroughIff | apps/api/src/payments/webhooks.service.ts:40-89 | when a delivery begins while another of the event is at work, both can come through if and only if the row is not PROCESSED, the other is not marking it FAILED, and a transaction it is about to create is still missing |
| WebhookService.WebhooksService.UpsertTransaction | apps/api/src/payments/payment-event-dispatcher.service.ts:278-335 | it comes through exactly when its awaits work and a new transaction's id is free; a transaction known by provider and reference is found, an unknown one is created, pending and with what the event says, exactly when reference, amount, currency and a customer are there |
| WebhookService.WebhooksService.SettleTransaction | apps/api/src/payments/payment-event-dispatcher.service.ts:92-97 | exactly when the await works the call's transaction, and no other, gets the status its event reports |
| WebhookService.WebhooksService.AdvanceSubscription | apps/api/src/payments/payment-event-dispatcher.service.ts:264-277 | the engine acts exactly for a payment of a subscription that is INCOMPLETE, TRIALING, ACTIVE, PAST_DUE or in GRACE_PERIOD |
| WebhookService.WebhooksService.LinkSubscription | apps/api/src/payments/payment-event-dispatcher.service.ts:74-85 | a call without a subscription gets the one its transaction names, and any other keeps its own |
| WebhookService.WebhooksService.RecordEvent | apps/api/src/payments/payment-event-dispatcher.service.ts:339-368 | exactly when the await works it comes through: the transaction's event is in the books once, and a new one has the key, type, reason, amount and currency that event, subscription and provider call for; an await that throws leaves the books as they were |
| WebhookService.WebhooksService.Dispatch | apps/api/src/payments/payment-event-dispatcher.service.ts:58-124 | the dispatch comes to its end exactly when each await it comes to works and the id of a transaction it creates is free, else it throws; it leaves the webhook rows alone |
| WebhookService.WebhooksService.Apply | apps/api/src/payments/payment-event-dispatcher.service.ts:90-124 | the four effects of a payment come to their end exactly when the awaits for them work, the platform event's only when there is a transaction |
| WebhookService.WebhooksService.FindOrCreateRow | apps/api/src/payments/webhooks.service.ts:41-66 | a PROCESSED event is skipped, another one has a row from here on, and the call stops exactly when the look or a needed creation throws |
| WebhookService.WebhooksService.MarkRow | apps/api/src/payments/webhooks.service.ts:68-88 | the row ends PROCESSED exactly when the dispatch came to its end and marking works, stays as it was exactly when marking it failed throws too, and is FAILED otherwise |
| WebhookService.WebhooksService.HandleEvent | apps/api/src/payments/webhooks.service.ts:40-89 | an event is skipped exactly when its row was PROCESSED, and comes through exactly when all awaits it comes to work; its row tells which, and PROCESSED rows stay so |
| WebhookService.WebhooksService.HandleIncoming | apps/api/src/payments/webhooks.service.ts:25-92 | `processed` counts the events that came through; when nothing throws they are the distinct events not PROCESSED before, and all are PROCESSED afterwards; the delivery goes on to its end unless an await around a dispatch throws; delivering again what was all PROCESSED changes nothing |
| WebhookService.WebhooksService.MarkSucceeded | apps/api/src/payments/transactions.service.ts:37-60 | a manual confirmation comes through exactly when the transaction has a reference and its awaits work, and then that transaction's payment is in the books |
| Paging.CursorRoundTrip | apps/api/src/admin-support/admin-support.service.ts:228-244 | a cursor decodes to its row if and only if the row's id is not empty and holds no bar |
| Paging.PageHolds | apps/api/src/admin-support/admin-support.service.ts:127-147 | a page holds rows beyond its cursor, newest first; a row it leaves out lies beyond its next cursor, which is there only on a full page and stands at its last row |
| Paging.WalkDescends | apps/api/src/admin-support/admin-support.service.ts:127-147 | whatever changes between pages, a walk delivers rows newest first, those that started at once by descending id, so none twice |
| Paging.IdLessIs | apps/api/src/admin-support/admin-support.service.ts:127-147 | of two ids the smaller has the smaller character where they first differ, or comes to its end there |
| Paging.WalkMissesNothing | apps/api/src/admin-support/admin-support.service.ts:127-147 | a row that is there throughout is delivered |
| Paging.WalksAreComplete | apps/api/src/admin-support/admin-support.service.ts:127-147 | a walk to the end delivers every row present throughout, in order and once, and only rows that were there |
| Paging.NewerRowsDoNotDisturb | apps/api/src/admin-support/admin-support.service.ts:127-147 | when only rows newer than the first page come in, exactly the rows of the first moment are delivered |
| Paging.StillTableIsListed | apps/api/src/admin-support/admin-support.service.ts:127-147 | an unchanging table is delivered exactly, newest first |
| Paging.WalkLength | apps/api/src/admin-support/admin-support.service.ts:127-147 | every page but the last is full |
| Paging.CursorsRunOut | apps/api/src/admin-support/admin-support.service.ts:127-147 | whatever rows come and go among finitely many, a walk with a next cursor has delivered full pages within their number, so null comes by page number / limit + 1 |
| Paging.WalkExists | apps/api/src/admin-support/admin-support.service.ts:127-147 | from every cursor that decodes, the cursors of a finite table can be followed to the end |
| Paging.EveryTableIsListed | apps/api/src/admin-support/admin-support.service.ts:127-147 | over every finite table and page size a complete walk exists, of at most size / limit + 1 pages, and delivers exactly the table, newest first |
| CsvExport.ExportCsv | apps/api/src/admin-audit/admin-audit.service.ts:88-140 | the loop writes the header line and one line for each of the first ten thousand rows, joined by CRLF |
| CsvExport.FieldReads | apps/api/src/admin-audit/admin-audit.service.ts:17-23 | an escaped field in front of a delimiter is read back as the field, whatever characters it has |
| CsvExport.RecordReads | apps/api/src/admin-audit/admin-audit.service.ts:117-135 | a written line is read back as its fields |
| CsvExport.FileReads | apps/api/src/admin-audit/admin-audit.service.ts:116-139 | a file of records of two or more fields is read back as those records |
| CsvExport.ExportReads | apps/api/src/admin-audit/admin-audit.service.ts:88-140 | the export of any rows is read back as the twelve column names and each row's values, every one in the column named after it |

## Left out

- Real HTTP, Prisma SQL, timers, logging, mail, audit rows, request metadata and platform event publication: their success or failure is a parameter or an event of a run.
- Cryptography, tokens and signatures: a refresh token stands for its own session, and a webhook is taken after its signature was verified.
- Instants are unbounded integers of milliseconds: the range and the floating-point precision of JavaScript dates and numbers (a schedule amount beyond 2^53, say) are not modelled.
- Each transaction or attempt reads the clock once, where the source may read it again a moment later; the subscription that a sync reads is read whole, with its plan.
- `SyncQueue.status`, which nothing in the modelled code changes: only that the row exists.
- A job left PROCESSING, because the process dies or because the transaction that records an attempt's failure fails itself and the sweep goes on; and sweeps that overlap, on one or two processes: job results and the timing of a sync row assume one sweep at a time, financial sync results about the ledger do not.
- Schedule.ComputeNextRun: requires weekday 0 to 6, since on 7 to 9 the source does not terminate; Schedule.NoSuchWeekDay states that.
- Entitlement operations run one after the other; concurrent recomputations of one row are not interleaved.
- EntitlementRuns.NextKeepsInv: asks that no operation creates a grant at the instant at which another one of its triple and source was created, because precedence between such grants is undefined in the source.
- Usage counters, device registrations, seats and API keys: their periods and limits are not maintained over runs by the code.
- Session rows carry no address, agent or last use; who may log in (password, two factors, deactivation) is decided before the model begins.
- Webhooks.RecordWrites: recording is one step there, which the race proved in FinancialEvents justifies; refunds, chargebacks, disputes, cancellations and renewals without a transaction are not dispatched.
- Webhooks.NextKeepsInv: the subscription engine is a call that succeeds or fails; what it does to the subscription, and the subscription and customer a dispatch finds, are given from outside.
- Deletions that cascade from an organization, and discount and tax fields of financial payloads.
- Paging: base64url and the ISO text of an instant are an invertible pair of functions; the list is the impersonation history's, and the shared cursor helper of other lists is not modelled.
- CsvExport.ExportCsv: dates and metadata are already text, and the rows come filtered and sorted; the query that finds them is left out.
- License key generation, listing and the rights check on transfer: a transfer changes the license a key belongs to, which activation does not read.
- CRUD, search, analytics, marketplace, notifications, OAuth, PDF rendering, the scheduler's own table and environment handling: they would only add easy members.
