# The earnings ledger, its calculators and its reports

This project models the earnings subsystem of the reporting service and proves properties of the
model with Dafny 4.11. `dafny verify dfyconfig.toml` checks all of it.

The subsystem keeps one ledger of what workers have earned and what has been paid out to them.
Several writers share that ledger and have to agree:

* **Payouts** (`Allocations`, `Settlements`, `LedgerInvariant`, `Interleaving`, `Store`). A payout
  lists the pending entries of a worker, consumes deductions first, pays positive entries in order
  and marks each entry by compare-and-set. An edit takes the old allocations back and allocates the
  new amount over the payout's window.
* **Source writers** (`SourcePuts`, `Sources`, `Plans`, `RebuildPlan`, `RebuildFacts`, `Processor`,
  `EventPlan`, `EventFacts`, `SourceMessages`, `EventProcessor`, `Convergence`, `TripConvergence`). A batch rebuild and
  an event materializer compute the same earnings from orders, trips, targets and leaderboards, and
  put them into the ledger; an entry is repaired while nothing of it is settled and frozen afterwards.
* **The audit** (`AuditPlan`, `Audit`, `Reconciler`) recomputes everything on its own and compares it
  with the ledger key by key; `Cutover` runs a rebuild and an audit one after the other.
* **The control plane** (`ControlPlane`, `Handlers`, `Api`): rebuild jobs, closed periods and the
  per-office mode, behind the guards of the HTTP handlers.
* **Issue workflows** (`IssueBoard`, `PaymentText`, `OrderIssues`, `OrderDesk`, `TripIssues`,
  `TripDesk`): scans that detect and auto-resolve discrepancies, and the two repairs staff can apply.
* **Secondary parts**: ranking and prize boards (`Ranking`), the version of a prize configuration
  (`Fingerprints`), the payment columns of the reports as aggregation expressions (`Expressions`,
  `TextAgreement`, `PaymentExpr`), the event consumer's loop (`EventWorker`) and the PDF writer (`PdfText`, `PdfWriter`, `PdfReader`).

The modules named `...Laws` say what each of these computes on the fields of the stored documents and
requests themselves, so that calculators which merely agree with each other are not enough:
`OrderLaws` (commissions and bonuses), `TripLaws` (trip payables, findings and entries), `CountLaws`
(what a rebuild or an audit looks at, misses and fails on), `IntakeLaws` (events), `PayoutLaws` and
`LedgerLaws` (payouts, puts and the audited ledger), `HandlerLaws`, `OrderIssueLaws` and `IssueLaws`
(findings and what scans and staff do), `ColumnLaws` and `TextLaws` (payment columns), `RankingLaws` and
`PageLaws`.

## How it is modelled

Code that changes state in place is a class or a method with loops, proved against a function of the
old state; the functions are what the lemmas are about. Rebuild, event and audit are each described
twice: as a plan (the list of writes or amounts, in order) and as methods that loop, fill maps and
bump counters, proved to run that plan.

* Amounts in the ledger are integers (paise); amounts in source documents are reals, converted with
  rounding half away from zero. Validity tests for NaN and infinity have no counterpart on reals.
* A date is a pair of month and day, ordered like its `YYYY-MM-DD` text. Identifiers are natural
  numbers with 0 as the zero ObjectID.
* An entry's ObjectID is identified with its unique (office, idempotency key) pair, and a stamp stands
  for its place in creation order; the same holds for settlements, jobs and issues.
* `paidAtSource`, `working` and `trace` are history variables: the code neither stores nor reads them.
* Go iterates over maps in no fixed order. Methods pick any order and report the one they took;
  results are proved for every order.
* Characters stand for bytes in the PDF writer and for Latin-1 code points elsewhere; Go lower-cases all
  letters of Latin-1, MongoDB only those of ASCII.

## What came out differently from the surrounding text

* A prize configuration's version is meant to be addressed by content
  (`internal/earnings/rebuild_test.go:96`), but it hashes a text in which every optional gender switch appears as a memory address
  (`internal/earnings/rebuild.go:320-328`). The version is stable over reloads exactly when the document
  sets no switch (`Fingerprints.VersionAgreesIff`), and a second rebuild that reloads the prizes is sure
  to leave the ledger alone exactly then, or when every award it writes has been paid out
  (`Fingerprints.ReloadedRebuildIsQuietIff`, with a rewritten award in
  `Fingerprints.ReloadedRebuildCanRewrite`). `RebuildFacts.RebuildReplayIsQuiet` is for one load of the
  sources and any two iterations over the targets.
* Aligning an order's payment settles the issue only if the issue has no adjustment yet and the
  payment method is not a tip method, or the difference is a shortfall and the detection's reading
  allows it; `OrderIssues.AlignmentSettlesIff` has the exact condition, `OrderIssues.TipMethodMisses`
  an order that stays mismatched.
* The payment report and the audit normalise a text alike exactly when both trim it alike, every
  separator inside is a single hyphen or plain blank, and it has no capital letter beyond ASCII
  (`TextAgreement.NormalizationsAgreeIff`). Runs of separators and tabs make the received amounts differ
  (`PaymentExpr.SeparatorRunsDisagree`, `PaymentExpr.TabsDisagree`), accented capitals do not
  (`PaymentExpr.ReceivedAgrees`). The bucket columns of a legacy record add up only under the condition
  of `PaymentExpr.LegacyBucketsAddUpIff`; `PaymentExpr.LegacyBucketsCanMiss` is a record for which they do not.
* A trip's event and a rebuild can leave different entries of it, because the batch loader fills the office rates
  in on every row once one row needs them (`TripConvergence.TripLedgersAgreeIff`,
  `TripConvergence.TripPricesCanDiffer`).

## Model

| member | source | states |
|---|---|---|
| Allocations.Build | internal/earnings/repository.go:905-937 | the two allocation loops return exactly what the specification of deductions first, then positive entries up to the request, gives; the two refusals included |
| Allocations.AllocationSucceedsIff | internal/earnings/repository.go:905-937 | a positive request succeeds if and only if something is pending and the net outstanding covers it; which error is returned otherwise |
| Allocations.AllocationIsExact | internal/earnings/repository.go:905-937 | the allocations sum to the request, name no entry twice and give every entry its share: all of a deduction, and of a positive entry what the request still covers |
| Allocations.SharesAreOrdered | internal/earnings/repository.go:918-936 | positive entries are paid in full up to at most one partly paid entry, and nothing after that one is paid |
| Settlements.PostAt | internal/earnings/repository.go:650-674 | posting a list of allocations changes each named entry by its own amount and no other entry |
| Settlements.UpdateReallocates | internal/earnings/repository.go:760-860 | an amount-changing edit is the reversal of the stored allocations followed by a fresh allocation over the window, or that allocation's refusal |
| PayoutLaws.PayoutPaysRightly | internal/earnings/repository.go:609-686 | a successful payout stores what it pays: only open or partly settled entries of the office, worker, worker type, bucket, date range and selection, deductions whole, and an entry only when every pending one of a smaller amount, or of that amount and an earlier day, or of that day and created before it, is paid in full; exactly these entries change |
| PayoutLaws.EditPaysRightly | internal/earnings/repository.go:738-874 | an edit to another amount takes the stored allocations back, then pays by the same rule from the payout's window, and appends the old payment to the revisions |
| PayoutLaws.UnsettleTakesBack | internal/earnings/repository.go:781-802 | taking allocations back lowers each named entry by its own allocation and gives it the status of what is left |
| PayoutLaws.PayoutSucceedsIff | internal/earnings/repository.go:609-648 | a new payout succeeds if and only if every selected entry is payable, there is one at all, and the amount is at most what the payable entries lack together |
| LedgerInvariant.NextKeepsSound | internal/earnings/repository.go:609-874 | every admitted step (payout, edit, adjustment, source put) keeps the ledger sound: settled is paid-at-source plus live allocations, bounds and status hold, every settlement is the sum of its allocations, every allocated entry is still in the settlement's window |
| LedgerInvariant.RunsStaySound | internal/earnings/repository.go:348-874 | every ledger reached by any run of these steps from the empty one is sound |
| LedgerInvariant.UnsettledHasNoAllocation | internal/earnings/repository.go:366-388 | an entry with nothing settled is named by no live allocation, so repairing it strands none |
| LedgerInvariant.UnsettleUndoesSettle | internal/earnings/repository.go:781-802 | reversing a settlement restores the ledger from before it, entry by entry |
| LedgerInvariant.EditEqualsPayingRight | internal/earnings/repository.go:738-874 | paying A and editing to B gives the entries and allocations of paying B in the first place, and fails exactly when that would fail |
| LedgerInvariant.EditRoundTrip | internal/earnings/repository.go:738-874 | editing A to B and back to A succeeds and restores everything but the revision history |
| Interleaving.SchedulesStayConsistent | internal/earnings/repository.go:650-701 | payouts without transactions, interleaved one entry update at a time, leave every entry in its bounds, and each entry gains exactly the updates that went through, whichever calls abort |
| Interleaving.SettledIsAccounted | internal/earnings/repository.go:650-686 | with the final insert of the payout as a step of its own that may fail or lose to its unique key, every payout on record is worth its amount, and an entry's settled amount is its initial one plus the payouts on record plus what calls without a payout on record applied |
| Store.Repository.PutSourceEntry | internal/earnings/repository.go:348-390 | inserts once, repairs an unpaid entry in place, returns a frozen one unchanged; soundness is kept |
| LedgerLaws.PutDecides | internal/earnings/repository.go:348-390 | a put enters a new entry, repairs an open one with nothing settled that says something else, and leaves any other alone, in conflict when it says something else |
| Store.Repository.CreateAdjustment | internal/earnings/repository.go:533-547 | inserts an adjustment once per idempotency key and keeps soundness |
| Store.Repository.FindPending | internal/earnings/repository.go:622-641 | returns the pending entries of a window in amount, date and creation order |
| Store.Repository.PostEach | internal/earnings/repository.go:650-674 | the compare-and-set loop never fails inside a transaction and posts exactly the allocations |
| Store.Repository.ReverseEach | internal/earnings/repository.go:781-802 | the reversal loop never fails on stored allocations and posts exactly their negation |
| Store.Repository.AllocateSettlement | internal/earnings/repository.go:609-686 | a payout changes entries and settlements as the specification of a payout says, or nothing on a refusal; soundness is kept |
| Store.Repository.UpdateSettlement | internal/earnings/repository.go:738-874 | an edit changes entries and settlements as the specification of an edit says, or nothing on a refusal; soundness is kept |
| Store.Repository.QueueRebuild | internal/earnings/repository.go:967-979 | queues a job once per idempotency key |
| Store.Repository.ClaimNextRebuild | internal/earnings/repository.go:140-154 | claims the oldest queued job, or reports that none is queued |
| Store.Repository.FinishRebuild | internal/earnings/repository.go:392-399 | records the terminal status and counters of one job only |
| Store.Repository.ClosePeriod | internal/earnings/repository.go:953-965 | adds a closed period once |
| Store.Repository.SetMode | internal/earnings/repository.go:86-113 | a change appends to the mode history; setting the current mode changes nothing |
| SourcePuts.PutsKeepFrozen | internal/earnings/repository.go:348-390 | no run of puts removes an entry or changes one that is not open or has something settled |
| SourcePuts.PutsActAlone | internal/earnings/repository.go:348-390 | in a run with distinct keys every put acts as if it were the only one |
| SourcePuts.TallyCounts | internal/earnings/rebuild.go:609-624 | inserted, unchanged and conflicting puts together are the number of puts |
| SourcePuts.ReplayIsQuiet | internal/earnings/rebuild.go:609-654 | repeating a run of puts changes no entry, inserts nothing and meets the same number of conflicts |
| SourcePuts.ReplayInAnyOrder | internal/earnings/rebuild.go:609-654 | so does repeating the same puts in another order |
| SourcePuts.RestartCompletes | internal/earnings/rebuild.go:609-624 | a run interrupted anywhere and started over ends like one complete run |
| Sources.ComputePayables | internal/earnings/rebuild.go:541-597 | the reassigning calculation returns the specified payables, paid and missing values included |
| TripLaws.PayablesFollow | internal/earnings/rebuild.go:541-597 | an unpaid trip pays, within half a paisa, its agreed commission or distance times rate, and petrol of distance by mileage times price; rate, price and mileage are the stored ones, else the fare's, else the office's; distance is the manual one or the automatic one, doubled for two-way trips, plus the extra; a paid one pays what is stored |
| TripLaws.LoadedRowsAre | internal/earnings/repository.go:190-235 | the rows a rebuild prices are the finished trips of the office in range, all with the office's rates as soon as one of them lacks petrol and a fare figure |
| TripLaws.RebuildHoldsTrip | internal/earnings/rebuild.go:483-539 | a rebuild holds a trip's commission and petrol entries exactly when the payable is positive, for the driving beautician, the beautician driving herself or the rider; only petrol of a paid snapshot is settled |
| TripLaws.EventHoldsTrip | internal/earnings/source_events.go:220-263 | so does an accepted trip event, for the trip with the office's rates if it lacks something itself |
| Money.RoundedMoneyKeepsPaise | internal/earnings/rebuild.go:599 | rounding a payable to two decimals does not change the paise that enter the ledger |
| OrderLaws.RebuildPaysOrderIff | internal/earnings/rebuild.go:347-437 | with the last target row of the worker and the summed order costs of its month from the cutoff on, a rebuild holds an order's component if and only if its amount is positive and, for general commission, the day is before the cutoff or the known costs reach the first target |
| OrderLaws.RebuildPaysBonusIff | internal/earnings/rebuild.go:438-463 | it holds the month's bonus if and only if the bonus is positive and the known costs reach a positive second target |
| LedgerLaws.ScopeAllows | internal/earnings/rebuild.go:183-201 | a job's scope bounds what its rebuild writes; a petrol rebuild writes petrol only |
| LedgerLaws.BoardsUsableIff | internal/earnings/rebuild.go:203-256 | the boards can be ranked if and only if no prize is negative and every aggregate row names a worker, once, with non-negative scores |
| CountLaws.RebuildFailsIff | internal/earnings/rebuild.go:183-243 | a rebuild fails if and only if its scope needs something that is not in order: real dates, bonus, target rows, prizes, aggregate rows; without its orders it writes nothing |
| CountLaws.RebuildCounts | internal/earnings/rebuild.go:394-437 | otherwise what it reports missing is the sum of each order's and trip's gaps, and what it scanned the orders in range, the trips and the aggregate rows |
| RebuildFacts.RebuildDistinct | internal/earnings/rebuild.go:183-318 | no two writes of one rebuild share a key, in any scope |
| RebuildFacts.RebuildReplayIsQuiet | internal/earnings/rebuild.go:183-318 | a second rebuild over the same loaded sources, whichever way either run iterates over the target map, changes no entry, inserts nothing and repeats the conflict count |
| Processing.PutLedgerEntry | internal/earnings/rebuild.go:609-624 | one put and its counting as inserted, unchanged or conflict |
| Processing.Processor.SumMonths | internal/earnings/rebuild.go:372-392 | the loop's maps hold each worker-month's revenue and which months cannot be summed |
| Processing.Processor.ProcessOrders | internal/earnings/rebuild.go:347-463 | runs exactly the order and target-bonus plan, for the map order it happened to take, and returns its error |
| Processing.Processor.ProcessTrips | internal/earnings/rebuild.go:483-539 | runs exactly the trip plan |
| Processing.Processor.ProcessLeaderboards | internal/earnings/rebuild.go:203-288 | checks and ranks every row before it runs exactly the award plan |
| Processing.Processor.ProcessNext | internal/earnings/rebuild.go:161-201 | claims the oldest job, leaves the ledger its plan leaves, and records the terminal status the counters and the error call for |
| EventFacts.EventPutsDistinct | internal/earnings/source_events.go:107-263 | no two writes of one event share a key |
| OrderLaws.EventPaysOrderIff | internal/earnings/source_events.go:140-192 | an accepted event holds general commission of every order of its worker and month, and the other components of its own order, by the same rule as a rebuild |
| OrderLaws.EventPaysBonusIff | internal/earnings/source_events.go:193-218 | and the month's bonus by the same rule |
| OrderLaws.EventFailsIff | internal/earnings/source_events.go:107-218 | an event of a stored order fails, for good, if and only if a target row is not in order, its month cannot be priced although the terms apply, or a negative bonus is due |
| IntakeLaws.OrderIntake | internal/earnings/source_events.go:268-295 | an order event is tried again if and only if its order is missing or, fitting the event, was captured before the event's version; captured after it, nothing is written and the event is done; wrong office, day, state or a missing snapshot refuse it for good |
| IntakeLaws.TripIntake | internal/earnings/source_events.go:268-295 | the same of a trip event, which is also refused when nobody is paid for the trip |
| IntakeLaws.RetryIsAhead | internal/earnings/source_events.go:81-105 | the verdict is to try again if and only if the event is ahead of its document, whatever the ledger holds |
| IntakeLaws.MessageAcceptedIff | internal/earnings/source_events.go:328-365 | a notification is acceptable if and only if its event id has a nonblank character and at most 200 bytes, type, schema and source type are the known ones, and all other fields parse; the event has its fields |
| EventProcessing.MonthlyRevenueForWorker | internal/earnings/source_events.go:303-319 | the loop returns the month's revenue or reports that it cannot be summed |
| EventProcessing.SourceEventProcessor.ProcessOrder | internal/earnings/source_events.go:107-218 | runs exactly the plan of an order event |
| EventProcessing.SourceEventProcessor.ProcessTrip | internal/earnings/source_events.go:220-263 | runs exactly the plan of a trip event |
| SourceMessages.ValidateSourceEvent | internal/earnings/source_events.go:328-365 | accepts exactly the notifications with a short nonblank event id, the supported type and schema, a known source type, and identifiers, timestamps and date that parse |
| EventProcessing.SourceEventProcessor.Process | internal/earnings/source_events.go:81-105 | validates the notification, refuses closed dates, runs the plan of the decoded event and reports conflicts with frozen entries as permanent; an unacceptable one changes nothing |
| Convergence.AcceptedWrites | internal/earnings/source_events.go:140-218 | an accepted order event writes its own components, the enabled general commission of its worker's month and the bonus once due, and nothing else |
| Convergence.ArrivalRaises | internal/earnings/source_events.go:150-218 | an order added to a month only turns on further writes |
| Convergence.EventsConvergeToRebuild | internal/earnings/source_events.go:107-218 | in whatever order orders arrive and events are delivered and repeated, once each order was announced the ledger and a rebuild of the month hold exactly the same order and bonus entries of the worker and month, in keys, amounts, statuses and configuration snapshots |
| TripConvergence.TripPricesAgreeIff | internal/earnings/repository.go:190-235 | a trip's event and the rebuild compute the same payables if and only if the batch loaded no office rates the trip leans on, or those rates give the stored petrol |
| TripConvergence.TripLedgersAgreeIff | internal/earnings/source_events.go:220-263 | a trip's event and a rebuild leave the same two entries of the trip, whatever the ledger held before, if and only if the batch loaded no office rates the trip leans on or those rates come to the stored petrol in paise |
| TripConvergence.TripPricesCanDiffer | internal/earnings/repository.go:206-225 | a trip whose accepted event and a rebuild of the month leave different entries of it in some ledger |
| Fingerprints.VersionAgreesIff | internal/earnings/rebuild.go:320-328 | every further load of a prize document gets the same version if and only if the document sets no gender switch |
| Fingerprints.VersionTells | internal/earnings/rebuild.go:320-328 | two versions are equal if and only if the common prizes agree in paise and the gender settings in prizes and switch addresses, not in whether a switch is on |
| Fingerprints.LoadsCanDiffer | internal/earnings/rebuild.go:320-328 | two loads of one document with different versions |
| Fingerprints.AwardWritesAgreeIff | internal/earnings/rebuild.go:290-318 | the award writes over equal aggregates are the same for every load of the prizes if and only if the document sets no switch or no award pays anything |
| Fingerprints.ReloadRewritesAward | internal/earnings/repository.go:366-388 | every further load leaves a stored, unpaid award alone if and only if the document sets no switch |
| Fingerprints.ReloadedRebuildIsQuietIff | internal/earnings/rebuild.go:183-328 | a second rebuild over reloaded prizes, in any iteration order, always leaves the ledger alone if and only if the document sets no switch or every award it writes has been paid out |
| Fingerprints.ReloadedRebuildCanRewrite | internal/earnings/rebuild.go:233-328 | a rebuild of an empty ledger whose second run over a reloaded prize document rewrites an untouched award |
| Audit.CleanRebuildPassesAudit | internal/earnings/rebuild.go:183-318 | from a ledger without other source entries, a rebuild of everything without conflicts or missing snapshots makes the audit of the same sources and range agree, for every map order on either side |
| OrderLaws.AuditExpectsOrders | internal/earnings/reconciliation.go:95-156 | the audit expects of a worker's component the paise of exactly the orders in range the rule makes due, the month's costs against the first target included |
| OrderLaws.AuditExpectsBonus | internal/earnings/reconciliation.go:157-164 | and the office's bonus if and only if the month's costs reach a positive second target |
| CountLaws.AuditMisses | internal/earnings/reconciliation.go:62-240 | an audit can be made if and only if a full rebuild can, and what it reports missing is the sum of its orders' and trips' gaps |
| LedgerLaws.AuditCountsEntries | internal/earnings/reconciliation.go:242-318 | what an audit finds under a key is the sum of the ledger's entries that are not void and belong to it by office, worker, bucket, component, source, dates and period |
| Reconciling.AddItem | internal/earnings/reconciliation.go:290-299 | adds a usable amount under its key, counts an unusable one as missing, and leaves no key for zero |
| Reconciling.Compare | internal/earnings/reconciliation.go:242-287 | one row per key of either side; totals are the rows' sums, matched plus mismatched the number of rows, the absolute difference bounds the difference and is zero exactly when nothing mismatches |
| Reconciling.ReadyIsAgreement | internal/earnings/reconciliation.go:242-287 | ready holds if and only if both sides agree under every key and nothing is missing |
| Reconciling.Reconciler.LoadReconciliationLedger | internal/earnings/repository.go:119-135 | reads each source-component entry of the range once and no other |
| Reconciling.Reconciler.Run | internal/earnings/reconciliation.go:62-288 | fails exactly on unusable configuration or rows; otherwise its report adds up and is ready exactly when its own expectation agrees with the ledger |
| Cutover.CompletedRebuildAgrees | internal/earnings/rebuild.go:161-201 | a full rebuild of a ledger without source entries that was recorded as completed leaves a ledger that every audit of its range over the same sources agrees with |
| Cutover.RebuildThenAudit | internal/earnings/reconciliation.go:62-288 | running the next job and then the audit, one after the other, returns a ready report when that job was such a rebuild of the audited range |
| Handlers.AuditReadyIsDetermined | internal/earnings/reconciliation.go:62-288 | the audit's verdict does not depend on the order in which maps and ledger are read |
| HandlerLaws.PayoutDecides | internal/earnings/http.go:450-566 | a payout is malformed, known, in conflict or made, each if and only if the request's fields, the closed periods, the unfinished rebuilds and the payable entries say so |
| HandlerLaws.EditDecides | internal/earnings/http.go:568-636 | the same of an edit; one that keeps the amount only changes the details and appends a revision |
| HandlerLaws.EditSucceedsIff | internal/earnings/repository.go:738-874 | once the old allocations are back, an edit to another amount succeeds if and only if something is payable in the window and lacks at least the amount |
| HandlerLaws.AdjustmentDecides | internal/earnings/http.go:840-932 | a correction is refused, known or entered open and unpaid with its component, by its date, amount and bucket |
| HandlerLaws.ModeDecides | internal/earnings/http.go:691-763 | a mode change is made if and only if it is one and, towards authoritative, its range is real, no unfinished rebuild meets it and its audit is ready |
| HandlerLaws.QueueDecides | internal/earnings/http.go:979-1027 | a rebuild is queued last, once, if and only if its range is real and meets no closed period |
| HandlerLaws.CloseDecides | internal/earnings/http.go:934-977 | a period is closed, once, if and only if its range is real and meets no unfinished rebuild |
| HandlerLaws.OverlapIs | internal/earnings/repository.go:939-952 | two ranges overlap if and only if some day is in both |
| HandlerLaws.ClaimDecides | internal/earnings/repository.go:137-154 | a worker is handed a queued job before which none was requested, and only such a one |
| HandlerLaws.FinishDecides | internal/earnings/repository.go:392-399 | a job ends failed, with issues or completed by its error and counters, which are stored |
| Handlers.ActKeepsSafe | internal/earnings/http.go:450-1027 | every handler and worker step keeps the ledger sound, and no queued or running rebuild over a closed period of its office |
| Handlers.JobsMoveForward | internal/earnings/repository.go:140-154 | a stored job keeps its range and scope and its status stays or moves one place from queued over running to terminal |
| Handlers.JobsAreClaimedOnce | internal/earnings/repository.go:137-154 | in any run each job is handed to a worker at most once |
| Handlers.ClosedEntriesStay | internal/earnings/http.go:506-636 | no payout, edit, adjustment or other handler step changes an entry dated in a closed period of its office |
| Handlers.ClosedPeriodsAreFrozen | internal/earnings/http.go:450-977 | over any stretch of a run without source writes, a closed period's entries are the same set of unchanged documents |
| Handlers.PromotionsSawReadyAudits | internal/earnings/http.go:691-763 | every authoritative entry in a mode history was appended by a step that saw a ready audit of its very range and no overlapping active rebuild |
| EarningsApi.API.QueueRebuild | internal/earnings/http.go:979-1027 | the guards and the store call together are the specified step and reply |
| EarningsApi.API.ClosePeriod | internal/earnings/http.go:934-977 | the guards and the store call together are the specified step and reply |
| EarningsApi.API.CreateSettlement | internal/earnings/http.go:450-566 | the guards in order, the early return of a known payout and the store call together are the specified step and reply |
| EarningsApi.API.UpdateSettlement | internal/earnings/http.go:568-636 | the guards on the stored window and the store call together are the specified step and reply |
| EarningsApi.API.CreateAdjustment | internal/earnings/http.go:840-932 | refuses zero amounts, closed dates and malformed complaint deductions; otherwise inserts the adjustment once |
| EarningsApi.API.ChangeMode | internal/earnings/http.go:691-763 | runs the audit itself and promotes only if it is ready and no rebuild overlaps |
| IssueBoard.OpenAfterScan | internal/earnings/order_issues_repository.go:16-126 | after a scan the office's open issues of the range are exactly those detected now, minus those accepted at the same difference |
| IssueBoard.DetectedAfterScan | internal/earnings/order_issues_repository.go:91-126 | a detected issue carries the new figures, keeps its history, and is open or still accepted |
| IssueBoard.UndetectedAfterScan | internal/earnings/order_issues_repository.go:71-88 | an undetected issue is resolved if it was open in the office and range, and untouched otherwise |
| IssueLaws.ScanLeaves | internal/earnings/order_issues_repository.go:71-126 | field by field what a scan leaves of every issue, detected or not, new or known, resolved, accepted or open |
| IssueBoard.CountsAddUp | internal/earnings/order_issues_repository.go:55-68 | created plus updated is the number detected; created, open and variance are those of the issues concerned |
| IssueBoard.RescanIsQuiet | internal/earnings/order_issues_repository.go:16-89 | scanning unchanged data again leaves every issue as it is, creates nothing and resolves nothing |
| IssueBoard.AcceptedStaysAccepted | internal/earnings/order_issues_repository.go:106-118 | an accepted variance survives scans that find the same difference |
| IssueBoard.IssueStore.UpsertIssue | internal/earnings/order_issues_repository.go:91-126 | inserts, updates or reopens the stored issue as specified |
| IssueBoard.IssueStore.ResolveUndetected | internal/earnings/trip_issues_repository.go:65-82 | resolves exactly the stale issues and counts them |
| PaymentText.NormalizeTwice | internal/earnings/order_issues.go:317-319 | normalising a normalised text changes nothing |
| TextLaws.TwoWords | internal/earnings/order_issues.go:317-319 | normalising drops the blanks around, makes letters small and puts one underscore for a run of separators between two words |
| OrderIssues.ReceivedCandidates | internal/earnings/order_issues.go:282-315 | the loop returns the amount received and the separate tips, for histories and legacy records |
| OrderIssues.DetectOrderIssues | internal/earnings/order_issues.go:198-237 | returns exactly the specified finding: invalid total, missing payment, mismatch or none |
| OrderIssues.DetectOrderCommissionIssues | internal/earnings/order_issues.go:152-196 | returns exactly the specified assignment and snapshot findings |
| OrderIssueLaws.OrderFlagsIff | internal/earnings/order_issues.go:198-237 | an order yields no payment finding if and only if its total is, within a paisa, the charges less the discount with or without the tip, and what was received, with separate tips where that is closer, is what is due; otherwise which finding and with which amounts |
| OrderIssueLaws.NoTotalIsInvalid | internal/earnings/order_issues.go:198-237 | a missing or negative total is an invalid one, whatever was paid |
| OrderIssueLaws.CommissionFlagsIff | internal/earnings/order_issues.go:152-196 | when each commission finding appears, by beautician, profile and the four amounts of the snapshot |
| OrderIssues.AdjustmentParts | internal/earnings/order_issues_repository.go:244-252 | what the pushed entry adds to the amount received and to the tips when it is read back |
| OrderIssueLaws.AlignmentPushes | internal/earnings/order_issues_repository.go:244-274 | an alignment pushes the expected less the actual amount, once per issue, under the order's own method, and changes nothing else |
| OrderIssues.AlignmentSettlesIff | internal/earnings/order_issues_repository.go:225-276 | after an alignment nothing is detected if and only if the issue had no adjustment and the payment method lets the detection count the pushed entry |
| OrderIssues.TipMethodMisses | internal/earnings/order_issues_repository.go:244-252 | an order with a tip method that stays mismatched after its alignment |
| OrderIssues.HistoryHoldsOneAdjustment | internal/earnings/order_issues_repository.go:253-274 | however often an order is aligned, its history holds at most one adjustment per issue and every earlier payment |
| OrderDesk.OrderIssueDesk.ScanOrderIssues | internal/earnings/order_issues_repository.go:16-89 | the scan is the board's scan with exactly the findings of the matching orders, and returns its counters |
| OrderDesk.OrderIssueDesk.AlignOrderPayment | internal/earnings/order_issues_repository.go:225-276 | changes order and issue as the specified alignment does, with its three refusals |
| OrderDesk.OrderIssueDesk.ActOnOrderIssue | internal/earnings/order_issues_repository.go:163-223 | recheck, accept and align change issues and orders as specified, or refuse |
| IssueLaws.OrderScanFinds | internal/earnings/order_issues_repository.go:16-54 | a scan finds exactly the findings of the office's completed orders in range with real ids, a real date and no negative charge |
| IssueLaws.OrderActionDecides | internal/earnings/order_issues_repository.go:163-276 | when recheck, accept and align are refused, and what each leaves of the issue and the order |
| OrderDesk.ActionsKeepOrders | internal/earnings/order_issues_repository.go:163-276 | no action touches anything of an order but its payment history, which only grows and holds one adjustment per issue |
| OrderDesk.AlignedIssueStaysResolved | internal/earnings/order_issues_repository.go:225-276 | after an alignment that can settle the order, no later scan reopens the issue |
| TripIssues.CanonicalTripCalculation | internal/earnings/trip_issues.go:130-174 | the reassigning calculation returns the specified canonical payables |
| TripIssues.DetectTripIssues | internal/earnings/trip_issues_repository.go:86-184 | returns exactly the specified worker, configuration and snapshot findings |
| TripLaws.CanonicalFollows | internal/earnings/trip_issues.go:130-174 | the canonical calculation is valid if and only if distance, price and mileage are positive, and is then the rule's, within half a paisa |
| TripLaws.TripFlagsIff | internal/earnings/trip_issues_repository.go:86-184 | when each finding appears: the worker's profile missing or deleted, a figure that is not positive, a missing snapshot, a stored distance more than 0.001 off, a stored payable that is not the exact amount in paise |
| TripLaws.TripFindingsSay | internal/earnings/trip_issues_repository.go:86-184 | which amounts a finding reports, and that it may be repaired exactly while the trip is unpaid and its worker active |
| TripLaws.RepairStores | internal/earnings/trip_issues_repository.go:352-405 | a repair succeeds if and only if the trip is unpaid, its worker active and its figures positive, and stores these figures and what they come to |
| TripIssues.RepairIsFixpoint | internal/earnings/trip_issues_repository.go:352-405 | a repaired trip shows no issue, whatever rates the office has by then |
| TripIssues.RepairTwice | internal/earnings/trip_issues_repository.go:352-405 | repairing a repaired trip stores the same payables again |
| TripIssues.UnpaidPayablesAreCanonical | internal/earnings/rebuild.go:541-597 | for an unpaid snapshot with a valid calculation the ledger pays the canonical payables |
| TripIssues.RepairedTripPaysItsSnapshot | internal/earnings/rebuild.go:541-597 | the ledger pays what a repaired snapshot stores, whatever office rates were loaded |
| TripDesk.TripFindingsDiffer | internal/earnings/trip_issues_repository.go:205-216 | a trip's findings have distinct keys, all of its own office and date |
| TripDesk.RebuildResolves | internal/earnings/trip_issues_repository.go:327-405 | a successful rebuild resolves its issue on the spot, a refused one changes nothing, and paid snapshots are never rewritten |
| TripDesk.RebuiltTripNotDetected | internal/earnings/trip_issues_repository.go:352-405 | no scan after a rebuild finds anything on that trip |
| TripDesk.TripIssueDesk.ScanTripIssues | internal/earnings/trip_issues_repository.go:18-84 | the scan is the board's scan with exactly the findings of the matching trips, and returns its counters |
| TripDesk.TripIssueDesk.RebuildTripSnapshot | internal/earnings/trip_issues_repository.go:352-405 | stores the canonical snapshot and rechecks the issue, or refuses as specified |
| TripDesk.TripIssueDesk.ActOnTripIssue | internal/earnings/trip_issues_repository.go:291-350 | recheck, accept and rebuild change issues and trips as specified, or refuse |
| IssueLaws.TripScanFinds | internal/earnings/trip_issues_repository.go:18-64 | a scan finds exactly what is found on the office's finished trips in range, priced with its rates |
| IssueLaws.TripActionDecides | internal/earnings/trip_issues_repository.go:291-405 | when recheck, accept and rebuild are refused, and what each leaves of the issue and the trip |
| TextAgreement.NormalizationsAgreeIff | internal/reports/static/payment_expr.go:20-32 | for every text the expression and the audit agree if and only if both trim it alike, its separators are single hyphens or plain blanks, and it has no capital letter beyond ASCII |
| TextAgreement.AccentsDisagree | internal/earnings/order_issues.go:317-319 | a text only the audit lower-cases fully |
| PaymentExpr.ReceivedAgrees | internal/reports/static/payment_expr.go:236-242 | on whole-paise records whose texts have single separators the received expression evaluates to the audit's received amount |
| PaymentExpr.SeparatorRunsDisagree | internal/reports/static/payment_expr.go:20-32 | a record with a run of separators on which the two differ |
| PaymentExpr.TabsDisagree | internal/reports/static/payment_expr.go:20-32 | a record with a single tab in a label on which they differ |
| ColumnLaws.HistoryColumns | internal/reports/static/payment_expr.go:199-298 | with a history the cash column is the sum of the payments by `cash` or `cod`, the UPI one by `upi`, the bank one by `bank` or `bank_transfer`, the online one by `online`, `card`, `other` or `wallet`; without a method the first known word of the label decides; tips, refunds and fees do not count |
| ColumnLaws.LegacyColumns | internal/reports/static/payment_expr.go:53-131 | without one, each column from the record's own amounts: the recorded part, and what was paid beyond cash and UPI under the normalised method |
| PaymentExpr.HistoryBucketsAddUp | internal/reports/static/payment_expr.go:215-298 | with a history the four bucket expressions sum to the received expression less the counted entries of unknown bucket |
| PaymentExpr.KnownBucketsAddUp | internal/reports/static/payment_expr.go:215-298 | they sum to it when every counted entry has a known bucket |
| PaymentExpr.LegacyBucketsAddUpIff | internal/reports/static/payment_expr.go:53-116 | for non-negative legacy records they sum to it if and only if nothing is recorded as paid, or more than cash and UPI, or exactly the sum of all parts |
| PaymentExpr.LegacyBucketsCanMiss | internal/reports/static/payment_expr.go:53-116 | a legacy record whose bucket columns do not sum to its received column |
| Ranking.SortSlice | internal/leaderboard/ranking.go:29-40 | the in-place sort yields the one ranked arrangement of the scores |
| Ranking.Rank | internal/leaderboard/ranking.go:43-53 | fills the award array with that arrangement, its ranks and its prizes |
| Ranking.RankIgnoresInputOrder | internal/leaderboard/ranking.go:29-77 | equal bags of scores give equal awards |
| Ranking.BoardIsExact | internal/leaderboard/ranking.go:43-77 | ranks are 1 to n in strict score order and the bonuses sum to the leading prizes |
| Ranking.RankBoards | internal/earnings/rebuild.go:258-284 | the loop over the gender groups returns the three boards one after the other |
| Ranking.BoardsIgnoreInputOrder | internal/leaderboard/service.go:246-285 | all boards depend only on the bag of rows |
| Ranking.BoardsCoverWorkers | internal/leaderboard/service.go:246-285 | across the gender boards every worker appears exactly as often as in the rows |
| RankingLaws.BoardAwardsAre | internal/leaderboard/ranking.go:29-77 | the awards are one for every row: ranked one after the rows of its gender with a greater first score, or that and a greater second, or both and a smaller id, and paid the prize of that place, of the gender's own prizes where its switch is on, none where it is off, else the common ones |
| RankingLaws.RebuildHoldsAwardIff | internal/earnings/rebuild.go:258-318 | a rebuild holds a worker's award if and only if its place pays something, with rank, prize, period, common prizes and version recorded |
| PdfText.TenDigitsRead | internal/render/pdf.go:147-149 | a padded offset reads back and has ten digits exactly when it is below ten to the tenth |
| PdfText.EscapePDFText | internal/render/pdf.go:184-191 | the five replacements escape byte by byte |
| PdfText.EscapedReadsBack | internal/render/pdf.go:184-191 | a literal string of an escaped text reads back as the text, line breaks as blanks, and ends where it should (section 7.3.4.2 of ISO 32000-1) |
| PdfWriter.ChunksHoldTheBody | internal/render/pdf.go:61-82 | the pages' rows concatenate to the body, no page over the limit, every page but the last full |
| PdfWriter.RenderPage | internal/render/pdf.go:85-110 | the page is the title and the header and row cells at their places, or the note that there are none |
| PdfWriter.SimplePDF.AddTable | internal/render/pdf.go:49-83 | appends exactly the pages of the table, one for an empty table |
| PdfWriter.SimplePDF.Bytes | internal/render/pdf.go:112-154 | returns the file of these pages, its recorded offsets being those of the objects |
| PdfWriter.TableIndexesFile | internal/render/pdf.go:137-151 | a reader that follows the number before the end of the file finds the cross-reference table, and at the offset in entry n the beginning of object n (section 7.5.4 of ISO 32000-1) |
| PdfWriter.TableIsExactIff | internal/render/pdf.go:137-151 | the table gives a reader every object's offset if and only if the last object's offset fits ten digits |
| PdfWriter.EntryIsTwentyBytes | internal/render/pdf.go:147-149 | an entry keeps its twenty bytes exactly while its offset fits ten digits |
| PdfWriter.PagesAreReachable | internal/render/pdf.go:121-135 | every kid names its page's object and that page's contents the object holding its bytes |
| PdfWriter.LengthReads | internal/render/pdf.go:134 | the stated length is the length of the stream, whose bytes are the page's |
| PdfWriter.PDFWriter.WriteTo | internal/render/pdf.go:30-35 | the output is the file of the table's pages |
| PageLaws.TableCellShown | internal/render/pdf.go:49-110 | row `i` below the heading stands on page `i / 29` at 16 points a line, each cell in its share of the width, cut to what fits, at places printed to the hundredth |
| PageLaws.TableHeadingShown | internal/render/pdf.go:85-110 | every page carries the title and, cell by cell, the heading; an empty table one page with the note |
| PdfReader.FileReadsBack | internal/render/pdf.go:112-154 | a reader that follows the end of the file, the table, the page tree, the contents references and the stream lengths recovers the contents of all pages in order |
| PdfReader.ReportReadsBack | internal/render/pdf.go:30-83 | for every output of at most ten to the tenth bytes that reader recovers the table's pages |
| EventWorker.AttemptsMerge | internal/earnings/source_event_worker.go:45-74 | attempts cut short anywhere leave what the longest of them wrote |
| EventWorker.DecisionStays | internal/earnings/source_events.go:101-103 | however far earlier attempts got, a complete attempt reaches the same verdict |
| EventWorker.SourceEventWorker.Decide | internal/earnings/source_event_worker.go:45-74 | one attempt on a partly written message keeps the ledger on the way to one full pass and logs the verdict a single undisturbed attempt would reach |
| EventWorker.SourceEventWorker.Deliver | internal/earnings/source_event_worker.go:44-75 | a message is committed only right after success or dead-lettering; without cancellation the loop does not end before; the ledger is then that of one full pass |
| EventWorker.SourceEventWorker.Start | internal/earnings/source_event_worker.go:33-77 | over any script of failures the log obeys the commit and fetch rules, the committed messages are a prefix, none of them ahead of its document, and the ledger is one pass over them plus part of the message in flight |

## Left out

- 64-bit overflow of paise, floating-point rounding, NaN and infinities: amounts are unbounded integers and reals.
- `created_by`, reasons, explanation texts, severity labels, timestamps and search texts; they influence no modelled decision.
- The HTTP plumbing around the handlers: authentication, permissions, JSON decoding, and the lookups of staff, office and worker, which can only refuse a request.
- Failing store calls other than those of the event consumer; a payout or edit is one transaction, except in the interleaving model.
- Interleaved edits and source puts outside transactions; the non-transactional model covers concurrent payouts and unrelated inserts.
- Handlers as atomic steps: two handlers passing their guards at the same time are not modelled.
- The sort order of audit rows, pagination, listings, index creation and the configuration loaders.
- `rankSourceScores` and `Get` of the leaderboard service beyond the boards: attaching the source score to each award, the viewer's own row and the first five.
- Text outside Latin-1, and blanks Go or MongoDB know beyond it.
- Report executors other than the payment columns, the refund column, and the CSV and XLSX writers.
- PdfWriter.Fixed: rounds the decimal value half away from zero, where the library rounds the binary value.
- PdfWriter.TableIndexesFile: holds for files whose last object begins within ten digits, the limit of the format itself; `PdfWriter.TableIsExactIff` has both directions.
- Decoding a notification's JSON and parsing its hexadecimal identifiers and RFC 3339 timestamps: a field arrives as its value or as one that does not parse.
- Audit.CleanRebuildPassesAudit: sources with zero worker ids are outside it, since the rebuild accepts some of them and the audit never reads their entries.
- Nothing was executed; every statement is about the model.
