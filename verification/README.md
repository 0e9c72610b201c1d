# Verified model of the order-fulfillment service

The service takes orders of a marketplace, finds a warehouse that can serve a whole order, compares
shipping quotes, buys a label, confirms the shipment and reconciles it with the warehouse system. This
project models the parts of it where a mistake costs money or stock and proves what they promise.

`dafny verify dfyconfig.toml` checks everything.

**How the code is modelled.** A SQL transaction is one step; a rollback leaves the rows as they were.
Answers of the platform, the warehouse system and the inventory service are parameters, so every theorem
holds for all of them. Where the code changes rows, slices, maps or fields step by step there is a class or a
method with the same steps (`BulkStore.Store`, `ShipmentDesk.Desk`, `ManualReviews.ReviewRow`,
`OmsAssignment.SyncRow`, `RequestSlots.Limiter`, the planner's array of builds, the selection loops); its
`ensures` equates the new state with a function of the old one, and the theorems are about that function; the
operations of the classes also ensure that they keep the invariant their theorems start from. Every lemma turns
automatic induction off, so that its proof stands on its body alone.
Amounts, weights and sizes are exact numbers.

**The parts.**

- *Split planner and validator* (`SplitPlan`, `SplitValidation`, `SplitBalance`, `SplitAgreement`,
  `SplitTheorem`, `SplitLimits`, `SplitContents`, `SplitAcceptance`, on `ListScheduling`): the planner is a greedy list scheduler; its heaviest package
  is within 4/3 − 1/(3m) of the best possible, and its plans pass the validator exactly under a condition on the
  order.
- *Bulk inventory ledger and batches* (`InventoryLedger`, `LedgerConservation`, `ReservationItems`,
  `ReservationAnswers`, `BulkBatches`, `BulkSteps`, `BulkPasses`, `BulkProgress`, `BulkOutcomes`, `BulkRuns`,
  `BulkWorkerRuns`, `BulkStore`): stock is conserved and batches stay sound over every run of transactions.
- *Shipments and completion jobs* (`ShipmentRows`, `ShipmentOperations`, `ShipmentSafety`, `ShipmentRuns`,
  `ShipmentJobs`, `ShipmentAnswers`, `ShipmentSteps`, `ShipmentCompatibility`, `ShipmentAttempts`,
  `ShipmentHandover`, `ShipmentDesk`): no second label once a package is known, and shipped means confirmed by the
  platform, over every run of operations with any upstream answers.
- *Carrier choice* (`CarrierChoice`, `CarrierTheorems`, `CarrierOrder`, `SubstitutionQuotes`,
  `PurchaseChoice`, `CarrierCode`, on `StableSorting`): optimality, price bounds, and independence of the order
  in which concurrent quotes arrive.
- *Warehouse selection and reservation request* (`WarehouseSelection`, `ReservationRequest`,
  `SelectionAnswers`, `PurchaseRetry`).
- *Manual reviews* (`ManualReviews`), *OMS warehouse assignment* (`OmsAssignment`), *request slots*
  (`RequestSlots`), *declared weights* (`PackageWeights`).

**What the proofs found.** Properties one would expect and the code does not have. For each there is a lemma that
says exactly when the property holds, and an input, mostly a run from empty tables, on which it does not.

- The planner's own plan can fail the validator: exactly when an order number repeats, is not trimmed, a
  unit is unmeasured or a package outgrows 10000 (`SplitTheorem.PlanPassesExactlyWhen`). Which orders outgrow it can
  be told before planning (`SplitLimits.RoomyOrderPasses`, `SplitLimits.OversizedPieceFails`,
  `SplitLimits.OverfullOrderFails`); two long poles do (`SplitLimits.LongPolesFail`).
- The price comparison with its tolerance is an order exactly when closeness is transitive on the prices, as on the
  1/10000 grid (`CarrierChoice.BetterIsOrderExactlyWhen`, `CarrierChoice.BetterIsOrderOnGrid`); otherwise it cycles
  (`CarrierChoice.BetterCycles`).
- Restarting a batch breaks the sequence order of its items exactly when a succeeded item comes after one that did
  not succeed (`BulkWorkerRuns.RestartKeepsOrderExactlyWhen`); a run does (`BulkWorkerRuns.RestartBreaksOrder`).
- A refresh that reads the labels of a shipment not yet shipped moves its job to `waiting_oms` and so out of the
  statuses the shipment allows; no other refresh does (`ShipmentCompatibility.RefreshKeepsCompatibleExactlyWhen`,
  `ShipmentCompatibility.RefreshParksTheJob`).
- The automatic retry statement stores a shipment status without ensuring the job: it leaves the job compatible
  exactly when it was (`ShipmentCompatibility.StatusWritesAreCompatible`), and on a reachable failed job it is not
  (`ShipmentCompatibility.RetryStatementAloneMisfits`). The worker only uses it on claimed jobs, where it always is
  (`ShipmentCompatibility.WorkerRetriesCompatibly`).
- The statement that prepares an operator recovery would drop the packages of exactly the untracked failed labels,
  which do occur; only the service's check before it prevents that (`ShipmentRuns.RecoveryStatementAloneDropsPackages`,
  `ShipmentRuns.RecoveryStatementReachesPackages`).
- A worker pass can leave its job `running`: exactly when, after nothing but repeated tries to reserve stock, the
  fallback of a package-free failed label cannot store the failed carrier or dies in its purchase, or the retry of an
  unknown submission dies (`ShipmentHandover.WorkerHandsOnExactlyWhen`). Runs from nothing do so
  (`ShipmentHandover.RefusedRunStaysRunning`, `ShipmentHandover.UnclearRunStaysRunning`); a death in a first purchase
  does not (`ShipmentHandover.RunsNeverStickInPurchase`), and nothing does once a package is known
  (`ShipmentHandover.KnownPackagesAreHandedOn`).
- Outside the GOFO mode the carrier choice indexes an empty list exactly when no offer is within the cheapest amount
  plus its own delta, for which every cheapest offer needs a negative delta
  (`CarrierTheorems.WindowIsEmptyExactlyWhen`, `CarrierTheorems.NegativeDeltaEmptiesWindow`).
- The loop that buys a direct order's label need not end. A quote offers an excluded warehouse exactly when the inventory
  answer names a blank key that passes the checks and the first warehouse covering the order is an excluded one
  (`PurchaseRetry.ExcludedIsOfferedExactlyWhen`); under the same answers in every round the loop always ends in time
  exactly when they quote no blank key (`PurchaseRetry.LoopEndsExactlyWhen`). One answer with a codeless warehouse and a
  keyless entry makes it purchase against that warehouse for ever (`PurchaseRetry.BlankEntryNeverEnds`,
  `PurchaseRetry.DpsNeverEnds`).
- The reservation request need not read the stock the selection relied on: it stays within stock exactly when the entry
  it reads last has the quantity (`ReservationRequest.RequestStaysWithinStockExactlyWhen`). One warehouse or one SKU in
  two spellings overbooks (`ReservationRequest.TwoSpellingsOverbook`, `ReservationRequest.TwoSkusOverbook`); without
  those, it fails exactly for an ordered SKU that is not trimmed (`ReservationRequest.RequestStaysWithinStock`).
- Setting the request interval forgets the slots granted: the spacing to the next slot is kept exactly when the change
  was refused or the next caller comes late enough anyway (`RequestSlots.SpacingKeptExactlyWhen`,
  `RequestSlots.ResetSharesTheSlot`).
- Clearing one of several reasons of a review that was resolved without an outcome reactivates the row with
  status `resolved` (`ManualReviews.ActiveRowsAreOpenExcept`, `ManualReviews.ResolvedRowReactivated`).
- After an assignment a poll keeps the order assigned once with its marker exactly unless the order is pending and is
  rejected by the source check or carries another order number (`OmsAssignment.PollKeepsOnceExactlyWhen`). Then the
  order is assigned again, at once or by the next good poll (`OmsAssignment.LostMarkerAssignsAgain`,
  `OmsAssignment.InconsistentAnswersAssignTwice`, `OmsAssignment.AnotherNumberAssignsTwice`).

## Model

| member | source | states |
|---|---|---|
| StableSorting.SortSorts | internal/service/service.go:1292 | the stable sort used for every ranking returns its elements in order, for any strict weak order |
| StableSorting.SortIsStable | internal/service/service.go:1292 | elements that tie keep the order they arrived in |
| StableSorting.SortIgnoresInputOrder | internal/service/service.go:1292 | without ties the sorted list does not depend on the order of the input |
| ListScheduling.DestinationsAreGreedy | internal/service/split_quote.go:383-393 | every unit goes to a package that is lightest at that moment |
| ListScheduling.GreedyBalance | internal/service/split_quote.go:383-393 | after any number of units two packages differ by at most the heaviest unit |
| ListScheduling.GreedyWithinFourThirds | internal/service/split_quote.go:363-393 | with the heaviest units first, no package exceeds 4/3 − 1/(3m) times the heaviest package of any other assignment of the same units |
| SplitPlan.AddSplitUnit | internal/service/split_quote.go:413-440 | adding a unit in place: the item of its order number grows or is appended, weight adds up, the sides stack on the shortest side, an unmeasured unit marks the package |
| SplitPlan.PickTarget | internal/service/split_quote.go:384-391 | the scan finds the first lightest package, ties by fewer units |
| SplitPlan.BuildSplitPackages | internal/service/split_quote.go:344-411 | the whole planner, its errors included, equals the plan function the theorems are about |
| SplitBalance.PlanIsBalanced | internal/service/split_quote.go:363-393 | before rounding two packages of a plan differ by at most the heaviest unit |
| SplitBalance.PlanIsNearlyOptimal | internal/service/split_quote.go:363-393 | no assignment of the order's units to m packages beats the plan's heaviest package by more than the factor 4/3 − 1/(3m) |
| SplitAgreement.PlanKeepsEveryPiece | internal/service/split_quote.go:352-393 | the packages of a plan together hold, for every set of order numbers, exactly the pieces the lines ask for |
| SplitAgreement.ItemsAreWellPacked | internal/service/split_quote.go:413-428 | no package repeats an order number, every quantity in it is positive, and every item comes from a unit placed before |
| SplitAgreement.EveryPackageGetsAUnit | internal/service/split_quote.go:360-393 | with no more packages than units, no package stays empty |
| SplitAgreement.WeightRoundsUp | internal/service/split_quote.go:452-455 | rounding a weight adds less than a gram and takes nothing away |
| SplitAgreement.FinishedMetrics | internal/service/split_quote.go:396-408 | a finished package has valid metrics exactly when it was measured and its sides and weight stay within the limit |
| SplitValidation.ValidateSplitPackages | internal/service/split_quote.go:461-515 | a split is accepted exactly when every package is well formed and every order number receives its quantity; the result is the cleaned packages, and a rejection names a true reason |
| SplitTheorem.PlanPassesExactlyWhen | internal/service/split_quote.go:344-515 | a plan passes the validator if and only if the order is consistent, every unit is measured and no package outgrows the limit |
| SplitTheorem.ConsistentExactlyWhen | internal/service/split_quote.go:465-504 | for lines with pieces, consistent means exactly: order numbers trimmed and distinct |
| SplitTheorem.PlannedWeightIsNearlyOptimal | internal/service/split_quote.go:363-411 | the weight handed out is within a gram of one that is within 4/3 − 1/(3m) of the best possible |
| SplitLimits.RoomyOrderPasses | internal/service/split_quote.go:344-515 | a consistent, fully measured order passes when no piece is longer than the limit, all shortest sides together stay within it, and its weight fits one package or its average package has room for the heaviest piece |
| SplitLimits.OversizedPieceFails | internal/service/split_quote.go:429-515 | no plan of an order with a piece longer or heavier than the limit passes |
| SplitLimits.OverfullOrderFails | internal/service/split_quote.go:429-515 | nor does one of an order whose weight or shortest sides exceed what all packages may hold together |
| SplitLimits.LongPolesFail | internal/service/split_quote.go:344-515 | a consistent, measured order whose plan the validator rejects |
| SplitContents.SpecMeans | internal/service/split_quote.go:348-356 | the measures of a SKU are those of its last resolution item, and there are none unless that one is complete with all four |
| SplitContents.UnitsInOrder | internal/service/split_quote.go:352-378 | the units placed are those of the lines: measured ones first, of these the heavier ones first, then by order number |
| SplitContents.DestinationMeans | internal/service/split_quote.go:383-393 | exactly where each unit goes: to a lightest package, of these to one with fewest units, of these to the first |
| SplitContents.PlanFailsExactlyWhen | internal/service/split_quote.go:344-362 | a plan is refused exactly for fewer than 2 or more than 20 packages, or for more packages than pieces |
| SplitContents.FilledSides | internal/service/split_quote.go:434-439 | the length of a package is the largest longest side and its width the largest middle side (the three sides less the longest and the shortest) among the measured units sent to it |
| SplitContents.PackageMeasures | internal/service/split_quote.go:383-411 | what each package is handed out with: numbered from one and estimated; zero measures and a request to measure exactly when an unmeasured unit was sent there; otherwise weights and shortest sides added up and the largest longest and middle side, each rounded up to the gram or the hundredth |
| SplitContents.PackageItems | internal/service/split_quote.go:413-428 | the items of each package: one for each order number sent there, in order of arrival, with the number of its units and the texts of the first |
| SplitAcceptance.AcceptsExactlyWhen | internal/service/split_quote.go:461-515 | a split is accepted exactly when it has 2 to 20 packages, each with four measures above 0 and up to 10000 and with items that have pieces, name lines of the order and name none twice, and every order number is given the quantity of its last line |
| SplitAcceptance.HandedOn | internal/service/split_quote.go:486-513 | what an accepted split is handed on as: numbered from one, measures and quantities as sent, each item under its trimmed order number with the texts of the last line of that number |
| LedgerConservation.ReleaseConserves | internal/store/bulk_fulfillment.go:428-444 | releasing an order keeps every budget equal to the sum of the remaining reservations and within its capacity |
| LedgerConservation.BookingConserves | internal/store/bulk_fulfillment.go:329-365 | booking a request that fits keeps the ledger balanced and within capacity |
| LedgerConservation.ReserveConserves | internal/store/bulk_fulfillment.go:316-366 | the reservation transaction keeps the ledger balanced, leaves it untouched on a shortage even after an inner release, and leaves exactly the requested rows on success |
| LedgerConservation.ReserveTouchesOnlyItsOrder | internal/store/bulk_fulfillment.go:316-366 | other orders' rows and other batches stay as they were and no recorded capacity changes |
| LedgerConservation.ShortcutIsRebooking | internal/store/bulk_fulfillment.go:320-366 | the "same reservation" shortcut reaches the ledger that releasing and booking again reaches, and that booking cannot run short |
| ReservationItems.Normalize | internal/store/bulk_fulfillment.go:446-475 | quantities of equal trimmed SKUs add up, the SKUs come out distinct and ascending, and exactly the invalid, conflicting and empty requests are refused |
| ReservationItems.SameReservation | internal/store/bulk_fulfillment.go:477-487 | comparing the rows one by one never takes different reservations for the same, and misses equal ones exactly when the query does not list them in byte order |
| ReservationItems.BookingListIsBooking | internal/store/bulk_fulfillment.go:329-357 | opening and charging budgets SKU by SKU equals booking the whole request at once, because the SKUs are distinct |
| ReservationItems.InsertingListIsBooking | internal/store/bulk_fulfillment.go:358-365 | inserting the rows SKU by SKU equals inserting them at once |
| ReservationAnswers.NormalizedExactlyWhen | internal/store/bulk_fulfillment.go:446-475 | a request is accepted exactly when it is not empty, every item has a SKU, pieces and no negative stock, and equal SKUs come with equal stock; every SKU then has the sum of its pieces and that stock |
| ReservationAnswers.ReserveSucceedsExactlyWhen | internal/store/bulk_fulfillment.go:320-357 | on a conserved ledger a reservation succeeds exactly when the pieces of every SKU fit into the capacity beside what all other orders hold, whatever the order held before |
| ReservationAnswers.ReserveRecords | internal/store/bulk_fulfillment.go:329-339 | a success leaves a budget for every SKU: the capacity recorded first, or the stock sent along |
| ReservationAnswers.ReservationMeans | internal/store/bulk_fulfillment.go:283-367 | the whole call: invalid, no batch, booked or short, each exactly when it should be; only a booked one changes anything, and then the rows of the order are the pieces asked for in the warehouse asked for |
| ReservationAnswers.ReleaseMeans | internal/store/bulk_fulfillment.go:369-398 | a release changes nothing unless the batch runs and the order holds something in it; then it leaves the order without rows there |
| BulkStore.CheckCapacity | internal/store/bulk_fulfillment.go:329-349 | the check loop accepts exactly the requests whose every SKU fits its budget, and opens the missing budgets |
| BulkStore.Transact | internal/store/bulk_fulfillment.go:316-366 | release, checks and bookings together are the all-or-nothing reservation, on a conserved ledger in whatever order the query lists the stored rows |
| BulkStore.Store.ReserveBulkSubstitutionInventory | internal/store/bulk_fulfillment.go:283-367 | the call reserves in a running substitution batch in which the order's item runs; otherwise, and on bad input, nothing changes |
| BulkStore.Store.ReleaseBulkSubstitutionInventory | internal/store/bulk_fulfillment.go:369-398 | the call gives back exactly what the order holds in a running batch, and nothing when there is none |
| BulkStore.Store.CreateBulkFulfillmentBatch | internal/store/bulk_fulfillment.go:23-138 | a new batch takes, in order, the orders no running batch has; a running batch of the mode, a missing catalog or no order prevents it |
| BulkStore.Store.RestartBulkFulfillmentBatch | internal/store/bulk_fulfillment.go:144-213 | the mode's running batch gets its running and failed items pending again and its counters recomputed |
| BulkStore.Store.MarkBulkFulfillmentItemRunning | internal/store/bulk_fulfillment.go:264-281 | only a pending item starts running |
| BulkStore.Store.FinishBulkFulfillmentItem | internal/store/bulk_fulfillment.go:493-550 | only a pending or running item is finished; counters and batch status are recomputed from the rows |
| BulkStore.Store.RunningBulkFulfillmentItems | internal/store/bulk_fulfillment.go:215-262 | some running batch is picked exactly when there is one, one with pending items first, with its running items and then pending ones up to the limit |
| BulkStore.Store.Sweep | internal/service/service.go:2237-2309 | the two loops of a pass, with their early stops, equal the sweep function |
| BulkStore.Store.ProcessBulkFulfillment | internal/service/service.go:2216-2311 | a whole pass, with both picks, equals the pass function the theorems are about |
| BulkBatches.FinishIsWellFormed | internal/store/bulk_fulfillment.go:493-550 | after finishing an item the batch runs exactly while work remains and its counters equal the item counts |
| BulkBatches.RestartIsWellFormed | internal/store/bulk_fulfillment.go:190-202 | a restart keeps counters and status in agreement with the items |
| BulkBatches.EffectiveStampReducesWork | internal/store/bulk_fulfillment.go:265-281 | an update that really marks or finishes an item strictly reduces 2·pending + running |
| BulkPasses.PassIsSound | internal/service/service.go:2216-2311 | a pass keeps all batches sound whatever the answers and picks |
| BulkPasses.PassIsThrottled | internal/service/service.go:2216-2311 | a pass never runs more than the concurrency limit in a batch, unless more were running before |
| BulkProgress.PassKeepsOrder | internal/store/bulk_fulfillment.go:215-262 | a pass takes items up in sequence order: the non-pending items stay a prefix |
| BulkProgress.PassMakesProgress | internal/service/service.go:2216-2311 | a pass adds work nowhere; it reports work exactly when it left strictly less, and otherwise changed nothing |
| BulkOutcomes.ServesExactlyWhen | internal/store/bulk_fulfillment.go:215-235 | exactly which batches a pass may serve: running ones with a pending item, and any running one when there is no such batch |
| BulkOutcomes.SelectedMeans | internal/store/bulk_fulfillment.go:215-262 | exactly which items a pass looks at: the first running ones up to the limit, then the first pending ones while there is room |
| BulkOutcomes.PassMeans | internal/service/service.go:2216-2311 | what one pass makes of every row, told from its answers: each listed item it reaches ends as its job, order and enqueue answers say, the first failure stops it and is noted in the batch, pending items follow only when no running one stopped it, and nothing else changes |
| BulkOutcomes.PassReports | internal/service/service.go:2216-2311 | a pass reports work exactly when something changed |
| BulkOutcomes.SuccessesHaveReasons | internal/service/service.go:2247-2304 | in no pass does an item succeed unless its job is waiting for the warehouse system, completed or skipped, or the batch is direct and the order manual, or the order no longer awaits shipment |
| BulkOutcomes.FailedJobStopsPass | internal/service/service.go:2241-2271 | the first listed running item whose job failed for an order that is not manual, or cannot be read, ends failed with the error, the batch notes order and error, no later item and no other batch is touched |
| BulkOutcomes.FinishMeans | internal/store/bulk_fulfillment.go:505-516 | finishing ends the pending or running rows of the order with status and message and changes no other row |
| BulkOutcomes.RestartMeans | internal/store/bulk_fulfillment.go:190-202 | a restart makes running and failed rows pending, clears the failure, and keeps succeeded ones and the rest of the batch |
| BulkOutcomes.CreateMeans | internal/store/bulk_fulfillment.go:33-129 | a batch is created exactly when none of its mode runs, substitutions have a catalog and some order is free; its rows are the free orders in their order, all pending |
| BulkRuns.CreateIsSound | internal/store/bulk_fulfillment.go:33-129 | a new batch shares no order with a running batch and there stays one running batch per mode |
| BulkRuns.EventKeepsInvariant | internal/store/bulk_fulfillment.go:23-550 | every single transaction keeps batches sound, stock conserved, reservations attached and capacities fixed |
| BulkRuns.RunsKeepInvariant | internal/store/bulk_fulfillment.go:23-550 | so does every run of transactions and passes |
| BulkRuns.PicksAreUnique | internal/store/bulk_fulfillment.go:300-308 | the batch a reservation, release or restart query picks is unique, so its ordering clause never matters |
| BulkRuns.RunsMeetSchema | migrations/001_init.sql:386-449 | in every run from empty tables the rows meet the unique indexes, checks and foreign keys of the bulk tables |
| BulkWorkerRuns.RunsAreThrottled | internal/service/service.go:2216-2311 | over every run driven by the worker no batch ever has more items running than the limit |
| BulkWorkerRuns.RunsKeepOrder | internal/service/service.go:2216-2311 | without a restart the items taken up always form a prefix of their batch |
| BulkWorkerRuns.RestartKeepsOrderExactlyWhen | internal/store/bulk_fulfillment.go:190-193 | a restart keeps that exactly when the succeeded items of its batch come before all others |
| BulkWorkerRuns.RestartBreaksOrder | internal/store/bulk_fulfillment.go:190-193 | a run from empty tables whose last event, a restart, breaks it |
| BulkWorkerRuns.ProductivePassesAreBounded | internal/service/service.go:2216-2311 | between creations and restarts the passes that report work are at most 2·pending + running of the start |
| ShipmentCompatibility.StatusWritesAreCompatible | internal/store/postgres.go:633-905 | every successful statement on the shipment row leaves the job bound to it in a status it allows, whatever the job was; the automatic retry and the confirmation counter, which leave the job alone, exactly when it was so before |
| ShipmentCompatibility.RestartAgrees | internal/store/bulk_fulfillment.go:169-187 | the restart statement gives a job the row that ensuring a missing completion job would insert |
| ShipmentCompatibility.MigrationAgrees | migrations/001_init.sql:370-384 | the jobs the migration creates are ones no later ensuring corrects |
| ShipmentCompatibility.RefreshKeepsCompatibleExactlyWhen | internal/service/service.go:1828-1914 | a refresh keeps the job compatible exactly when it does not read the labels of a shipment not yet shipped |
| ShipmentCompatibility.RefreshParksTheJob | internal/service/service.go:1984-1998 | a run from nothing after which a ready label's job waits for the warehouse system |
| ShipmentCompatibility.RetryStatementAloneMisfits | internal/store/postgres.go:851-874 | a run from nothing after which the retry statement would succeed and leave a failed job beside a submitting shipment |
| ShipmentCompatibility.WorkerRetriesCompatibly | internal/service/service.go:2387-2622 | in every iteration of every worker pass a successful retry statement leaves the job compatible |
| ShipmentDesk.Desk.EnsureShipmentCompletionJob | internal/store/postgres.go:633-709 | the upsert keeps a standing status of the same shipment's job and replaces any other |
| ShipmentDesk.Desk.ReserveShipment | internal/store/postgres.go:711-760 | the first call stores the order's only shipment with one attempt; every later call is a duplicate that only ensures the job |
| ShipmentDesk.Desk.PrepareShipmentRetry | internal/store/postgres.go:762-786 | only an unknown or failed submission without packages is resubmitted |
| ShipmentDesk.Desk.PrepareFailedShipmentRecovery | internal/store/postgres.go:788-849 | only an untracked, unconfirmed failed label is resubmitted; its packages are cleared |
| ShipmentDesk.Desk.PrepareUnknownShipmentRetry | internal/store/postgres.go:851-874 | only an unknown submission without packages, below the attempt limit and old enough, is resubmitted |
| ShipmentDesk.Desk.UpdateAutoFulfillment | internal/store/postgres.go:1711-1729 | a completed job only accepts completed, and an empty shipment id keeps the binding |
| ShipmentDesk.ReadLabels | internal/service/service.go:1868-1893 | the status is failed if some label failed, else pending if some is pending or there is none, else ready; with the first tracking number and the last failure |
| ShipmentDesk.Desk.RefreshShipment | internal/service/service.go:1828-1914 | a refresh equals its function: packages are looked up only when none is known |
| ShipmentDesk.Desk.SubmitReservedShipment | internal/service/service.go:1619-1665 | one upstream call and what each kind of answer leaves behind |
| ShipmentDesk.Desk.Purchase | internal/service/service.go:1463-1546 | a purchase equals its function, the duplicate and retry branches included |
| ShipmentDesk.Desk.RecoverFailedShipment | internal/service/service.go:1694-1793 | an operator recovery equals its function |
| ShipmentDesk.Desk.ConfirmShipped | internal/service/service.go:1928-1982 | a confirmation equals its function, which `ShipmentAnswers.ConfirmMeans` spells out |
| ShipmentDesk.Desk.RecoverUnknownShipment | internal/service/service.go:2387-2415 | the automatic recovery of an unknown submission equals its function |
| ShipmentDesk.Desk.Iterate | internal/service/service.go:2492-2620 | one iteration of the worker, all shipment statuses, equals its function |
| ShipmentDesk.Desk.RunAutoFulfillment | internal/service/service.go:2417-2622 | the worker's pass over a job, first purchase and loop, equals its function |
| ShipmentSafety.SubmittedIsFine | internal/service/service.go:1619-1665 | every submission finds a submitting shipment without packages and keeps the safety invariant |
| ShipmentSafety.RefreshedIsFine | internal/service/service.go:1828-1914 | a refresh keeps the invariant and loses no package |
| ShipmentSafety.PurchasedIsFine | internal/service/service.go:1463-1546 | so does a purchase |
| ShipmentSafety.RecoveredIsFine | internal/service/service.go:1694-1793 | so does an operator recovery |
| ShipmentSafety.ShipConfirmedIsFine | internal/service/service.go:1928-1982 | so does a confirmation |
| ShipmentSafety.RanIsFine | internal/service/service.go:2417-2622 | so does a whole worker pass |
| ShipmentRuns.RunsAreFine | internal/service/service.go:1463-2622 | every run keeps the invariant: calls found a submitting shipment without packages, calls do not exceed attempts, statuses that need packages have some, the job is bound; a shipped shipment stays as it is |
| ShipmentRuns.NoSecondLabel | internal/service/service.go:1463-2622 | in every run from nothing, once a package is known it is never dropped or replaced and `CreateShipment` is never called again |
| ShipmentAnswers.StatusAddsUp | internal/service/service.go:1868-1893 | the label status of several packages is that of the worst one: failed before pending before ready |
| ShipmentAnswers.RefreshMeans | internal/service/service.go:1828-1914 | what each answer to a refresh makes of both rows, field by field: packages are looked up when none is known, then labels are read; the job waits for the warehouse system exactly when labels were read or the order is shipped |
| ShipmentAnswers.SubmitMeans | internal/service/service.go:1619-1665 | the call a submission makes and what each answer makes of both rows, field by field |
| ShipmentAnswers.PurchaseMeans | internal/service/service.go:1463-1546 | what a purchase comes to: nothing, the stored shipment, the packages found, or a submission of rows of which only id and counts are left |
| ShipmentAnswers.PurchaseCalls | internal/service/service.go:1463-1546 | a purchase calls the platform exactly for an open, allowed order without a shipment, or whose submission failed or is unknown and has no package, stored or found; the call finds a submitting shipment without packages |
| ShipmentAnswers.RecoverMeans | internal/service/service.go:1694-1793 | what an operator recovery comes to, with exactly the conditions under which it submits again |
| ShipmentAnswers.ConfirmMeans | internal/service/service.go:1928-1982 | a confirmation is sent exactly for a known ready or unconfirmed label with a tracking number; it succeeds exactly when it is accepted or the order was shipped; accepted, the row is shipped and confirmed; rejected, it is `confirm_failed` with the problem, the same packages and tracking number and one more counted confirmation |
| ShipmentAnswers.ShippedMeansAccepted | internal/service/service.go:1463-2622 | in every run from nothing, with a log of all confirmation answers: the order is shipped, and equally confirmed, exactly when some confirmation was accepted; the count is the length of the log, and a failed confirmation carries the last problem |
| ShipmentAnswers.RetryMeans | internal/service/service.go:2387-2415 | the automatic retry of an unknown submission submits again exactly two minutes after the last attempt, without a package anywhere, and below three attempts; at three it is exhausted |
| ShipmentJobs.EnsureMeans | internal/store/postgres.go:633-709 | ensuring the job binds it to the shipment and keeps exactly a standing status of that shipment's own job |
| ShipmentJobs.UpdateMeans | internal/store/postgres.go:1711-1729 | the job gets the status, and the binding unless the id is empty; a completed one only stays completed |
| ShipmentJobs.RestartMeans | internal/store/bulk_fulfillment.go:169-187 | a restarted job is bound to the order's shipment with the status due to it, or queued without one |
| ShipmentJobs.UnknownRetryMeans | internal/store/postgres.go:851-874 | the retry statement takes exactly unknown submissions without packages, old enough and with one more attempt within the limit, and leaves packages, tracking number and job alone |
| ShipmentJobs.RepairMeans | internal/store/postgres.go:1538-1589 | exactly which shipments a repair touches, and the job it leaves |
| ShipmentSteps.UnknownStepMeans | internal/service/service.go:2494-2511 | where an iteration leaves the job of an unknown submission, for each outcome of its recovery |
| ShipmentSteps.PendingStepMeans | internal/service/service.go:2512-2535 | where it leaves the job while a label is pending |
| ShipmentSteps.ConfirmStepMeans | internal/service/service.go:2536-2552 | and of a label to confirm: only a temporary failure below three counted tries, or a rate limit, is tried again |
| ShipmentSteps.ShippedStepMeans | internal/service/service.go:2553-2563 | a shipped order's job is completed exactly when the warehouse system is done with it, fails when that needs a person, and waits otherwise |
| ShipmentSteps.FallbackStepMeans | internal/service/service.go:2564-2616 | when a refused address leads to another carrier, to a person or to failure |
| ShipmentSteps.PassMeans | internal/service/service.go:2492-2622 | a pass iterates until one iteration stops it; after its last iteration (the worker has four) without a stop the job waits for the warehouse system |
| ShipmentSteps.PassBegins | internal/service/service.go:2417-2492 | a pass begins with the stored shipment, or with the first purchase of an order without one, whose outcome decides whether it goes on |
| ShipmentRuns.RepairFindsOnlyIdleJobs | internal/store/postgres.go:1538-1580 | in no run does the repair query meet a missing job or a job of another shipment |
| ShipmentRuns.RecoveryStatementAloneDropsPackages | internal/store/postgres.go:806-832 | exactly on an untracked failed label with packages the recovery statement would drop them; the service's own check refuses all of these |
| ShipmentRuns.RecoveryStatementReachesPackages | internal/store/postgres.go:806-832 | such a row is reached from nothing by a purchase and a refresh |
| ShipmentAttempts.AttemptsAreCalls | internal/service/service.go:1463-2622 | without an interruption between storing an attempt and calling, stored attempts equal the calls made |
| ShipmentAttempts.WorkerStopsAfterThree | internal/service/service.go:2387-2622 | without an operator at most three calls are ever made for an order, interruptions or not |
| ShipmentHandover.WorkerHandsOnExactlyWhen | internal/service/service.go:2417-2622 | for every pass over claimed rows: the job is still running afterwards exactly when the process died in the first purchase of a job bound beforehand, or the loop sticks in the fallback of a failed label or the retry of an unknown submission, after nothing but repeated tries to reserve stock |
| ShipmentHandover.RunsNeverStickInPurchase | internal/service/service.go:2417-2492 | in no run from nothing is a job bound before its first purchase, so a death there hands the job on |
| ShipmentHandover.KnownPackagesAreHandedOn | internal/service/service.go:2553-2620 | a pass over a shipment with known packages always hands its job on |
| ShipmentHandover.RefusedRunStaysRunning | internal/service/service.go:2590-2618 | after a refused first purchase a pass from nothing ends running exactly when the failure cannot be stored or the process dies in the next purchase |
| ShipmentHandover.UnclearRunStaysRunning | internal/service/service.go:2387-2415 | a pass that retries an unclear purchase ends running exactly when the process dies |
| ShipmentHandover.WorkerHandsOn | internal/service/service.go:2417-2622 | unless the process dies or a failed carrier cannot be stored, a pass leaves its job in a status other than running |
| ShipmentHandover.UnstoredFailureStaysRunning | internal/service/service.go:2590-2594 | a failed label without packages whose carrier cannot be stored at once keeps all its rows, the job claimed again later |
| ShipmentHandover.RepairRemoves | internal/store/postgres.go:1538-1589 | a repair removes exactly the picked candidates |
| ShipmentHandover.RepairDrains | internal/store/postgres.go:1538-1589 | repeated repair at a fixed cutoff repairs every candidate once, then none |
| CarrierChoice.BetterIsOrderExactlyWhen | internal/service/service.go:1349-1357 | the comparison is a strict weak order on all candidates with given amounts exactly when closeness is transitive on these amounts |
| CarrierChoice.BetterCycles | internal/service/service.go:1349-1357 | a close, close and far triple of amounts makes candidates of one tie priority cycle |
| CarrierChoice.BetterIsOrderOnGrid | internal/service/service.go:1349-1357 | on the 1/10000 grid only equal amounts are close, so there it is an order |
| CarrierChoice.FavouredIsOrder | internal/service/service.go:1323-1332 | with one mode on the grid the order inside the window is: priority if the mode uses it (1000 when unset), amount, tie priority, channel |
| CarrierCode.SelectAutomaticChannel | internal/service/service.go:1276-1340 | the selection loops, the preferred channel and every refusal equal the choice function |
| CarrierCode.SelectGofoPremiumChannel | internal/service/gofo_premium.go:11-45 | the GOFO scan equals its function |
| CarrierTheorems.ChoiceIsBestInWindow | internal/service/service.go:1306-1335 | with one mode and no negative delta the window is never empty and the choice is least in (priority, amount, tie, channel) among the candidates within the minimum plus their own delta |
| CarrierTheorems.WindowIsEmptyExactlyWhen | internal/service/service.go:1315-1334 | the choice indexes an empty list exactly when no offer is within the cheapest amount plus its own delta, which takes a negative delta of every cheapest offer |
| CarrierTheorems.NegativeDeltaEmptiesWindow | internal/service/service.go:1315-1334 | one offer with a delta of minus one is enough |
| CarrierTheorems.PreferredIsAnswered | internal/service/service.go:1293-1305 | with a preferred channel there is a choice exactly when some candidate is on it, and then a candidate on it; otherwise the refusal is that the channel is not allowed |
| CarrierTheorems.PreferredIsBest | internal/service/service.go:1293-1305 | and wherever the comparison is an order, no candidate on the preferred channel precedes the choice |
| CarrierTheorems.ClashMeans | internal/service/service.go:1281-1290 | two currencies clash exactly when both are stated and differ in more than case and surrounding spaces |
| CarrierTheorems.RefusalsComeFirst | internal/service/service.go:1276-1290 | no candidate and clashing currencies are refused, each with its own refusal and before any choice |
| CarrierTheorems.ChoiceIsInReach | internal/service/service.go:1315-1334 | whatever the mixture of rules and the amounts: outside the GOFO mode there is a choice exactly when a candidate is within its own delta of the first one in order, and the choice is such a candidate |
| CarrierTheorems.ChoiceIsBestAffordable | internal/service/service.go:1306-1335 | with deltas on the grid the tolerance is gone: the choice costs at most the cheapest amount plus its delta, and no such candidate precedes it |
| CarrierTheorems.LowestPriceIsMinimum | internal/service/service.go:1315-1339 | in lowest-price mode the choice costs the minimum |
| CarrierTheorems.ChoiceWithinDelta | internal/service/service.go:1306-1335 | the choice never costs more than any offer plus the largest delta |
| CarrierTheorems.GofoChoice | internal/service/gofo_premium.go:27-44 | under GOFO rules with dollar quotes the best GOFO offer, of tied ones the first to arrive, is chosen when it is within its own delta of the cheapest rival, otherwise an offer least in (amount, priority, tie, channel) |
| CarrierTheorems.GofoAnswers | internal/service/service.go:1276-1314 | under GOFO rules there is a choice exactly when all quotes are in plain dollars, and the refusal tells whether two currencies met |
| CarrierTheorems.GofoRulesDoNotMix | internal/service/service.go:1307-1313 | a cheapest quote under GOFO rules among quotes under other rules is refused |
| CarrierTheorems.GofoBound | internal/service/gofo_premium.go:41-44 | under GOFO rules the chosen price never exceeds any SWIFTX or SPEEDX offer by more than the delta |
| CarrierOrder.ChoiceIgnoresArrival | internal/service/service.go:1022-1083 | two arrivals of the same quotes in any order, without ties, lead to the same choice or refusal up to the warehouse's place of arrival |
| CarrierCode.SelectSubstitutionPriceQuotes | internal/service/substitution.go:678-730 | grouping, choosing per warehouse and ranking equal the two-stage function, whatever order the map yields its keys in |
| SubstitutionQuotes.TwoStageBound | internal/service/substitution.go:678-730 | the first quote costs at most the global minimum plus twice the delta, and exactly the minimum in lowest-price mode |
| SubstitutionQuotes.OneQuotePerWarehouse | internal/service/substitution.go:689-729 | every warehouse with offers has a quote and there are as many quotes as warehouses |
| SubstitutionQuotes.QuotesAreChoices | internal/service/substitution.go:689-713 | the quotes are exactly the choices made among the offers of one warehouse each; a warehouse whose offers are refused has none |
| SubstitutionQuotes.QuotesInOrder | internal/service/substitution.go:714-729 | the choice among them comes first and the rest follows in the order of price, tie priority and channel; no two are of one warehouse |
| SubstitutionQuotes.TwiceTheDeltaIsPaid | internal/service/substitution.go:689-723 | the bound is tight: three offers for which twice the delta is paid |
| PurchaseChoice.BuildLabelPurchaseChoice | internal/service/service.go:1359-1383 | the snapshot loop equals its function |
| PurchaseChoice.RecordLabelPurchaseChoice | internal/store/postgres.go:553-614 | the record step accepts exactly the recordable snapshots |
| PurchaseChoice.BuiltIsRecordable | internal/service/service.go:1359-1399 | every snapshot built from sane candidates for one of them passes every check of the record step, also outside the top three |
| PurchaseChoice.BuiltListsTheBest | internal/service/service.go:1369-1377 | the entries of the snapshot are the min(3, n) best candidates in order, and nothing left out is better |
| PurchaseChoice.BuiltMeans | internal/service/service.go:1359-1393 | the snapshot tells who chose, shows the choice and the entries field by field, and ranks the choice by the last entry on its channel, 0 without one |
| PurchaseChoice.RecordableExactlyWhen | internal/store/postgres.go:553-614 | exactly which snapshots are recorded, spelled out field by field |
| WarehouseSelection.SelectWarehouse | internal/inventory/client.go:795-860 | the selection, its guards and loops equal its function, whatever order the maps yield their keys in; regions are `WarehouseSelection.SelectionIsInRegion` |
| WarehouseSelection.SelectionIsSound | internal/inventory/client.go:840-858 | the result is the first warehouse in order of preference that covers every SKU of the order |
| WarehouseSelection.SelectionIsComplete | internal/inventory/client.go:795-860 | it fails exactly when a guard rejects or no warehouse in question covers the order |
| WarehouseSelection.OfferedExactly | internal/inventory/client.go:811-817 | the warehouses in question are the entries of the first record in the region asked for, each once and in their order; "" and "auto" ask for every region |
| WarehouseSelection.SelectionIsInRegion | internal/inventory/client.go:811-857 | a selected warehouse has an entry in the first record that lies in the region asked for, the region of the selection is that entry's, and a warehouse asked for is the one selected |
| WarehouseSelection.PreferenceMeans | internal/inventory/client.go:819-832 | without a warehouse asked for all of these are in question; with one, it alone if it is among them, and otherwise none |
| SelectionAnswers.CandidatesMean | internal/inventory/client.go:779-793 | the entries of a record are its flat list if it has one, otherwise those of all its regions, each in the region it is listed under unless it names its own |
| SelectionAnswers.LastRecordCounts | internal/inventory/client.go:803-806 | of several records of a SKU the last one counts |
| SelectionAnswers.LastEntryDecides | internal/inventory/client.go:842-848 | of several entries of a warehouse in a record the last one decides: it must be selectable and hold the quantity |
| SelectionAnswers.RefusalMeans | internal/inventory/client.go:795-860 | each refusal exactly when its guard is the first to reject |
| ReservationRequest.GroupedLists | internal/inventory/client.go:862-887 | grouping the warehouses by region keeps exactly the warehouses |
| ReservationRequest.RegionalOffers | internal/inventory/client.go:779-793 | what the request reads is what the selection looked at, in the flat and in the regional form |
| ReservationRequest.BuildRequest | internal/service/service.go:1573-1613 | the request, its loops and errors equal its function |
| ReservationRequest.ReadingPassesExactlyWhen | internal/service/service.go:1578-1596 | the reading loops pass exactly when all entries of the warehouse carry one physical code |
| ReservationRequest.RequestStaysWithinStockExactlyWhen | internal/service/service.go:1573-1613 | for every answer a selection was made from: the request asks the ordered quantities within the stock observed, and is not refused for a missing SKU, exactly when the codes disagree or the entry read last for each SKU has the quantity |
| ReservationRequest.RequestStaysWithinStock | internal/service/service.go:1573-1613 | where no warehouse occurs in two spellings in the record that counts and no other SKU equals an ordered one after trimming, that is so exactly when the codes disagree or all ordered SKUs are trimmed |
| SelectionAnswers.RequestMeans | internal/service/service.go:1573-1613 | a request that is made carries the one physical code of the warehouse's entries and, for every SKU asked and no other, the quantity asked and the stock of the entry read last, in whole pieces |
| SelectionAnswers.RequestRefusals | internal/service/service.go:1573-1613 | it is refused exactly when the codes disagree or are missing, no entry is the warehouse's, or a SKU has none |
| ReservationRequest.TwoSpellingsOverbook | internal/service/service.go:1581 | two spellings of one warehouse in a record: the selection relies on one, the request reads the other |
| ReservationRequest.TwoSkusOverbook | internal/service/service.go:1593 | two SKUs equal after trimming: the stock of the second is filed under the first |
| ReservationRequest.TenAndOne | internal/service/service.go:1573-1613 | ten pieces in "A", one in "a", five ordered: the selection succeeds and the request asks for five of one |
| PurchaseRetry.FilterWarehouseKeys | internal/service/service.go:1161-1175 | exactly the keys whose normal form is excluded are dropped |
| PurchaseRetry.QuoteRound | internal/service/service.go:972-1018 | naming, filtering, selecting and checking the keys of a quote equal their function |
| PurchaseRetry.PurchaseDirect | internal/service/service.go:2440-2456 | the loop, stopped after any list of rounds, equals its function for all answers |
| PurchaseRetry.FilteredOne | internal/service/service.go:1161-1175 | a key is dropped exactly when it is not blank and an excluded key says the same up to case and surrounding spaces |
| PurchaseRetry.RegionsOfWarehouses | internal/service/service.go:1177-1188 | exactly which warehouses are quoted in which region |
| PurchaseRetry.OfferExactlyWhen | internal/service/service.go:991-1018 | a key that is not blank is offered as the warehouse it names, exactly when the selection takes it in its region and account, mapping and carriers pass |
| PurchaseRetry.RoundMeans | internal/service/service.go:2440-2456 | exactly how a round ends: no purchase without an offer picked, the next round after a purchase short of stock, and otherwise the end with the outcome of the purchase |
| PurchaseRetry.ExcludedIsOfferedExactlyWhen | internal/service/service.go:991-1018 | for every answer and every list of exclusions: a quote offers an excluded warehouse exactly when a blank key is named and passes the checks and the first warehouse covering the order is excluded |
| PurchaseRetry.PurchaseDirectEnds | internal/service/service.go:2440-2456 | without quotes from blank keys the loop has ended after one round more than there are mapped warehouses, and no warehouse is purchased against twice, whatever else changes between rounds |
| PurchaseRetry.NamedKeysAreEnough | internal/service/service.go:3233-3244 | answers that name no blank key lead to no such quotes |
| PurchaseRetry.LoopEndsExactlyWhen | internal/service/service.go:2440-2456 | under the same answers in every round the loop ends in time, whatever is chosen and however the purchases go, exactly when they quote no blank key |
| PurchaseRetry.BlankKeyNeverEnds | internal/service/service.go:2440-2456 | answers that keep quoting a blank key and reservations that keep failing make n purchases against the first warehouse in n rounds, for every n, and the loop goes on |
| PurchaseRetry.BlankEntryNeverEnds | internal/service/service.go:1566-1599 | one inventory answer is enough: a covering warehouse without a code, whose reservations all fail, beside an entry without a key |
| PurchaseRetry.DpsNeverEnds | internal/service/service.go:2440-2456 | such an answer with the warehouse DPS002 |
| RequestSlots.Limiter.WaitForRequestSlot | internal/temu/client.go:97-123 | the slot is the later of the reading and the shared field, which then moves one interval past it; without an interval nothing is recorded |
| RequestSlots.Limiter.Serve | internal/temu/client.go:97-123 | any interleaving of callers is granted the schedule the theorems are about |
| RequestSlots.SlotsAreAllowed | internal/temu/client.go:104-110 | granted slots are at least one interval apart and never before the caller's reading |
| RequestSlots.SlotsAreEarliest | internal/temu/client.go:104-110 | every schedule with these properties grants every caller the same slot or a later one |
| RequestSlots.NoIdleWaiting | internal/temu/client.go:104-110 | a slot is the caller's reading or exactly one interval after the previous slot |
| RequestSlots.WindowBound | internal/temu/client.go:97-123 | any half-open window of length L holds at most L / interval, rounded up, of the slots |
| RequestSlots.Limiter.SetRequestInterval | internal/temu/client.go:86-95 | the interval is set exactly when it is within bounds, and the shared field is then forgotten |
| RequestSlots.SpacingKeptExactlyWhen | internal/temu/client.go:86-110 | across any number of interval changes two slots keep the interval of the first exactly when every change was refused or the second caller could not have come sooner |
| RequestSlots.ResetSharesTheSlot | internal/temu/client.go:86-110 | a caller with the reading of a free slot's holder is granted the same slot after a change |
| ManualReviews.ReviewRow.UpsertManualReview | internal/store/order_detail.go:227-262 | the upsert equals its function |
| ManualReviews.ReviewRow.ReplaceOpenOrder | internal/store/postgres.go:142-187 | the sync of one order, with and without a review, equals its function |
| ManualReviews.ReviewRow.ClearManualReviewReason | internal/store/order_detail.go:263-276 | clearing a reason equals its function |
| ManualReviews.ReviewRow.UpdateManualReview | internal/store/order_detail.go:278-297 | a person's decision is accepted exactly when the statement's guard holds |
| ManualReviews.FinalIsForever | internal/store/order_detail.go:259-291 | a row resolved with an outcome is never changed by any later sequence of steps |
| ManualReviews.BlockingReasonsPersist | internal/store/order_detail.go:238-258 | a blocking reason of an active review survives every step but its own clearing, a resolution or the closing of the order |
| ManualReviews.AdmitsExactlyWhen | internal/store/bulk_fulfillment.go:57-62 | which reviews let an order into a direct batch: none, or an undecided one that is put away, or approved and free of blocking reasons |
| ManualReviews.BlockedOrdersStayOut | internal/store/bulk_fulfillment.go:57-62 | meanwhile the order is kept out of every direct batch, even when approved |
| ManualReviews.SyncRevokesApproval | internal/store/postgres.go:147-184 | a sync or detection that leaves a blocking reason on an active review leaves it detected or pending, never approved |
| ManualReviews.OnlyPeopleDecide | internal/store/order_detail.go:227-297 | no sync, detection, clearing or closing approves a review or resolves it with an outcome |
| ManualReviews.UpsertMeans | internal/store/order_detail.go:227-262 | what a detection leaves: its reasons and the blocking ones of an open row; the status depends on whether a blocking reason is left |
| ManualReviews.SyncMeans | internal/store/postgres.go:142-171 | what a sync with a review leaves; there blocking reasons of an inactive row count for the status although they are dropped |
| ManualReviews.AbsenceMeans | internal/store/postgres.go:172-187 | a sync without a review keeps a row with a blocking reason open and unapproved and puts any other away, and closing puts every active row away |
| ManualReviews.ClearMeans | internal/store/order_detail.go:263-276 | clearing the last reason resolves the row, clearing another one takes an approval back |
| ManualReviews.ActiveRowsAreOpenExcept | internal/store/order_detail.go:263-276 | a step leaves an active row with status resolved exactly when it clears one of several reasons of a resolved row without outcome |
| ManualReviews.ResolvedRowReactivated | internal/store/order_detail.go:263-276 | such a row arises from three ordinary steps |
| OmsAssignment.SyncRow.AssignPendingOMSPlatformOrder | internal/service/warehouse_assignment.go:151-188 | the assignment step equals its function and counts the successful calls |
| OmsAssignment.SyncRow.ReconcileOMSPlatformOrder | internal/service/oms_platform_order.go:27-81 | a reconciliation equals its function, the failure paths included |
| OmsAssignment.AssignedAtMostOnce | internal/service/oms_platform_order.go:27-81 | over any sequence of polls with consistent answers the warehouse is successfully assigned at most once |
| OmsAssignment.PollMeans | internal/service/oms_platform_order.go:27-130 | exactly where a poll leaves the row: verified when the one order found is processed or shipped from the warehouse bought from, waiting while it is pending or awaits its label there or is not yet overdue, failed without an answer, in the hands of a person otherwise; a finished row is left alone |
| OmsAssignment.PollAssignsExactlyWhen | internal/service/warehouse_assignment.go:151-239 | exactly when a poll assigns the warehouse |
| OmsAssignment.MarkerMeans | internal/service/warehouse_assignment.go:151-188 | the marker after a poll of a pending order: gone when the source check rejects it, kept when it marks this order's success, otherwise telling how the attempt went |
| OmsAssignment.AccountExactlyWhen | internal/service/oms_platform_order.go:139-150 | an account is usable exactly when it has one to sixty-four letters, digits, dashes and underscores; it is lower-cased |
| OmsAssignment.MarkerIsKeptUnless | internal/service/warehouse_assignment.go:165-171 | a fitting marker is kept by a poll exactly unless the order is pending and the source check rejects it |
| OmsAssignment.PollKeepsOnceExactlyWhen | internal/service/oms_platform_order.go:27-81 | after an assignment a poll keeps the order assigned once with its marker exactly unless the order is pending and rejected by the source check or carries another number |
| OmsAssignment.LostMarkerAssignsAgain | internal/service/warehouse_assignment.go:151-188 | a poll that loses the marker has assigned a second time, or the next good poll does |
| OmsAssignment.AnotherNumberAssignsTwice | internal/service/warehouse_assignment.go:190-195 | an answer with another order number assigns any assignable order a second time |
| OmsAssignment.InconsistentAnswersAssignTwice | internal/service/warehouse_assignment.go:208-210 | one answer with another match count leads to a second assignment of any assignable order |
| PackageWeights.NeverUnderstated | internal/service/service.go:2898-2917 | the declared weight, in either form, is at least the metric weight |
| PackageWeights.OverstatedByLessThanAnOunce | internal/service/service.go:2898-2917 | and exceeds the converted weight by less than an ounce |
| PackageWeights.DeclaredIsMonotone | internal/service/service.go:2898-2917 | a heavier package is never declared lighter, also across the change of form at one pound |
| PackageWeights.BothAgree | internal/service/split_quote.go:628-634 | order and split declarations agree exactly from sixteen ounces on |

## Left out

- Interleavings inside one service operation: each operation is atomic per order; the unguarded status updates would break the shipment claims below that grain.
- A process that stops is modelled between storing an attempt, calling upstream and storing the answer, not at every store statement.
- Database failures other than the modelled rollbacks; a failing status update after an upstream call is not modelled.
- The order in which rows with equal sort keys come out of a query: picks that matter are proved unique or left arbitrary.
- The case mapping of characters outside ASCII in `ToUpper`, `ToLower` and `EqualFold`.
- Floating-point rounding of amounts, weights and sizes, prices without digits (which the code reads as infinity), and text formatting of amounts.
- Recognizing carriers and address errors in texts: the carrier code and the "address not supported" verdict are part of the answers.
- Selection under mixed rules: proved are the independence of the order of arrival and that the choice is within its own delta; which of several such candidates is chosen is not, as the comparison in the price window can cycle.
- Error texts, timestamps, notes, events, attempts of jobs and completion times, where no branch depends on them.
- BulkStore.Store.CreateBulkFulfillmentBatch: the other conditions of its query (open order, warehouse check, review, substitution catalog) decide which orders it is given; the review condition is `ManualReviews.Admits`.
- BulkStore.Store.RestartBulkFulfillmentBatch: the job updates of the same transaction are `ShipmentRows.RestartedJob`, per order.
- SplitTheorem.PlanPassesExactlyWhen: supposes positive weights and sides in the resolved specs.
- CarrierTheorems.ChoiceIsBestInWindow: supposes prices on the 1/10000 grid, one currency, one mode other than the GOFO one and no negative delta; so do the bounds built on it.
- OmsAssignment.AssignedAtMostOnce: a call whose answer is lost is not counted as successful, so an assignment that took effect without an answer can be repeated.
- BulkStore.Store.ReserveBulkSubstitutionInventory: lists the stored rows in byte order; under another collation of the database the reservation is the same on every conserved ledger (`BulkStore.Transact`).
- PurchaseRetry.PurchaseDirect: the account, mapping, carrier and purchase answers are free; a failing query or database call is a quote that fails.
- OmsAssignment.MarkerIsKeptUnless: supposes that the polled order carries the marked number; the general case is `OmsAssignment.PollKeepsOnceExactlyWhen`.
- ReservationItems.Normalize: the list of items is the ascending list of SKUs with one map of quantities and stocks.
- Stored outcome fields of a review beside reasons, status, outcome, note and active flag; reasons are a set.
- HTTP handlers, static files, exports, the dashboard, listings and search, signing and credentials, the Python tools: input, output and rendering.
- Of the schema (`migrations/001_init.sql`) only the constraints of the bulk tables, the order table's key and the backfill of jobs are modelled; other defaults, checks and indexes are not.
