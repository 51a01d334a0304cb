# Event Commerce OS: a verified model

Event Commerce OS sells through POS devices that sync to a venue Edge, which syncs to the Cloud. This
project models its state machines in Dafny and proves what they keep under outages, duplicates, loss,
reordering, crashes and late answers.

How the files are laid out:

- `SimulatorModel`, `SimulatorInvariants`, `SimulatorTheorems`, `EventSimulation`: the event simulator, for
  every configuration and every stream of random numbers. `SimulatorSales`, `SimulatorRate`,
  `SimulatorPhases`: which sales, arrivals and deliveries happen, and exactly when.
- `PaymentDomain`, `CloudPayments`, `CloudPaymentRuns`, `CloudPaymentTheorems`, `CloudPaymentDecisions`,
  `CloudPaymentsService`: the Cloud's payment attempts over every interleaving of initiation, callbacks,
  stored callbacks, polling, promotion and manual confirmation. `PaymentAdjustments` adds refunds and
  reversals, `EdgePayments` the Edge's cache.
- `InventoryDomain`, `InventoryLedger`, `StockTransfers`, `StockTransferProofs`, `TransferWorkflow`,
  `StockCounts`, `CountWorkflow`, `SaleConsumption`, `SaleStock`, `InventoryRuns`, `InventoryServices`: the
  append-only stock ledger and everything that posts to it, under configurations that may be replaced at
  any time. `SaleForwarding`, `SaleInbox`, `SaleFate`: from a device batch to the ledger, and what becomes of
  every accepted sale.
- `SyncEvents`, `DeviceSync`, `DeviceConflicts`, `Relay`, `CloudSync`, `CloudAcknowledgement`,
  `OrderProjection`, `OrderDelivery`: device events on their way to the Cloud's orders, hop by hop and end to
  end, with what is refused on the way and who hears of it.
- `MenuText`, `Crc32`, `PosMenu`, `MenuAcceptance`: the menu serialisation, its checksum, and which menus can
  be installed. `AbuseProtection`: the rate limiter.
- `Sums`: finite sums and multisets, used throughout.

One database transaction is one atomic step: a function from tables to tables, whose error result leaves
everything as it was. An operation that calls a provider or another machine between two transactions is
several steps, and what it read or sent is remembered so that its later half may happen at any time, or
never. Runs are arbitrary sequences of enabled steps. The source's services are classes whose methods
update table fields in loops; each method's contract equates the new fields with the transaction function
that the theorems are about. What such a function decides is stated once more without it, as a condition on
the rows before and what then stands in the rows after.

Uniqueness comes from the migrations: primary keys, `UNIQUE` columns and the single-reversal index. A
provider is anything its interface type allows, with two facts read from the adapters: the
`external_terminal` adapter returns no reference from `initiate`, and it takes no callbacks. Random UUIDs
are fresh. A SHA-256 request fingerprint stands for the request itself. Lemmas turn Dafny's automatic
induction off, so each is proved by the body that is written.

Results that a reader might not expect, with the exact condition where there is one:

- An Edge's acknowledged sequence can go back (`WatermarkGoesBackExactlyWhen`, `WatermarkCanGoBack`).
- A sale refused as CONFLICT is still posted to the stock ledger when an event of the same batch that is
  accepted or already stored has its instance id, because the controller filters by instance id alone
  (`PassedOnIsStoredExactlyWhen`, `EveryEdgePassesOnStoredExactlyWhen`, `PassedOnIsPostedExactlyWhen`,
  `RefusedSaleIsPosted`). If the two sales want different quantities of one SKU, the request fails instead, and
  fails again on every retry under the same configuration (`TwoUnderOneInstance`, `RetryStopsAtTheSamePlace`).
- An accepted sale can be lost: a refused one under its id, consumed first, marks its inbox row, and the timer
  then passes it over (`BatchLosesNothingExactlyWhen`, `AcceptedSaleFate`, `AcceptedSaleLost`).
- A sale delivered again after its recipes were replaced can take stock a second time
  (`RepeatIsHarmlessExactlyWhen`, `RepeatTakesTwice`).
- An event that contradicts the newest one can keep it out of the Cloud's order for good
  (`DrainedOrderIsCurrentExactlyWhen`).
- An order's location, cashier and lines depend on the order of delivery unless the newest event carries
  them (`FillInsAgreeExactlyWhen`).
- Composed ledger keys of different transfers can be equal (`KeysCollide`); a commit is nevertheless always
  of its own rows (`DispatchWritesOnce`, `ReceiveWritesOnce`). A movement that holds a count's key keeps the
  count open (`CountClosesExactlyWhen`).
- A REVERSAL may target a transfer row and then counts as a non-transfer movement in `StockIsConserved`.
- The rate limiter's bound per client holds while fewer than maxBuckets other clients call in the window
  (`ClientWindowBound`); that many others take a client's bucket away, and it starts again with a full burst
  (`BucketSurvivesExactlyWhen`, `CrowdBreaksBound`).

## Model

| member | source | states |
|---|---|---|
| `Randomness.Integer` | packages/simulator/src/prng.ts:18-21 | a draw lies between its two bounds, both included, for every stream |
| `Randomness.Weighted` | packages/simulator/src/prng.ts:28-40 | a weighted choice is always an index of the list |
| `SimulatorSales.WeightedFollowsDraw` | packages/simulator/src/prng.ts:28-40 | a choice fails iff no weight is positive; otherwise it takes one number, and the entry is the one in whose share of the total that number falls |
| `SimulatorSales.IntegerFollowsDraw` | packages/simulator/src/prng.ts:18-21 | a whole number is the lower bound plus the next fraction of the range, rounded down |
| `SimulatorSales.ProductWeighs` | packages/simulator/src/simulator.ts:290-295 | a product weighs its own weight times the multiplier of the first spike for its SKU that is on |
| `SimulatorSales.OpeningStock` | packages/simulator/src/simulator.ts:163-170 | every bar starts with the opening stock of every product, physically, at the Edge and at the Cloud |
| `SimulatorSales.StartingRegisters` | packages/simulator/src/simulator.ts:156-162 | a run starts with the registers of every bar, nothing accumulated |
| `SimulatorSales.SaleMadeExactlyWhen` | packages/simulator/src/simulator.ts:211-249 | a due register sells iff the product it draws is in stock at its bar: that stock falls by one and no other moves, one order, its payment and its two mutations are added; otherwise one number of the stream is used, or the run fails if nothing can be drawn |
| `SimulatorSales.PaymentTells` | packages/simulator/src/simulator.ts:246-287 | the payment of a sale: its rail as drawn, cash succeeded at once, a provider payment pending or unknown, and the bounds of its due second |
| `SimulatorRate.RegisterSells` | packages/simulator/src/simulator.ts:200-209 | a register spends its whole accumulated sales and keeps the fraction; it makes at most that many sales, at its own bar only, and all of them while stock lasts |
| `SimulatorRate.SecondSells` | packages/simulator/src/simulator.ts:173-209 | a second makes the sales all registers owe, all of them while stock lasts; the other phases sell nothing and take no stock |
| `SimulatorRate.RunSells` | packages/simulator/src/simulator.ts:173-209 | after t seconds of selling a run has made at most registers × ⌊t × rate⌋ sales, and exactly that many if every product opens with as many units at every bar |
| `SimulatorPhases.ReplenishedExactlyWhen` | packages/simulator/src/simulator.ts:418-446 | a bar is replenished under a plan iff it has not been, its stock is at most the trigger and something is left; amount, due second and remainder of the plan follow |
| `SimulatorPhases.ArrivesExactlyWhen` | packages/simulator/src/simulator.ts:448-472 | a transfer arrives in the second it is due iff the Edge is up, else it is put off by a second; stock grows by exactly what arrives at each place |
| `SimulatorPhases.SettlesExactlyWhen` | packages/simulator/src/simulator.ts:388-416 | a payment succeeds in the second its truth is due iff the Cloud is reachable, else it is put off by a second |
| `SimulatorPhases.LocalLimits` | packages/simulator/src/simulator.ts:297-320 | mutations of cut-off registers stay, and at most 250 leave in a second |
| `SimulatorPhases.FirstOnesGo` | packages/simulator/src/simulator.ts:297-320 | without loss or repetition and with every register reachable, exactly the first 250 leave, in order |
| `SimulatorPhases.EdgeDelivers` | packages/simulator/src/simulator.ts:336-362 | nothing is delivered while the Cloud is out of reach; otherwise the front of the queue is, up to a loss or to 300 entries, 20 on a slow database |
| `SimulatorPhases.AssertionsTell` | packages/simulator/src/simulator.ts:493-605 | what each release assertion says of the rows of the state |
| `SimulatorInvariants.StartHolds` | packages/simulator/src/simulator.ts:153-171 | a new run satisfies the invariant: stock conserved, ids distinct, orders and payments counted |
| `SimulatorInvariants.CreateSaleKeeps` | packages/simulator/src/simulator.ts:211-288 | a sale keeps the invariant whatever is drawn, or fails the run |
| `SimulatorInvariants.TrafficKeeps` | packages/simulator/src/simulator.ts:200-209 | all sales of a second keep the invariant |
| `SimulatorInvariants.CreateTransfersKeeps` | packages/simulator/src/simulator.ts:418-446 | replenishment planning keeps the invariant |
| `SimulatorInvariants.CompleteTransfersKeeps` | packages/simulator/src/simulator.ts:448-472 | arrivals and postponements of transfers keep the invariant |
| `SimulatorInvariants.DrainLocalKeeps` | packages/simulator/src/simulator.ts:297-334 | moving device mutations to the Edge, with loss and duplicates, keeps physical = Edge + queued deltas, queued ids unapplied, and the rest |
| `SimulatorInvariants.MaybeRotateKeeps` | packages/simulator/src/simulator.ts:342-349 | reordering the Edge queue keeps the invariant |
| `SimulatorInvariants.DrainEdgeKeeps` | packages/simulator/src/simulator.ts:336-386 | delivering to the Cloud, with loss, duplicates and reordering, keeps Edge = Cloud + undelivered deltas and applied ids = Cloud ids + queued ids |
| `SimulatorInvariants.PaymentSignalsKeep` | packages/simulator/src/simulator.ts:388-416 | payment signals keep the invariant: no signal is recorded for a payment that has not succeeded |
| `SimulatorInvariants.SecondKeeps` | packages/simulator/src/simulator.ts:173-198 | a whole second keeps the invariant |
| `SimulatorInvariants.EveryRunHolds` | packages/simulator/src/simulator.ts:173-198 | the invariant holds after every second of every run of every accepted configuration and random stream |
| `SimulatorTheorems.DrainedMeansConverged` | packages/simulator/src/simulator.ts:544-605 | with both queues empty the three inventories and the two order sets are equal |
| `SimulatorTheorems.AssertionsAgree` | packages/simulator/src/simulator.ts:493-605 | in every run LOCAL_DURABILITY and NO_DUPLICATE_BUSINESS_EFFECT pass; SYNC_DRAINS passes iff EDGE_CLOUD_CONVERGENCE does and then INVENTORY_CONVERGENCE does; the two payment assertions agree |
| `SimulatorTheorems.FaultsOver` | packages/simulator/src/simulator.ts:71-85 | after the last recovery fault every link is up and the full delivery capacity is available |
| `SimulatorTheorems.EveryRunBounded` | packages/simulator/src/simulator.ts:388-416 | however often a payment or a transfer is pushed back, its due second stays under a bound that follows from the configuration, and nothing due is left unsettled while its link is up |
| `SimulatorTheorems.SecondSettles` | packages/simulator/src/simulator.ts:448-472 | one second keeps the due bounds and settles every payment and transfer it could |
| `SimulatorTheorems.PaymentsResolve` | packages/simulator/src/simulator.ts:264-287 | if the run outlasts the faults by the stated margin, every payment has SUCCEEDED at its end |
| `SimulatorTheorems.QuietSecondDrains` | packages/simulator/src/simulator.ts:297-386 | in a quiet second 2·local + edge queue length falls by at least 250 or both queues end empty |
| `SimulatorTheorems.QuietTransfers` | packages/simulator/src/simulator.ts:448-472 | once quiet, every transfer has completed |
| `SimulatorTheorems.BacklogDrains` | packages/simulator/src/simulator.ts:608-633 | once quiet, the backlog is gone within backlog/250 + 1 seconds, and SYNC_DRAINS then passes |
| `EventSimulationClass.EventSimulation.constructor` | packages/simulator/src/simulator.ts:153-171 | a new simulation is in the start state of its configuration |
| `EventSimulationClass.EventSimulation.CreateSale` | packages/simulator/src/simulator.ts:211-288 | the fields after a sale equal the sale function, stock check and failed draw included |
| `EventSimulationClass.EventSimulation.DrainLocalQueue` | packages/simulator/src/simulator.ts:297-320 | the splice loop equals the function that visits every queued mutation once |
| `EventSimulationClass.EventSimulation.DrainEdgeQueue` | packages/simulator/src/simulator.ts:336-362 | the bounded delivery loop equals its function, stopping at the first loss |
| `EventSimulationClass.EventSimulation.ProcessPaymentSignals` | packages/simulator/src/simulator.ts:388-401 | the loop over payments equals its function |
| `EventSimulationClass.EventSimulation.MaybeCreateTransfers` | packages/simulator/src/simulator.ts:418-446 | the loop over plans and bars equals its function |
| `EventSimulationClass.EventSimulation.CompleteTransfers` | packages/simulator/src/simulator.ts:448-472 | the loop over transfers equals its function |
| `EventSimulationClass.EventSimulation.Run` | packages/simulator/src/simulator.ts:173-198 | the run ends in the state the theorems speak of and reports exactly the assertions that state passes, with their relations |
| `EventSimulationClass.Simulate` | packages/simulator/src/simulator.ts:91-114 | a run is refused exactly for an invalid configuration, and otherwise reports as Run does |
| `PaymentDomain.TerminalIsStuck` | packages/domain/src/payment.ts:65-72 | SUCCEEDED and FAILED are exactly the states without a way out, and every other state can still become either |
| `PaymentDomain.RunsSettle` | packages/domain/src/payment.ts:100-122 | along any legal run a terminal state is final and CREATED and INITIATED are never entered again |
| `PaymentDomain.MovesOnExactlyWhen` | packages/domain/src/payment.ts:65-72 | an open attempt may move on to anything but CREATED, and to INITIATED only from CREATED |
| `CloudPaymentRuns.NoInvalidTransition` | apps/cloud-api/src/payments/payments.service.ts:593-603 | provider truth that passed the earlier checks is never an invalid transition: that branch is unreachable |
| `CloudPaymentRuns.ApplyTruthTouches` | apps/cloud-api/src/payments/payments.service.ts:508-622 | applying provider truth changes one attempt and its job, lets the attempt only advance, and leaves both rows well-formed |
| `CloudPaymentRuns.IngestTouches` | apps/cloud-api/src/payments/payments.service.ts:213-266 | a callback changes at most the attempt it is about, once per provider event key |
| `CloudPaymentRuns.StoredTouches` | apps/cloud-api/src/payments/payments.service.ts:458-506 | a stored callback, applied later, lets the attempt only advance |
| `CloudPaymentRuns.PollWriteTouches` | apps/cloud-api/src/payments/payments.service.ts:296-327 | the write after a status query lets the attempt only advance, whatever happened since the read |
| `CloudPaymentRuns.ClaimKeeps` | apps/cloud-api/src/payments/payments.service.ts:122-186 | claiming an initiation adds at most one payment and one fresh CREATED attempt, and keeps keys unique |
| `CloudPaymentRuns.StepKeeps` | apps/cloud-api/src/payments/payments.service.ts:366-622 | every step of every interleaving keeps the invariant and lets every attempt only advance |
| `CloudPaymentTheorems.AttemptHistory` | apps/cloud-api/src/payments/payments.service.ts:387-622 | between any two moments of any run identity and terminal status never change, the reference is written at most once, never while CREATED, and CREATED is never re-entered |
| `CloudPaymentTheorems.JobsCover` | apps/cloud-api/src/payments/payments.service.ts:416-665 | every INITIATED, PENDING or UNKNOWN attempt has a PENDING or MANUAL_REVIEW job; a RESOLVED job means a terminal attempt |
| `CloudPaymentTheorems.InitiatedOnce` | apps/cloud-api/src/payments/payments.service.ts:122-211 | no idempotency key reaches `initiate` twice, even with replays, crashes and late results |
| `CloudPaymentTheorems.TruthSucceeds` | apps/cloud-api/src/payments/payments.service.ts:508-622 | truth makes an open attempt SUCCEEDED iff it says so and contradicts nothing recorded |
| `CloudPaymentTheorems.SucceedsExactlyWhen` | apps/cloud-api/src/payments/payments.service.ts:508-622 | an open attempt becomes SUCCEEDED in a step iff the step brings truth contradicting neither attempt id, reference, amount nor currency, or a matching manual approval |
| `CloudPaymentTheorems.ConfirmSucceeds` | apps/cloud-api/src/payments/manual-terminal.service.ts:63-168 | the manual case of the previous row: only an approval that matches amount and currency, of an external-terminal attempt that is neither UNKNOWN nor terminal |
| `CloudPaymentTheorems.AutoPollIsScheduled` | apps/cloud-api/src/payments/payments.service.ts:268-327 | handling one due job without interruption is one of the interleavings covered |
| `CloudPaymentTheorems.PollProgresses` | apps/cloud-api/src/payments/payments.service.ts:624-650 | each automatic poll that leaves the job pending raises its attempt count |
| `CloudPaymentTheorems.PollingEnds` | apps/cloud-api/src/payments/payments.service.ts:624-650 | without outside input an attempt is polled at most 6 − attempt_count times, whatever the provider answers |
| `CloudPaymentDecisions.TruthDecides` | apps/cloud-api/src/payments/payments.service.ts:508-622 | truth is applied iff it agrees with attempt id, reference, amount, currency and a final status; the attempt then says exactly what it says and the job is open or closed to match; otherwise an open attempt is UNKNOWN and the job for review under the first thing that differs; nothing else changes |
| `CloudPaymentDecisions.ClaimedExactlyWhen` | apps/cloud-api/src/payments/payments.service.ts:122-185 | a caller owns a new CREATED attempt iff the payment is new or the same and key and attempt id are free; the same request again owns nothing; refusals change nothing |
| `CloudPaymentDecisions.InitiationDecides` | apps/cloud-api/src/payments/payments.service.ts:416-452 | a CREATED attempt takes exactly the answer, and its job follows from it; any other attempt ignores it |
| `CloudPaymentDecisions.PromotionDecides` | apps/cloud-api/src/payments/payments.service.ts:387-414 | a stale CREATED attempt becomes UNKNOWN and goes to review |
| `CloudPaymentDecisions.ConfirmationDecides` | apps/cloud-api/src/payments/manual-terminal.service.ts:63-191 | a confirmation decides iff the attempt is of an external terminal, or a declined unreferenced push, open and not UNKNOWN, amount and currency match and key and evidence are new; a repeated one is answered with the record, and every other is refused |
| `CloudPaymentDecisions.ReceiptTells` | apps/cloud-api/src/payments/payments.service.ts:213-266 | a receipt is duplicate iff the provider event is known, unmatched iff about no attempt, applied iff it agrees with an attempt of its provider, and a conflict otherwise, with the rows of each |
| `CloudPaymentDecisions.PollDecides` | apps/cloud-api/src/payments/payments.service.ts:296-327 | an open attempt takes the answer of a status query; one that is not final counts a try, and the sixth goes to a person |
| `CloudPaymentDecisions.AutoPollDecides` | apps/cloud-api/src/payments/payments.service.ts:268-327 | what the timer makes of one due job: retry, review, or the answer applied |
| `CloudPaymentDecisions.StepDecides` | apps/cloud-api/src/payments/payments.service.ts:122-665 | every step of every interleaving makes exactly the stated thing of every attempt |
| `CloudPaymentDecisions.FailsExactlyWhen` | apps/cloud-api/src/payments/payments.service.ts:508-622 | an open attempt becomes FAILED in a step iff uncontradicted truth says so, the provider refuses the initiation while CREATED, or a permitted decline comes |
| `CloudPaymentsService.PaymentsService.ApplyProviderTruth` | apps/cloud-api/src/payments/payments.service.ts:508-622 | rows and result equal the transaction function the theorems use, branch by branch |
| `CloudPaymentsService.PaymentsService.Own` | apps/cloud-api/src/payments/payments.service.ts:122-185 | ownership, replay and the three refusals, with nothing written on refusal |
| `CloudPaymentsService.PaymentsService.ApplyInitiationResult` | apps/cloud-api/src/payments/payments.service.ts:416-452 | rows equal the transaction function; nothing once the attempt left CREATED |
| `CloudPaymentsService.PaymentsService.ApplyUnmatchedCallbacks` | apps/cloud-api/src/payments/payments.service.ts:458-506 | the loop over stored callbacks equals applying them one after the other |
| `CloudPaymentsService.PaymentsService.Lookup` | apps/cloud-api/src/payments/payments.service.ts:244-256 | the attempt a callback names, else one with its reference, else none |
| `CloudPaymentsService.PaymentsService.IngestProviderCallback` | apps/cloud-api/src/payments/payments.service.ts:213-266 | duplicate, unmatched, conflict or applied, with the rows of each |
| `CloudPaymentsService.PaymentsService.PromoteStaleCreatedAttempts` | apps/cloud-api/src/payments/payments.service.ts:387-414 | the loop promotes each stale attempt |
| `CloudPaymentsService.PaymentsService.ReconcileDue` | apps/cloud-api/src/payments/payments.service.ts:366-385 | the timer round is promotion followed by one poll per due job |
| `CloudPaymentsService.PaymentsService.ConfirmTerminal` | apps/cloud-api/src/payments/manual-terminal.service.ts:63-191 | confirmation, replay and every refusal, with nothing written on refusal |
| `EdgePayments.EdgePaymentsService.WriteCache` | apps/event-edge/src/payments/payments.service.ts:168-256 | the cached row after any view equals the merge function; identity conflicts write nothing |
| `EdgePayments.EdgePaymentsService.InitiatePayment` | apps/event-edge/src/payments/payments.service.ts:77-129 | CREATED is cached first, then the answer or UNKNOWN without a reference |
| `EdgePayments.EdgePaymentsService.ReconcilePayment` | apps/event-edge/src/payments/payments.service.ts:131-150 | an answer is cached under the known key; a failed call changes nothing |
| `EdgePayments.MergeBacked` | apps/event-edge/src/payments/payments.service.ts:168-256 | merging a Cloud view into a backed row gives a backed row, and their references never clash |
| `EdgePayments.MoveKeeps` | apps/event-edge/src/payments/payments.service.ts:77-256 | every move of Edge or Cloud keeps the Edge backed by the Cloud |
| `EdgePayments.EdgeNeverAhead` | apps/event-edge/src/payments/payments.service.ts:168-256 | with delayed, lost and reordered answers, an Edge SUCCEEDED or FAILED is the Cloud's status and an Edge reference is the Cloud's reference |
| `EdgePayments.NoReferenceConflict` | apps/event-edge/src/payments/payments.service.ts:216-232 | EDGE_PROVIDER_REFERENCE_CONFLICT can never be raised |
| `EdgePayments.EdgeHistory` | apps/event-edge/src/payments/payments.service.ts:168-256 | between any two moments a cached final status and a cached reference never change |
| `EdgePayments.FinalAnswerSettles` | apps/event-edge/src/payments/payments.service.ts:131-150 | one present answer about a final attempt brings the Edge to the Cloud's status, reference and failure code |
| `EdgePayments.ViewTells` | apps/event-edge/src/payments/payments.service.ts:168-256 | a first view is cached as it is unless its key is taken; a later one is taken iff it is about the same attempt, and the row then shows its news iff the status may follow; a known reference and the first device stay |
| `EdgePayments.BeginningTells` | apps/event-edge/src/payments/payments.service.ts:77-129 | a payment begun for the first time shows the answer, or UNKNOWN if none came |
| `PaymentAdjustments.PaymentAdjustmentsService.SumReserved` | apps/cloud-api/src/payments/payment-adjustments.service.ts:193-202 | the summing loop gives the reserved amount over both tables |
| `PaymentAdjustments.PaymentAdjustmentsService.RequestAdjustment` | apps/cloud-api/src/payments/payment-adjustments.service.ts:135-209 | reservation, replay, crash promotion and every refusal, with nothing written on refusal |
| `PaymentAdjustments.PaymentAdjustmentsService.SaveAnswer` | apps/cloud-api/src/payments/payment-adjustments.service.ts:227-232 | only a row still REQUESTED takes the provider's answer |
| `PaymentAdjustments.RewriteReserved` | apps/cloud-api/src/payments/payment-adjustments.service.ts:227-232 | an outcome changes the reserved amount only by becoming FAILED, and then by exactly the row's amount |
| `PaymentAdjustments.InsertReserved` | apps/cloud-api/src/payments/payment-adjustments.service.ts:239-291 | a new row reserves exactly its amount |
| `PaymentAdjustments.ActKeeps` | apps/cloud-api/src/payments/payment-adjustments.service.ts:135-237 | every act of requests, provider calls, late answers and payment steps keeps the books |
| `PaymentAdjustments.NeverOverAdjusted` | apps/cloud-api/src/payments/payment-adjustments.service.ts:193-207 | in every reachable state non-FAILED refunds plus reversals total at most the payment |
| `PaymentAdjustments.AdjustedOnce` | apps/cloud-api/src/payments/payment-adjustments.service.ts:207-226 | no idempotency key of a kind triggers two provider calls |
| `PaymentAdjustments.AgainstSuccess` | apps/cloud-api/src/payments/payment-adjustments.service.ts:174-184 | every adjustment is at all times against a SUCCEEDED attempt of its own payment, by that attempt's reference |
| `PaymentAdjustments.OutcomeIsFinal` | apps/cloud-api/src/payments/payment-adjustments.service.ts:147-166 | a recorded outcome never changes; replays, crashes and late answers included |
| `PaymentAdjustments.ReplayIsIdle` | apps/cloud-api/src/payments/payment-adjustments.service.ts:147-166 | asking again returns the same row, reserves nothing and makes no second owner |
| `PaymentAdjustments.GrantedExactlyWhen` | apps/cloud-api/src/payments/payment-adjustments.service.ts:135-291 | a request with a new key is granted iff payment, currency and a successful referenced attempt of a supporting provider exist, the id is free, and reserved plus amount is at most the payment; the row then carries that request, provider and reference |
| `PaymentAdjustments.FullRefundGranted` | apps/cloud-api/src/payments/payment-adjustments.service.ts:193-207 | a payment without standing adjustments can be refunded in full, and no further |
| `PaymentAdjustments.ReplayTells` | apps/cloud-api/src/payments/payment-adjustments.service.ts:147-166 | a used key gives back its row to the same request and refuses any other; only a row that waited too long changes |
| `PaymentAdjustments.AnswerTaken` | apps/cloud-api/src/payments/payment-adjustments.service.ts:227-232 | a waiting row takes exactly the provider's status, reference and failure; every other row stays |
| `InventoryDomain.LeavingIsFinal` | packages/domain/src/inventory.ts:66-83 | a transfer in transit can only be received; stock leaves only from PICKING |
| `InventoryLedger.InsertKeeps` | apps/event-edge/src/inventory/inventory-ledger.service.ts:144-195 | an insert appends exactly the new row or finds the same movement, and keeps ids, keys and reversal targets unique |
| `InventoryLedger.ManualKeeps` | apps/event-edge/src/inventory/inventory-ledger.service.ts:69-132 | a manual movement is never of a dedicated kind, appends at most its own row, and keeps the reversal rules |
| `InventoryLedger.OnHandIsStanding` | apps/event-edge/src/inventory/inventory-ledger.service.ts:92-128 | on-hand is the sum over movements that are neither reversals nor reversed |
| `InventoryLedger.InsertFresh` | apps/event-edge/src/inventory/inventory-ledger.service.ts:144-195 | an insert that succeeds for a movement not yet there appends it once, whatever else holds a colliding key |
| `InventoryLedger.BatchAppends` | apps/event-edge/src/inventory/inventory-ledger.service.ts:144-195 | a batch that goes through appends each of its rows once, in order |
| `InventoryLedger.BatchReplays` | apps/event-edge/src/inventory/inventory-ledger.service.ts:176-195 | a batch whose rows are all there changes nothing or fails |
| `InventoryLedger.InsertAllExactly` | apps/event-edge/src/inventory/inventory-ledger.service.ts:144-195 | a transaction goes through iff every delta is valid, every key is free or holds this very movement, and no two of its rows want one key for different movements; each missing row is then appended once, in order |
| `InventoryLedger.InsertsExactlyWhen` | apps/event-edge/src/inventory/inventory-ledger.service.ts:144-195 | a row goes in iff its amount fits its kind and id, key and reversal target are free; it is found iff the row with its key, or else its id, is this very movement; all else is refused |
| `InventoryLedger.ReversesExactlyWhen` | apps/event-edge/src/inventory/inventory-ledger.service.ts:92-128 | a reversal goes through iff it names a standing movement of its place and negates it, and either nobody has reversed that and id and key are free, or this reversal is there |
| `InventoryLedger.PostsExactlyWhen` | apps/event-edge/src/inventory/inventory-ledger.service.ts:69-132 | any other movement by hand goes through iff its kind is not a dedicated one, it reverses nothing, its sign fits, and it is new or there already |
| `InventoryLedger.ManualMoves` | apps/event-edge/src/inventory/inventory-ledger.service.ts:69-132 | a movement by hand says who, when and why, and changes only its own place, by its own amount |
| `StockTransfers.ReceiptKeyInjective` | apps/event-edge/src/inventory/inventory-transfer.service.ts:302 | within one transfer and SKU the receipt key can be read back from the row key |
| `StockTransfers.KeysCollide` | apps/event-edge/src/inventory/inventory-transfer.service.ts:194 | across transfers composed keys do collide, because ids and SKUs may contain a colon |
| `StockTransferProofs.DispatchAppends` | apps/event-edge/src/inventory/inventory-transfer.service.ts:141-222 | a dispatch that commits has written each of its rows exactly once |
| `StockTransferProofs.DispatchEffect` | apps/event-edge/src/inventory/inventory-transfer.service.ts:141-222 | the source gives up exactly the requested quantities and stays at or above zero; no other stock changes |
| `StockTransferProofs.ReceiveAppends` | apps/event-edge/src/inventory/inventory-transfer.service.ts:224-339 | a receipt that commits is a replay that changes nothing or has written each of its rows exactly once |
| `StockTransferProofs.ReceiveEffect` | apps/event-edge/src/inventory/inventory-transfer.service.ts:224-339 | the destination gains exactly the received quantities; no other stock changes |
| `StockTransferProofs.CreateKeeps` | apps/event-edge/src/inventory/inventory-transfer.service.ts:53-124 | creating or replaying a transfer keeps the books balanced |
| `StockTransferProofs.MoveKeeps` | apps/event-edge/src/inventory/inventory-transfer.service.ts:375-413 | assigning, picking and cancelling move no stock |
| `StockTransferProofs.DispatchKeeps` | apps/event-edge/src/inventory/inventory-transfer.service.ts:141-222 | dispatch keeps line quantities, ledger sums and conservation |
| `StockTransferProofs.ReceiveKeeps` | apps/event-edge/src/inventory/inventory-transfer.service.ts:224-339 | receipt keeps 0 ≤ received ≤ dispatched, ledger sums and conservation |
| `TransferWorkflow.CreateCommitsExactlyWhen` | apps/event-edge/src/inventory/inventory-transfer.service.ts:53-124 | a transfer is created iff id and key are new, SKUs distinct, quantities positive and places different; it then says exactly what was asked for; the same request again changes nothing, and all else is refused |
| `TransferWorkflow.AssignsExactlyWhen` | apps/event-edge/src/inventory/inventory-transfer.service.ts:126-130 | a transfer can be assigned iff it is requested and somebody is named |
| `TransferWorkflow.PicksExactlyWhen` | apps/event-edge/src/inventory/inventory-transfer.service.ts:132-134 | picking can start iff the transfer is assigned |
| `TransferWorkflow.CancelsExactlyWhen` | apps/event-edge/src/inventory/inventory-transfer.service.ts:136-139 | a transfer can be cancelled, for a reason, iff nothing has left |
| `TransferWorkflow.ArrivedSays` | apps/event-edge/src/inventory/inventory-transfer.service.ts:304-331 | a receipt adds what it names, and the transfer is received iff nothing is outstanding |
| `TransferWorkflow.TransferMovesRequested` | apps/event-edge/src/inventory/inventory-transfer.service.ts:53-339 | asked for, assigned, picked, dispatched and received in full, a transfer moves exactly the requested quantities from the requested source to the requested destination, and no other stock |
| `StockCounts.CloseAppends` | apps/event-edge/src/inventory/inventory-count.service.ts:96-143 | closing writes at most one adjustment per line and leaves on-hand as counted |
| `StockCounts.CloseEffect` | apps/event-edge/src/inventory/inventory-count.service.ts:96-155 | on-hand equals the counted figure for every line, no other stock changes, and closing again changes nothing |
| `CountWorkflow.OpensExactlyWhen` | apps/event-edge/src/inventory/inventory-count.service.ts:50-94 | a count is opened iff its id is new, SKUs are distinct and figures not negative, and then says what was counted; the same again changes nothing, and all else is refused |
| `CountWorkflow.ClosingRecords` | apps/event-edge/src/inventory/inventory-count.service.ts:96-155 | a closed count says who, when and why; each line keeps its figure, records what the ledger said and names its adjustment iff there was a difference |
| `SaleConsumption.MovementsAreSums` | apps/event-edge/src/inventory/inventory-sale-consumer.service.ts:108-148 | an event takes stock iff every line is configured, and per movement the total is Σ quantity × recipe quantity |
| `SaleConsumption.OrderOfLines` | apps/event-edge/src/inventory/inventory-sale-consumer.service.ts:108-148 | the order of the lines does not matter |
| `SaleConsumption.UnconfiguredPostsNothing` | apps/event-edge/src/inventory/inventory-sale-consumer.service.ts:58-148 | an event posts nothing exactly when its payload, its mapping or one of its SKUs is not usable |
| `SaleConsumption.InstallIsLocal` | apps/event-edge/src/inventory/inventory-configuration.service.ts:45-76 | installing a configuration leaves what sales of other events take alone, and installing it again changes nothing |
| `SaleStock.InstallSets` | apps/event-edge/src/inventory/inventory-configuration.service.ts:10-76 | a configuration is installed iff windows and weight are in range; its event then has exactly its mappings and recipes, and its SKUs besides the old ones |
| `SaleStock.ProblemTells` | apps/event-edge/src/inventory/inventory-sale-consumer.service.ts:58-148 | the exception of an event names the first thing wrong: payload, mapping, or the first unusable line |
| `SaleStock.SaleTakes` | apps/event-edge/src/inventory/inventory-sale-consumer.service.ts:58-176 | a first application takes, at the location its sales location is mapped to, exactly the units its lines and recipes need, and no other stock; every new row names order, event and device |
| `InventoryRuns.OpKeeps` | apps/event-edge/src/inventory/inventory-transfer.service.ts:53-339 | every operation, failed ones rolled back and new configurations included, keeps ledger, transfers, counts and sales consistent |
| `InventoryRuns.OverLocations` | apps/event-edge/src/inventory/inventory-ledger.service.ts:225-238 | on-hand summed over all locations is the sum of all movements of the SKU |
| `InventoryRuns.StockIsConserved` | apps/event-edge/src/inventory/inventory-transfer.service.ts:141-339 | in every run Σ on-hand + Σ (dispatched − received) = Σ non-transfer movements, per SKU |
| `InventoryRuns.LinesMatchLedger` | apps/event-edge/src/inventory/inventory-transfer.service.ts:141-339 | each line keeps 0 ≤ received ≤ dispatched ∈ {0, requested}, tied to the transfer state and to the TRANSFER_OUT and TRANSFER_IN sums |
| `InventoryRuns.ReversedMovementsVanish` | apps/event-edge/src/inventory/inventory-ledger.service.ts:92-128 | in every run on-hand counts exactly the movements neither reversals nor reversed |
| `InventoryRuns.ConsumeCommitsExactlyWhen` | apps/event-edge/src/inventory/inventory-sale-consumer.service.ts:150-175 | in a reachable state an event commits iff each of its movements has its key free or is already there; it then appends exactly the missing ones, each once |
| `InventoryRuns.SalesPostedOnce` | apps/event-edge/src/inventory/inventory-sale-consumer.service.ts:58-176 | in every run, whatever is installed or redelivered: each movement some commit of an event needed is in the ledger exactly once, as −Σ quantity × recipe quantity under that commit's configuration, and nothing else is |
| `InventoryRuns.RepeatIsHarmlessExactlyWhen` | apps/event-edge/src/inventory/inventory-sale-consumer.service.ts:86-175 | a delivery changes nothing iff the event is not usable or each of its present movements is one an earlier commit under its id wrote |
| `InventoryRuns.RepeatTakesTwice` | apps/event-edge/src/inventory/inventory-sale-consumer.service.ts:86-175 | a concrete run: one beer is sold, beer gets a recipe, the same event is delivered again, and the ledger gives up both the beer and what its recipe needs |
| `InventoryRuns.DispatchWritesOnce` | apps/event-edge/src/inventory/inventory-transfer.service.ts:141-222 | in a reachable state a dispatch commits iff the transfer is picked, the request names each line with a quantity that is on hand, and no row holds one of its keys; it then appends exactly its rows |
| `InventoryRuns.ReceiveWritesOnce` | apps/event-edge/src/inventory/inventory-transfer.service.ts:224-339 | a new receipt commits iff the transfer is under way, what arrives is positive and outstanding, and no row holds one of its keys; a recorded key commits iff it repeats the recorded receipt, and then changes nothing |
| `InventoryRuns.CountClosesExactlyWhen` | apps/event-edge/src/inventory/inventory-count.service.ts:96-155 | in a reachable state an open count closes iff no line whose counted figure differs from on-hand finds its key in the ledger, where any movement may have put it; a closed one stays closed |
| `InventoryServices.InventoryService.PostManualMovement` | apps/event-edge/src/inventory/inventory-ledger.service.ts:69-132 | row, replay or refusal for every manual movement and reversal |
| `InventoryServices.InventoryService.InsertRows` | apps/event-edge/src/inventory/inventory-ledger.service.ts:144-195 | all rows of a transaction or none |
| `InventoryServices.InventoryService.CreateTransfer` | apps/event-edge/src/inventory/inventory-transfer.service.ts:53-124 | creation, replay and every refusal |
| `InventoryServices.InventoryService.RefuseDispatch` | apps/event-edge/src/inventory/inventory-transfer.service.ts:163-179 | the first reason, line by line, why a dispatch is refused |
| `InventoryServices.InventoryService.MarkDispatched` | apps/event-edge/src/inventory/inventory-transfer.service.ts:196-208 | every line dispatched as requested, transfer in transit |
| `InventoryServices.InventoryService.DispatchTransfer` | apps/event-edge/src/inventory/inventory-transfer.service.ts:141-222 | the dispatch transaction, all or nothing |
| `InventoryServices.InventoryService.RefuseReceipt` | apps/event-edge/src/inventory/inventory-transfer.service.ts:262-274 | the first reason why a receipt is refused |
| `InventoryServices.InventoryService.MarkReceived` | apps/event-edge/src/inventory/inventory-transfer.service.ts:304-331 | received quantities added, transfer received once all lines are complete |
| `InventoryServices.InventoryService.ReceiveTransfer` | apps/event-edge/src/inventory/inventory-transfer.service.ts:224-339 | the receipt transaction, all or nothing |
| `InventoryServices.InventoryService.OpenStockCount` | apps/event-edge/src/inventory/inventory-count.service.ts:50-94 | opening, replay and refusals of a count |
| `InventoryServices.InventoryService.CloseStockCount` | apps/event-edge/src/inventory/inventory-count.service.ts:96-155 | the closing transaction, all or nothing |
| `InventoryServices.InventoryService.CollectComponents` | apps/event-edge/src/inventory/inventory-sale-consumer.service.ts:128-147 | the inner loop over recipe components |
| `InventoryServices.InventoryService.CollectMovements` | apps/event-edge/src/inventory/inventory-sale-consumer.service.ts:108-148 | the accumulating loop equals the movement function |
| `InventoryServices.InventoryService.ConsumeSale` | apps/event-edge/src/inventory/inventory-sale-consumer.service.ts:58-176 | ledger, outcome and exception of one event |
| `InventoryServices.InventoryService.ConsumeSales` | apps/event-edge/src/inventory/inventory-sale-consumer.service.ts:48-56 | the loop over the events of a request: each commits by itself, the first failure ends it |
| `InventoryServices.InventoryService.ReconcilePendingSales` | apps/event-edge/src/inventory/inventory-operations-loop.service.ts:74-103 | the loop of the timer: each pending sale by itself, a failure passed over |
| `DeviceSync.DeviceSyncService.SequencesAbove` | apps/event-edge/src/sync/device-sync.service.ts:198-203 | the stored sequences above the watermark, ascending and complete |
| `DeviceSync.DeviceSyncService.AdvanceWatermark` | apps/event-edge/src/sync/device-sync.service.ts:192-210 | the loop stops at the end of the unbroken stretch |
| `DeviceSync.DeviceSyncService.LowestUnresolved` | apps/event-edge/src/sync/device-sync.service.ts:79-90 | the lowest sequence with an unresolved blocking exception |
| `DeviceSync.DeviceSyncService.PersistBatch` | apps/event-edge/src/sync/device-sync.service.ts:63-68 | one receipt per event, and the highest sequence |
| `DeviceSync.DeviceSyncService.IngestBatch` | apps/event-edge/src/sync/device-sync.service.ts:63-118 | tables, receipts and acknowledged sequence of an ingest |
| `DeviceSync.PersistKeeps` | apps/event-edge/src/sync/device-sync.service.ts:120-190 | stored events keep unique instance and (device, sequence), each with its outbox row |
| `DeviceSync.AcceptedIsExact` | apps/event-edge/src/sync/device-sync.service.ts:63-118 | after every ingest acceptedThroughSequence = min(gap-free durable prefix, lowest unresolved blocking sequence − 1) |
| `DeviceSync.AcceptedIsDurable` | apps/event-edge/src/sync/device-sync.service.ts:120-190 | every acknowledged sequence is stored and queued for the Cloud with the same content |
| `DeviceSync.WatermarkGoesBackExactlyWhen` | apps/event-edge/src/sync/device-sync.service.ts:79-96 | between calls everything acknowledged is below every unresolved conflict, so the acknowledgement drops iff the batch brings, at or below it, an event that is not the stored one |
| `DeviceSync.WatermarkCanGoBack` | apps/event-edge/src/sync/device-sync.service.ts:79-96 | two concrete batches from an empty Edge, the second of which lowers the acknowledgement |
| `DeviceSync.ReceiptsTell` | apps/event-edge/src/sync/device-sync.service.ts:120-190 | a receipt is CONFLICT iff the event is not what ends up stored under its instance id |
| `DeviceSync.AcceptedExactlyWhen` | apps/event-edge/src/sync/device-sync.service.ts:120-146 | an event of a batch is accepted iff its id and slot are free in the tables and no earlier accepted event of the batch takes either; the table then holds what it held and the accepted events |
| `DeviceSync.PassedOnIsStoredExactlyWhen` | apps/event-edge/src/sync/device-sync.controller.ts:33-41 | for each Edge and batch: what goes on to inventory is the stored content iff no two different events of the batch share an id of which one is stored before or accepted |
| `DeviceSync.EveryEdgePassesOnStoredExactlyWhen` | apps/event-edge/src/sync/device-sync.controller.ts:33-41 | for a batch alone: every Edge passes on only stored content iff no two different events of the batch share an instance id |
| `DeviceConflicts.ReceiptTells` | apps/event-edge/src/sync/device-sync.service.ts:120-190 | an event is stored and queued iff id and slot are free, a duplicate iff it is the stored one, and otherwise adds one exception that says which was used |
| `DeviceConflicts.ConflictsRaised` | apps/event-edge/src/sync/device-sync.service.ts:120-190 | a batch adds one unresolved exception per conflicting event, in order, and no other |
| `DeviceConflicts.HighestSeen` | apps/event-edge/src/sync/device-sync.service.ts:63-118 | the highest sequence of a device is the largest ever seen, stored or not |
| `SaleForwarding.AllPostedExactlyWhen` | apps/event-edge/src/inventory/inventory-sale-consumer.service.ts:48-56 | a request is consumed to its end iff every key it needs is free or holds this very movement and no two of its movements clash; every usable sale of it is then posted |
| `SaleForwarding.TwoUnderOneInstance` | apps/event-edge/src/inventory/inventory-sale-consumer.service.ts:150-175 | two usable events under one instance id, whose keys are free or hold the very movement, are both posted iff they agree on every movement both need; otherwise the first is posted and the second fails |
| `SaleForwarding.PassedOnIsPostedExactlyWhen` | apps/event-edge/src/sync/device-sync.controller.ts:33-41 | every sale of a device batch that is passed on, refused ones included, is posted or unusable iff none of their movements clash with each other or with the ledger |
| `SaleForwarding.RetryStopsAtTheSamePlace` | apps/event-edge/src/inventory/inventory-sale-consumer.service.ts:48-56 | sending a request again under the same configuration changes nothing and stops at the same event, whatever was posted since: sending the request again never gets past it |
| `SaleForwarding.RefusedSaleIsPosted` | apps/event-edge/src/sync/device-sync.controller.ts:33-41 | a concrete batch of two closed cash orders: one beer is accepted, ten bottles of wine are refused as a conflict, and the ledger gives up the wine |
| `SaleInbox.StepKeeps` | apps/event-edge/src/inventory/inventory-operations-loop.service.ts:74-103 | requests, timer rounds and stock operations, interleaved and stopped anywhere, keep Edge, ledger and inbox consistent |
| `SaleInbox.RowTells` | apps/event-edge/migrations/0007_inventory_sale_inbox.sql:1-35 | in every run the inbox holds exactly the stored cash sales; a row is pending iff nothing under its id was consumed, else it says how the last event under its id ended; what was applied is in the ledger |
| `SaleInbox.MarkedStays` | apps/event-edge/src/inventory/inventory-operations-loop.service.ts:75-82 | a processed row stays processed in every continuation, so the timer never takes it |
| `SaleInbox.TimerSettlesExactlyWhen` | apps/event-edge/src/inventory/inventory-operations-loop.service.ts:84-101 | a pending row that the timer takes ends excepted iff its sale is not usable, posted iff all its movements fit, and otherwise stays pending with nothing changed |
| `SaleInbox.CleanRunsLoseNothing` | apps/event-edge/src/inventory/inventory-sale-consumer.service.ts:58-176 | if no batch brings two different sales under one id, every accepted sale is pending, posted, or excepted for a reason of its own |
| `SaleInbox.BatchLosesNothingExactlyWhen` | apps/event-edge/src/sync/device-sync.controller.ts:33-41 | for a batch alone: no run whose other batches keep to one sale per id marks a row without consuming its sale, iff this batch keeps to it too |
| `SaleFate.AcceptedSaleFate` | apps/event-edge/src/inventory/inventory-sale-consumer.service.ts:48-176 | for a request worked off from any reachable state, read off ledger and request: the accepted sale stays pending iff no event under its id is reached, is consumed iff it is reached itself, and is lost otherwise |
| `SaleFate.AcceptedSaleLost` | apps/event-edge/src/inventory/inventory-sale-consumer.service.ts:224-235 | a concrete run: ten bottles refused under an id are posted and mark its row APPLIED, the accepted bottle clashes and is never posted, and no continuation makes its row pending again |
| `CloudSync.CloudSyncService.Ingest` | apps/cloud-api/src/sync/cloud-sync.service.ts:131-177 | the loop over a batch and the three id lists of the acknowledgement |
| `Relay.CloudForwarder.RetryRows` | apps/event-edge/src/sync/cloud-forwarder.service.ts:126-139 | undelivered rows of the batch count one more attempt |
| `Relay.CloudForwarder.RecordConflicts` | apps/event-edge/src/sync/cloud-forwarder.service.ts:102-115 | one exception per refused event |
| `Relay.CloudForwarder.DrainOnce` | apps/event-edge/src/sync/cloud-forwarder.service.ts:66-141 | rows are marked only for an acknowledgement that covers exactly the sent batch |
| `Relay.CloudForwarder.Tick` | apps/event-edge/src/sync/cloud-forwarder.service.ts:150-163 | a tick during another drain changes nothing |
| `Relay.ExactCover` | apps/event-edge/src/sync/cloud-forwarder.service.ts:86-93 | containment and equal size is equality, which makes the forwarder's test exact |
| `Relay.AckCovers` | apps/cloud-api/src/sync/cloud-sync.service.ts:131-177 | a Cloud acknowledgement names every event of its batch and nothing else |
| `Relay.ProcessStored` | apps/cloud-api/src/sync/cloud-sync.service.ts:186-250 | an event of this Edge is taken by its Cloud and never meets instance or sequence reuse |
| `Relay.StepKeeps` | apps/event-edge/src/sync/cloud-forwarder.service.ts:66-141 | lost, repeated and late batches and acknowledgements, and a crash between send and mark, keep Edge and Cloud consistent |
| `Relay.NothingLost` | apps/event-edge/src/sync/cloud-forwarder.service.ts:66-141 | events and outbox rows correspond one to one, and a delivered row is at the Cloud with the same envelope |
| `Relay.NoReuseAtCloud` | apps/cloud-api/src/sync/cloud-sync.service.ts:186-222 | the Cloud never reports instance or sequence reuse |
| `Relay.DrainedMeansEqual` | apps/event-edge/src/sync/cloud-forwarder.service.ts:143-148 | with nothing undelivered Edge and Cloud have processed the same events |
| `Relay.RoundTripDelivers` | apps/event-edge/src/sync/cloud-forwarder.service.ts:66-123 | sending rows and getting the answer back delivers exactly those rows |
| `CloudAcknowledgement.OutcomeTells` | apps/cloud-api/src/sync/cloud-sync.service.ts:186-386 | an event is a CONFLICT iff there is a stated reason to refuse it, and then adds one exception with that reason; a DUPLICATE iff the same envelope was processed before; otherwise ACCEPTED, without an exception |
| `CloudAcknowledgement.AcceptedShows` | apps/cloud-api/src/sync/cloud-sync.service.ts:252-386 | an accepted order event shows in its order iff it is the first or the newest, and in no other order |
| `CloudAcknowledgement.AckTells` | apps/cloud-api/src/sync/cloud-sync.service.ts:131-177 | for a batch of distinct events, an id is among the conflicts iff the Cloud refused it, among the duplicates iff it had it before, and among the accepted otherwise |
| `CloudAcknowledgement.ConflictsAreExceptions` | apps/cloud-api/src/sync/cloud-sync.service.ts:131-177 | whatever the batch, its conflicts are the exceptions it added, one for one and in order |
| `CloudAcknowledgement.RoundTripRaises` | apps/event-edge/src/sync/cloud-forwarder.service.ts:86-123 | sending rows and getting the answer back raises one CLOUD_RECONCILIATION_REQUIRED for each event the Cloud refused, with its device, sequence and id, and none for any other |
| `CloudAcknowledgement.MarkTells` | apps/event-edge/src/sync/cloud-forwarder.service.ts:82-141 | a row is marked delivered iff the answer covers exactly its batch; any other answer counts one failed try |
| `OrderProjection.OrdersOnlyGoForward` | apps/cloud-api/src/sync/cloud-sync.service.ts:252-386 | with no assumption: CLOSED never reopens, last_sequence never drops, device and event are fixed, location, close method and cashier are write-once |
| `OrderProjection.EndsWithHighest` | apps/cloud-api/src/sync/cloud-sync.service.ts:252-386 | consistent events of one order, permuted and repeated: none is refused and the order shows the highest sequence delivered |
| `OrderProjection.NewestShownExactlyWhen` | apps/cloud-api/src/sync/cloud-sync.service.ts:252-386 | the order ends with the newest event's device, sequence, state, totals, time and close method in every delivery order iff no event contradicts the newest one |
| `OrderProjection.DeliveryOrderIrrelevant` | apps/cloud-api/src/sync/cloud-sync.service.ts:252-386 | two deliveries of the same events agree on all but the fill-in columns |
| `OrderProjection.FillInsAgreeExactlyWhen` | apps/cloud-api/src/sync/cloud-sync.service.ts:356-385 | location, cashier and lines are the same for every delivery order iff the highest event carries them or none does |
| `OrderDelivery.EventProjects` | apps/cloud-api/src/sync/cloud-sync.service.ts:186-250 | every processed event joins the projection of its own order and of no other |
| `OrderDelivery.DrainedOrderIsCurrent` | apps/event-edge/src/sync/cloud-forwarder.service.ts:66-141 | once the outbox has drained, the Cloud's order shows the newest event the Edge holds for it, whatever was lost, repeated or reordered on the way, if no event of the order contradicts the newest; fill-in columns too if all are consistent |
| `OrderDelivery.DrainedOrderIsCurrentExactlyWhen` | apps/event-edge/src/sync/cloud-forwarder.service.ts:66-141 | read off the stored events: every run that drains them shows the newest event of the order iff none contradicts it |
| `OrderDelivery.AcknowledgedIsExact` | apps/event-edge/src/sync/device-sync.service.ts:63-118 | in every run an ingest acknowledges exactly min(gap-free prefix, lowest unresolved conflict − 1), and everything it acknowledges is stored and queued |
| `OrderDelivery.AcknowledgementDropsExactlyWhen` | apps/event-edge/src/sync/device-sync.service.ts:63-118 | in every run, a batch lowers the acknowledgement iff it brings, at or below it, an event that is not the stored one |
| `MenuText.DigitsRoundTrip` | apps/event-edge/src/pos-menu/pos-menu.validation.ts:38-40 | a decimal length can be read back |
| `MenuText.FirstField` | apps/event-edge/src/pos-menu/pos-menu.validation.ts:38-40 | the first field of a serialisation can be read off: its length, its units and the rest |
| `MenuText.FieldsInjective` | apps/event-edge/src/pos-menu/pos-menu.validation.ts:38-40 | no two lists of length-prefixed fields serialise alike |
| `MenuText.LessTotal` | apps/event-edge/src/pos-menu/pos-menu.validation.ts:53-57 | comparison by code unit is a total order |
| `MenuText.TrimFixes` | apps/event-edge/src/pos-menu/pos-menu.validation.ts:11-16 | trimming changes nothing iff there is no space at either end |
| `MenuText.HexInjective` | apps/event-edge/src/pos-menu/pos-menu.validation.ts:50 | eight hexadecimal digits determine the checksum value |
| `Crc32.AbsorbByte` | apps/event-edge/src/pos-menu/pos-menu.validation.ts:44-49 | the inner loop is eight rounds |
| `Crc32.Compute` | apps/event-edge/src/pos-menu/pos-menu.validation.ts:42-51 | the nested loops compute the checksum function |
| `Crc32.FourBytes` | apps/event-edge/src/pos-menu/pos-menu.validation.ts:42-51 | four bytes enter the state as one 32-bit word |
| `Crc32.BurstDetected` | apps/event-edge/src/pos-menu/pos-menu.validation.ts:42-51 | equal-length strings that differ only within four consecutive bytes have different CRCs |
| `Crc32.ByteChangeDetected` | apps/event-edge/src/pos-menu/pos-menu.validation.ts:42-51 | a change of exactly one byte always changes the CRC |
| `Crc32.CheckValue` | apps/event-edge/src/pos-menu/pos-menu.validation.ts:42-51 | the CRC of the nine digits 123456789 is CBF43926 |
| `PosMenu.AppendHeader` | apps/event-edge/src/pos-menu/pos-menu.validation.ts:62-68 | the six header fields in their order |
| `PosMenu.AppendItem` | apps/event-edge/src/pos-menu/pos-menu.validation.ts:70-77 | the seven fields of an item in their order |
| `PosMenu.SortItems` | apps/event-edge/src/pos-menu/pos-menu.validation.ts:69 | the items in the order of a stable sort by id |
| `PosMenu.ComputeChecksum` | apps/event-edge/src/pos-menu/pos-menu.validation.ts:59-79 | the loop over parts computes the checksum function |
| `PosMenu.FindDuplicate` | apps/event-edge/src/pos-menu/pos-menu.validation.ts:104-116 | the first duplicate item id or SKU id |
| `PosMenu.ParseItems` | apps/event-edge/src/pos-menu/pos-menu.validation.ts:81-92 | every item cleaned, or the first problem |
| `PosMenu.ParsePosMenuSnapshot` | apps/event-edge/src/pos-menu/pos-menu.validation.ts:94-137 | the accepted snapshot or the first refusal |
| `PosMenu.CanonicalUpToOrder` | apps/event-edge/src/pos-menu/pos-menu.validation.ts:59-79 | menus with distinct item ids serialise alike iff they differ only in the order of items |
| `PosMenu.CleaningShows` | apps/event-edge/src/pos-menu/pos-menu.validation.ts:117-131 | normalising a menu changes nothing or changes its canonical text |
| `PosMenu.EdgeAcceptsExactlyWhen` | apps/cloud-api/src/sync/pos-menu-publication.service.ts:87-107 | the Edge accepts what the Cloud publishes iff the menu is acceptable and needs no trimming, short of a CRC collision of two different texts |
| `PosMenu.TrimmedMenuInstalls` | apps/cloud-api/src/sync/pos-menu-publication.service.ts:281-315 | a menu of trimmed texts is installed exactly as published |
| `PosMenu.CorruptionShows` | apps/event-edge/src/pos-menu/pos-menu.validation.ts:59-79 | corrupting up to four neighbouring bytes of the canonical text changes the checksum |
| `MenuAcceptance.TrimTakesSpaces` | apps/event-edge/src/pos-menu/pos-menu.validation.ts:11-16 | trimming takes away all spaces at the two ends and nothing else |
| `MenuAcceptance.HexRoundTrip` | apps/event-edge/src/pos-menu/pos-menu.validation.ts:50 | hexadecimal digits of the full width can be read back |
| `MenuAcceptance.AcceptableIsInstallable` | apps/event-edge/src/pos-menu/pos-menu.validation.ts:81-131 | what a menu has to say to be acceptable, read off its texts, numbers and items |
| `MenuAcceptance.CleanMenuInstallsExactlyWhen` | apps/cloud-api/src/sync/pos-menu-publication.service.ts:87-107 | a menu without spaces at the ends of its texts is installed, as published, iff it says what it has to |
| `MenuAcceptance.ChecksumReads` | apps/event-edge/src/pos-menu/pos-menu.validation.ts:42-79 | the checksum is the CRC of the canonical text in eight digits that can be read back |
| `AbuseProtection.AbuseProtectionService.TouchBucket` | apps/cloud-api/src/security/abuse-protection.service.ts:158-166 | the eviction loop and the reinsertion at the end of the order |
| `AbuseProtection.AbuseProtectionService.ConsumeToken` | apps/cloud-api/src/security/abuse-protection.service.ts:104-135 | decision and table of one request |
| `AbuseProtection.RetryAfterIsRight` | apps/cloud-api/src/security/abuse-protection.service.ts:114-124 | waiting retryAfterSeconds guarantees admission, and no shorter whole number of seconds of at least one does |
| `AbuseProtection.WindowBound` | apps/cloud-api/src/security/abuse-protection.service.ts:104-135 | while the clock does not go back, admissions of one client in any window are at most burst + rate × length, whatever its bucket held |
| `AbuseProtection.AllAdmittedExactlyWhen` | apps/cloud-api/src/security/abuse-protection.service.ts:104-135 | every call of a new client is admitted iff no stretch of its calls is longer than the burst plus what is refilled from its first to its last call |
| `AbuseProtection.RemainingIsRight` | apps/cloud-api/src/security/abuse-protection.service.ts:104-135 | an admitted client that is told n remaining can call n times more at that moment, and not once more |
| `AbuseProtection.TouchKeeps` | apps/cloud-api/src/security/abuse-protection.service.ts:158-166 | a touch costs at most the least recently used bucket, and only for a new key in a full table |
| `AbuseProtection.NeverTooManyBuckets` | apps/cloud-api/src/security/abuse-protection.service.ts:158-166 | there are never more than maxBuckets buckets |
| `AbuseProtection.ClientIsAlone` | apps/cloud-api/src/security/abuse-protection.service.ts:104-166 | while fewer than maxBuckets other clients call after its last call, a client is treated as if its bucket were never evicted |
| `AbuseProtection.ClientStarts` | apps/cloud-api/src/security/abuse-protection.service.ts:104-166 | wherever its bucket stands, a client's calls are treated as those of a client that starts with its bucket or afresh |
| `AbuseProtection.ClientWindowBound` | apps/cloud-api/src/security/abuse-protection.service.ts:104-166 | on the running service, whatever was called before: at most burst + rate × length admissions of one client in a window in which fewer than maxBuckets others call |
| `AbuseProtection.BucketSurvivesExactlyWhen` | apps/cloud-api/src/security/abuse-protection.service.ts:158-166 | after its own call a client keeps its bucket through the calls of others iff fewer than maxBuckets of them call |
| `AbuseProtection.CrowdBreaksBound` | apps/cloud-api/src/security/abuse-protection.service.ts:104-166 | for every configuration, a concrete window of length zero in which maxBuckets others call and one client is admitted more than burst times |
| `AbuseProtection.InFlightBounded` | apps/cloud-api/src/security/abuse-protection.service.ts:137-148 | in-flight requests never exceed the limit, entering succeeds iff below it, and leaving undoes entering |

## Left out

- Simulator figures that do not feed back into its state: latencies, percentiles, dashboard lag, dependency
  errors, notification outages, and the release assertions LOCAL_INTERACTION_P95 and LOCAL_COMMIT_P95.
- The random generator's bit mixing: its numbers are an arbitrary stream in [0, 1).
- Floating-point rounding: weights, accumulators and rates are real numbers, bucket tokens are exact
  sixty-thousandths.
- The spelling of the simulator's string keys and ids, which are constructors here.
- Time in payments: promotion after 60 seconds may happen at any moment, and retry delays are not modelled.
- Payment audit events, provider health figures and order listings.
- Empty strings in provider callbacks, which the source treats as absent in one place and as a value in another.
- Authorisation, permissions, device rosters, tenancy and the identity checks on an Edge at the Cloud: one
  Edge talks to its own Cloud.
- Foreign keys to locations, SKUs and events, which only turn a commit into a rollback.
- Advisory locks and isolation levels: a transaction is one step.
- The inventory outbox and the Cloud's inventory projections, which repeat the pattern of order sync.
- Parsing of sale and order payloads: an envelope carries its parsed payload, or none if it does not parse.
- Stock alerts, velocity, cover and replenishment figures.
- Collation: the sort order of SKUs in a replayed transfer or count creation is taken to agree between
  PostgreSQL and JavaScript; elsewhere any order of rows is allowed.
- Device status rows sent with a batch, and `lastRosterSyncAt`.
- Retry delays of the forwarder: a failed row may be sent again at any time.
- PosMenu.Parse: type checks of JSON values are not modelled, and upper- and lower-casing are arbitrary
  functions that leave capitals and lower-case hexadecimal digits alone.
- InventoryLedger.PostManual: an id that a caller chooses never equals one the service generated; a manual
  movement that reuses a generated id is inserted here and refused by the source.
- The rest of a configuration install (locations, alert and responsibility rows, the venue's end), and the
  deletes and inserts it consists of: Install is one function on mappings, recipes and SKUs.
- Retry delays and the row limit of the sale inbox's timer: it may take any pending row at any time.
- Trimming and lower-casing of provider ids, which are compared as they are.
- A repeated receipt is compared by its amounts per SKU, actor and time, not by its JSON text.
- Relay.CloudForwarder.DrainOnce: any rows may be sent; which rows are due, their order and the limit are not modelled.
- Publishing a menu per location, versions and install receipts.
- Environment parsing of the rate limits: the ranges it enforces are `Limits.Valid`.
