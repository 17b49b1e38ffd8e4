# Parcel delivery core

A model of the core of a parcel delivery backend, and proofs about it. Parcels are
booked and paid for, dropped off at an origin Node, carried by a courier (a rider from
the in-house pool or an external company) to a destination Node, and collected; or
brought back and collected by their sender.

The tables are one value (`Model.State`), and each committed transaction is one step
(`Runs.Next`). What a transaction does is a function of the tables (modules `Capacity`,
`Orders`, `DeliveryDispatch`, `Progress`, `DeliveryEvents`, `Handoffs`, `Payments`). The
services that do it statement by statement are classes over a `Database` whose tables
they update in place (the modules named `…Services`), each method proved against that
function: same outcome, same tables, and the same rollback when it throws. What the
system promises is then proved about the functions, for every run of any transactions in
any order with any inputs, provider answers and stale reads.

What each step leaves behind is also told without those functions, in the tables' own
fields: `CourierChoice` (which provider), `LegEffects` (drop-off, submission, snapshots,
cancellations), `CounterEffects` (codes, intake, collection, riders) and `PaymentEffects`
(checkout, webhook, sweep, and a quote followed to its shares).

The hard results, and where they are:

- **Legs against orders.** `Invariants` says what holds between two transactions;
  `LegProtocol`, `LegSteps`, `LegTransactions`, `HandoffSteps`, `InHouseSteps` and
  `PaymentSteps` show that every transaction keeps it, `Runs` that every run does, and
  `Reachability` what that means: leg and order agree, the listener never throws, Node
  counters are what the audit counts, shelves are distinct, the log replays to the
  status, money is conserved.
- **Catching up.** `DeliveryLeg` proves the breadth-first search shortest for any table.
  `Convergence` and `ProviderTruth` show that lost, repeated and reordered snapshots end
  where the newest one says, alone and inside any other run.
- **Re-routing.** `LegFrames` and `Rerouting`: it ends, and no parcel is left stranded.
- **Riders.** `RiderCounter`: the counter is the load plus the cancelled claims, exactly.
- **Payments and repeats.** `Growth`, `PaymentSafety`, `Idempotence`, `CodeHistory`,
  `CourierWebhooks`; `SequenceGuard` shows why a snapshot applied twice does no harm.
- **Money, queues, codes.** `Money`, `Outbox`, `Wallet`, `HandoffCodes`, `TrackingCode`,
  `Routing`, `Selection`, `Shelves`.

Some promises do not hold of the code as it is. `Counterexamples` gives concrete runs,
and the exact condition is proved beside the promise:

- A rider's counter stays too high once a claimed in-house leg is cancelled, which needs
  an `assignTimeoutMinutes` on the in-house row; it is exact if and only if that never
  happens (`RiderCounter.RiderCounterIsAudit`). Such a cancellation can also strand the
  parcel.
- A charge whose first verification does not match spends the idempotency key, so a
  later correct confirmation is ignored (`PaymentSafety.SpentKeyBlocksPayment`,
  `PaymentSafety.PaidExactlyWhen`).
- A courier's webhook is marked as processed so that it is applied once, but the mark is
  read before the courier is asked and not looked at again: two overlapping runs of its
  job both apply it (`CourierWebhooks.OverlapAppliesTwice`). It is applied at most once if
  and only if no run is overtaken (`CourierWebhooks.AppliedAtMostOnceExactlyWhen`); what
  protects the tables is the snapshot's number
  (`SequenceGuard.SecondApplicationChangesNothing`), where the courier gives one.
- The comment on `normalizeTrackingCode` says that look-alikes do not matter; in the
  prefix they do (`TrackingCode.LookAlikesExactlyWhen`).
- A handler that outlives its lease can undo SENT (`Outbox.LapsedLeaseUndoesSent`); the
  fifteen-minute cap on the backoff is never reached (`Outbox.BackoffGrows`).

Assumptions, which appear as preconditions or in the shape of the steps: transactions
are serialised; submitting a leg to its courier is one step; `GiveRiderCode`,
`ResendCode` and `FallbackToInHouse` read their guards just before their transaction,
with nothing in between (in `Runs` the transaction may also come late: as `IssueLate`,
and as a `Cancel` that asks nothing); all legs are forward legs and orders start from a
paid intent; couriers number their snapshots (where it is asked for); a courier holds
exactly the quoted fee of each live delivery, surcharges it by at most 60% and never has
one that Locoomo no longer counts; the set of Nodes and riders is fixed during a run,
and so are Node capacities; the event log is in append order.

## Model

| member | source | states |
|---|---|---|
| `Reachability.LegAndOrderAgree` | src/modules/handoffs/application/delivery-progress.listener.ts:39-166 | in every reachable state: an assigned, picked-up, delivered, returning or returned leg exists if and only if the order is in the matching status; all legs but the last are cancelled; `riderId` is the courier of the order's in-house leg, or null when an external courier has it |
| `Reachability.ListenerNeverThrows` | src/modules/logistics/application/delivery-events.service.ts:188-235 | in no reachable state does an event that the leg accepts make the listener throw |
| `LegProtocol.ListenerAccepts` | src/modules/handoffs/application/delivery-progress.listener.ts:39-166 | an event accepted by the leg of an order in step has exactly its declared effect on leg, order, shelf, log and counters, and the listener does not throw |
| `LegTransactions.SyncKeepsInv` | src/modules/logistics/application/delivery-events.service.ts:115-161 | a snapshot, however late, repeated or out of order, never throws and keeps every table's invariant, re-routing included |
| `LegTransactions.CancelKeepsInv` | src/modules/logistics/application/delivery-events.service.ts:167-186 | cancelling a leg from our side never throws, whatever the leg is doing, and keeps every invariant |
| `LegTransactions.SubmitKeepsInv` | src/modules/logistics/application/delivery-dispatch.service.ts:134-194 | submission, refusal and the re-routing after it keep every invariant |
| `LegTransactions.SubmissionIsIdempotent` | src/modules/logistics/application/delivery-dispatch.service.ts:134-194 | once a courier has answered for good, handling the same submission again, whatever is answered then, changes nothing |
| `Runs.RunKeepsInv` | src/modules/handoffs/application/delivery-progress.listener.ts:39-166 | any sequence of any transactions, with any inputs and provider answers, keeps all tables consistent |
| `Runs.ReachableIsConsistent` | src/modules/admin/application/capacity-audit-query.service.ts:36-88 | every state reachable from an empty system satisfies the invariant: leg against order, counters, payments, shelves, keys, money |
| `InHouseSteps.AcceptKeepsInv` | src/modules/handoffs/application/accept-order.service.ts:22-54 | accepting succeeds if and only if the rider has a slot and the order is in the pool; then slot, leg and order change together, otherwise nothing does |
| `InHouseSteps.HandoffKeepsInv` | src/modules/handoffs/application/confirm-handoff.service.ts:22-93 | an unconfirmed handover succeeds if and only if the code is valid and the in-house leg is at that point, and has exactly the leg event's effect |
| `Reachability.PoolShowsWhatCanBeAccepted` | src/modules/handoffs/application/browse-available-orders.service.ts:25-31 | the orders shown to riders are, in every reachable state, exactly those a rider with a free slot can accept |
| `LegEffects.DropOffMeans` | src/modules/handoffs/application/confirm-drop-off.service.ts:36-57 | only an order that awaits it is dropped off; then it is received, keyed and logged, on the lowest free place of its origin's shelf, and given to the first provider row that can take it, or to none exactly when no row can; nothing else changes |
| `LegEffects.CancelMeans` | src/modules/logistics/application/delivery-events.service.ts:167-235 | cancelling a requested or assigned leg ends it, puts the order back to waiting without a rider, and gives it to the provider it is sent to or to the first row that can take it; any other leg is left alone |
| `LegEffects.SubmitMeans` | src/modules/logistics/application/delivery-dispatch.service.ts:134-194 | acceptance notes the courier's id and nothing else; a refusal ends the leg and gives the order to the first row that can take it; a retryable answer, or a leg not waiting to be submitted, changes nothing |
| `LegEffects.SyncMeans` | src/modules/logistics/application/delivery-events.service.ts:115-161 | a matching, newer snapshot leaves its number on the leg and, where some path of events leads there, the leg at its status with order, shelf, log and the origin's counter to match; a cancelled one is routed to the first row that can take it; any other snapshot changes nothing |
| `LegEffects.TerminalMeans` | src/modules/logistics/domain/delivery-leg.ts:43-90 | a status is terminal if and only if no event applies to it, and a failed attempt moves nothing and is only possible on the way |
| `CounterEffects.AcceptMeans` | src/modules/handoffs/application/accept-order.service.ts:22-54 | an active rider with fewer than three deliveries takes an order that waits in the pool or with nobody: one delivery more, order assigned and logged, its leg theirs, nothing else; anything else changes nothing |
| `CounterEffects.PickupMeans` | src/modules/handoffs/application/confirm-handoff.service.ts:44-75 | a pickup with an accepted code uses it up, takes the parcel off the shelf and out of its slot at the origin, and moves leg, order and log; nothing else |
| `CounterEffects.ArrivalMeans` | src/modules/handoffs/application/confirm-handoff.service.ts:44-75 | an arrival with an accepted code uses it up, ends the leg, moves order and log and frees the rider's delivery; nothing else |
| `CounterEffects.IntakeMeans` | src/modules/handoffs/application/confirm-intake.service.ts:39-88 | intake happens to a parcel that has arrived and no other: shelf place at the destination, key, log, and a fresh receiver's code in place of the unused ones |
| `CounterEffects.CollectMeans` | src/modules/handoffs/application/confirm-collection.service.ts:41-89 | a collection with an accepted code uses it up, completes the order, clears its shelf and writes the four entries, in full, under the newest rule |
| `CounterEffects.ReturnIntakeMeans` | src/modules/handoffs/application/return-intake.service.ts:28-76 | the same for a returned parcel at its origin, with a sender's code |
| `CounterEffects.ReturnCollectMeans` | src/modules/handoffs/application/return-collection.service.ts:29-77 | a return collection with an accepted code uses it up, ends the order, clears its shelf and frees one slot of the origin |
| `CounterEffects.CodeRequestsMean` | src/modules/handoffs/application/handoff-code-issuer.service.ts:18-46 | only the order's rider gets a handover code, only a parcel that waits for receiver or sender has its code sent again; the new code supersedes the unused ones of its kind and no other row |
| `CounterEffects.OtherwiseNothing` | src/modules/handoffs/application/handoff-code-validator.service.ts:33-47 | a coded step whose parcel is not where it expects it, or whose code does not open, changes nothing but one failed-attempt counter |
| `CounterEffects.KeysByStatus` | src/common/idempotency/idempotency.service.ts:13-30 | in consistent tables an order has a counter step's key if and only if its status is past that step |
| `DeliveryLeg.EventsToReach` | src/modules/logistics/domain/delivery-leg.ts:97-123 | for any finite transition table: [] exactly when there or unreachable, else a shortest event path that replays to the target; terminates |
| `DeliveryLeg.CatchUpEvents` | src/modules/logistics/domain/delivery-leg.ts:43-123 | on the real table the search yields the declared catch-up path for every pair of statuses |
| `DeliveryLeg.CatchUpIsShortest` | src/modules/logistics/domain/delivery-leg.ts:43-91 | any replay between two statuses is at least as long as the catch-up path, and equal to it when as short |
| `DeliveryLeg.CatchUpArrives` | src/modules/logistics/domain/delivery-leg.ts:85-123 | replaying the catch-up path through the transition table ends at the target |
| `Convergence.DeliveriesConverge` | src/modules/logistics/application/delivery-events.service.ts:115-161 | delivering any of a courier's reports, in any order, any number of times, leaves the leg at the newest one delivered, and every table but the log as if all reports up to it had come in their turn |
| `ProviderTruth.LegFollowsProvider` | src/modules/logistics/application/delivery-events.service.ts:115-161 | the same for the leg inside any run of other transactions that does not cancel it from our side |
| `Rerouting.NeverStranded` | src/modules/logistics/application/delivery-dispatch.service.ts:67-127 | with the seeded in-house row and no in-house leg cancelled, an order has exactly one leg in progress while it waits for a courier or is on the road, and none otherwise, over all runs |
| `Rerouting.WaitsExactlyWhenNoneEligible` | src/modules/logistics/application/delivery-dispatch.service.ts:67-127 | dispatch leaves an order without a courier if and only if no provider row is eligible |
| `Rerouting.LegsAreBounded` | src/modules/logistics/application/delivery-dispatch.service.ts:134-212 | with unchanged provider rows an order never has more legs than all external attempts together plus one, over all runs |
| `Rerouting.ReroutingSpends` | src/modules/logistics/application/logistics-router.service.ts:39-64 | no step gives attempts back, and every leg added with an external courier takes one away |
| `LegFrames.StepFrames` | src/modules/logistics/application/delivery-dispatch.service.ts:67-127 | a step touches at most one leg row of one order and adds at most one leg, in-house or with an attempt left |
| `ReconcilerServices.FallbackGivesToPool` | src/modules/logistics/application/admin-logistics.service.ts:323-360 | an allowed admin fallback never throws and leaves the parcel shelved, waiting, with a fresh in-house leg last |
| `Reachability.NodeCounterIsAudit` | src/modules/admin/application/capacity-audit-query.service.ts:57-88 | in every reachable state a Node's counter equals the audit's definition, and what was reserved fits the capacity |
| `Reachability.BookingExactlyWhen` | src/modules/payments/application/create-payment-intent.service.ts:44-82 | in every reachable state a checkout is accepted if and only if the audit counts fewer parcels at the origin than it has room for |
| `Reachability.NodeClampNeverFires` | src/modules/nodes/application/nodes.service.ts:385-394 | whatever is about to give up a Node slot holds one: the clamp at zero never acts |
| `RiderCounter.RiderCounterIsAudit` | src/modules/admin/application/capacity-audit-query.service.ts:36-55 | over every run a rider's counter is the audit's count plus the number of their claims that were cancelled, and never above three; so the audit is clean if and only if no claim was cancelled |
| `RiderCounter.AcceptExactlyWhen` | src/modules/handoffs/application/accept-order.service.ts:22-54 | over any run, accepting succeeds if and only if the order is offered, the rider is active, and the load the audit counts plus their cancelled claims is below three |
| `RiderCounter.StepDrift` | src/modules/riders/application/rider-capacity.service.ts:25-66 | a step moves counter and load apart exactly when it cancels a claimed in-house leg |
| `RiderCounter.RiderClampNeverFires` | src/modules/riders/application/rider-capacity.service.ts:57-66 | a rider about to hand over has a counter above zero |
| `Counterexamples.CancelledClaimDrifts` | src/modules/handoffs/application/delivery-progress.listener.ts:102-126 | a concrete run in which a claimed in-house leg is cancelled and the rider's counter stays above their load |
| `Counterexamples.CancelledClaimStrands` | src/modules/logistics/application/delivery-dispatch.service.ts:67-127 | the same run leaves the parcel waiting with no leg in progress |
| `Shelves.LowestFree` | src/modules/orders/application/orders.service.ts:352-379 | a free number exists in 1..occupied+1 and the one given is the least |
| `Reachability.ShelvesAreExact` | src/modules/orders/application/orders.service.ts:192-390 | over all runs shelf places are distinct, and an order has one exactly in the four counter statuses, at the right Node |
| `Reachability.LogTellsTheTruth` | src/modules/orders/application/orders.service.ts:61-87 | replaying an order's log takes it along legal edges to its current status, and the last public timeline line says what that status says |
| `OrderRules.TimelineEndsAtStatus` | src/modules/tracking/application/order-timeline.service.ts:19-49 | for every legal log, courier releases included, the timeline is not empty and ends at the public status |
| `OrderRules.TimelineLineByLine` | src/modules/tracking/domain/public-status.ts:77-130 | the timeline has a line for every event but courier releases, in order, and each says what the status was after it |
| `Reachability.PublicPageTellsTruth` | src/modules/tracking/domain/public-status.ts:30-60 | in every reachable state the public status says where the parcel is by its leg, its shelf, its log and its entries |
| `OrderRules.LogSaysHowFar` | src/modules/orders/domain/order-transitions.ts:3-31 | a legal log holds a counter step's event if and only if the status is past that step |
| `OrderRules.EdgesAreEvents` | src/modules/orders/domain/order-transitions.ts:3-31 | the order graph has an edge if and only if some event takes it |
| `OrderRules.ReplayAppend` | src/modules/orders/domain/order-transitions.ts:3-31 | appending an event along a legal edge replays to the status it enters |
| `PaymentSafety.OrderIffPaid` | src/modules/payments/application/confirm-payment-intent-paid.service.ts:31-61 | an intent has an order if and only if it is PAID, and then exactly one |
| `PaymentSafety.SettledIsFinal` | src/modules/payments/application/expire-payment-intents.service.ts:80-153 | PAID and EXPIRED are final over any interleaving, and amount and place never change |
| `PaymentSafety.PaidOnlyForItsAmount` | src/modules/payments/application/handle-payment-webhook.service.ts:44-95 | a webhook makes an intent PAID only for a verified charge of exactly its amount |
| `PaymentSafety.WebhookPaysExactlyWhen` | src/modules/payments/application/handle-payment-webhook.service.ts:44-95 | a webhook makes a pending intent PAID if and only if its key is unspent, its reference written and the amount confirmed |
| `PaymentSafety.SpentKeyBlocksPayment` | src/modules/payments/application/handle-payment-webhook.service.ts:44-95 | after a mismatch has spent the key no later webhook or sweep ever makes the intent PAID |
| `Counterexamples.ChargeIsLost` | src/modules/payments/application/handle-payment-webhook.service.ts:73-83 | a concrete charge confirmed wrongly first and rightly later, which never becomes an order |
| `PaymentSafety.RecoveryExactlyWhen` | src/modules/payments/application/expire-payment-intents.service.ts:107-153 | the sweep makes a pending intent PAID if and only if it read it with its reference, that key is unspent, and the provider confirms the amount read |
| `PaymentSafety.PaidExactlyWhen` | src/modules/payments/application/handle-payment-webhook.service.ts:44-95 | over any run an intent whose key is unspent ends PAID if and only if the first webhook or recovery to spend the key confirms its amount while it is pending |
| `PaymentSafety.RecoveredOnlyForItsAmount` | src/modules/payments/application/expire-payment-intents.service.ts:107-153 | although the sweep compares with a stale amount, it recovers only for what the intent costs now |
| `PaymentSafety.ExpiryReleasesOneSlot` | src/modules/payments/application/expire-payment-intents.service.ts:80-99 | only the sweep expires, and each expiry frees exactly one slot at the intent's origin and changes no order |
| `PaymentSafety.ExpiredExactlyOnce` | src/modules/payments/application/expire-payment-intents.service.ts:80-99 | over any run an intent is expired once if it went from PENDING to EXPIRED, and never otherwise |
| `PaymentEffects.CheckoutMeans` | src/modules/payments/application/create-payment-intent.service.ts:44-82 | a checkout leaves a pending intent with the origin, destination and vehicle asked for, at delivery fee plus the rule's destination fee, without a reference, and takes one slot at the origin; a full or unknown Node changes nothing |
| `PaymentEffects.ReferenceMeans` | src/modules/payments/application/create-payment-intent.service.ts:84-91 | then the intent's own id is written as its reference, and nothing else |
| `PaymentEffects.WebhookMeans` | src/modules/payments/application/handle-payment-webhook.service.ts:44-95 | all a webhook can do: nothing under a spent key or when the provider cannot be asked; PAID with the order it was quoted for; or only the key spent |
| `PaymentEffects.SweepMeans` | src/modules/payments/application/expire-payment-intents.service.ts:80-153 | all the sweep can do: nothing, an expiry with its slot given back, a recovery with its order, or only the key spent |
| `PaymentEffects.OrderIsAsQuoted` | src/modules/payments/application/confirm-payment-intent-paid.service.ts:31-61 | over any run the order of a checkout carries its origin, destination, vehicle and price, and once completed its entries add up to the total quoted |
| `PaymentEffects.AdminStepsMean` | src/modules/earnings/application/admin-revenue-split-rule.service.ts:26-50 | percentages that make a hundred become the newest rule and others are refused; a rider is switched on or off and nothing else |
| `Growth.RunGrows` | src/common/idempotency/idempotency.service.ts:13-30 | over any run keys, logs, legs and entries only grow and settled intents stay settled |
| `Idempotence.KeyIffLogged` | src/modules/handoffs/application/confirm-drop-off.service.ts:36-72 | in every reachable state a counter step's key exists if and only if its event is in the log |
| `Idempotence.CounterStepsExactlyWhen` | src/modules/handoffs/application/confirm-drop-off.service.ts:36-72 | in every reachable state drop-off, intake and return intake succeed if and only if the parcel is where they expect it or they are logged already |
| `Idempotence.RepeatsChangeNothing` | src/modules/handoffs/application/confirm-collection.service.ts:41-89 | once a counter step is logged, repeating it after any further run changes nothing at all |
| `Idempotence.HandoverRepeatsChangeNothing` | src/modules/handoffs/application/confirm-handoff.service.ts:44-75 | the same for pickup and arrival handovers |
| `Idempotence.DueHandoverIsNotBlocked` | src/modules/handoffs/application/confirm-handoff.service.ts:44-75 | no key stands in the way of a handover that is still due |
| `Idempotence.FailedCallChangesOneCounter` | src/modules/handoffs/application/handoff-code-validator.service.ts:33-47 | in any state a counter step or handover that fails leaves every table as it was, unless it is not done yet and its order's live code row does not accept the code: then, and only then, that row has one more failed attempt, and nothing else has changed |
| `HandoffCodes.TableMeansHistory` | src/modules/handoffs/application/handoff-code-issuer.service.ts:18-46 | for every history of issues and checks the live code is the last issued, if unused, with one failure per check since |
| `HandoffCodes.AcceptedExactlyWhen` | src/modules/handoffs/application/handoff-code-validator.service.ts:24-54 | a check succeeds if and only if it carries the last issued code, unexpired, unused, with fewer than five checks since; one unused code per kind |
| `CodeHistory.CodesAreTheirHistory` | src/modules/handoffs/application/handoff-code-issuer.service.ts:18-46 | over all runs an order's codes are exactly what its history of issues and checks makes of an empty table, rollbacks included |
| `CodeHistory.ReceiverNeedsLatestCode` | src/modules/handoffs/application/confirm-collection.service.ts:41-68 | a ready parcel is handed to the receiver if and only if the code is the last issued, valid and not locked out, and a split rule exists |
| `CodeHistory.SenderNeedsLatestCode` | src/modules/handoffs/application/return-collection.service.ts:40-61 | a returned parcel that is ready is handed to its sender if and only if the code is the last issued, valid and not locked out |
| `CodeHistory.HandoverNeedsLatestCode` | src/modules/handoffs/application/confirm-handoff.service.ts:44-75 | a pickup or arrival not confirmed yet is confirmed if and only if it is due and the code is the rider's last issued, valid and not locked out |
| `Money.PriceIsSound` | src/modules/payments/application/pricing.service.ts:63-90 | no part of a price is negative, the parts make the total, and a longer road never costs less |
| `Money.PriceMeans` | src/modules/payments/domain/vehicle-pricing.ts:11-49 | the delivery fee is the vehicle's own rate, or its multiple of the rule's to the nearest kobo, over the measured road or else the scaled straight line, to the nearest kobo; the destination's fee comes on top |
| `Money.SplitIsExact` | src/modules/earnings/domain/split-calculator.ts:10-19 | the shares make the amount, none is negative, each is its percentage rounded, the platform's within two kobo |
| `Money.EachPartyGetsItsShare` | src/modules/earnings/application/record-revenue-split.service.ts:58-101 | each entry names its party and rule and has its percentage of the delivery revenue, the destination fee in full; all are payable but the share of a rider who is not Locoomo's |
| `Money.EntriesConserveMoney` | src/modules/earnings/application/record-revenue-split.service.ts:58-101 | the four entries add up to what was charged and none is negative |
| `Reachability.MoneyIsConserved` | src/modules/handoffs/application/confirm-collection.service.ts:57-79 | in every reachable state an order has entries if and only if it is completed; then four, adding up to its intent's amount, and the rule they name still gives the same four |
| `Routing.ChooseProviderMeans` | src/modules/logistics/domain/routing.ts:31-55 | field by field: the row chosen is enabled, registered, below its attempts, open to the origin, has the vehicle and serves the distance, bounds included; every row that ranks before it, or every row if none is chosen, fails one of these |
| `Routing.ChooseProviderIsLeast` | src/modules/logistics/domain/routing.ts:31-55 | the same by the eligibility predicate, for any order of the rows |
| `CourierChoice.RoutingPicksBest` | src/modules/logistics/domain/routing.ts:31-55 | for an order: its provider is that of the first row, by priority and key, that can take it, attempts counted on its legs of any outcome |
| `CourierChoice.DispatchGoesToBest` | src/modules/logistics/application/delivery-dispatch.service.ts:67-127 | a dispatch with no leg in progress adds exactly one leg, requested, of that provider or of the forced one if it is registered, or none, and changes nothing else |
| `Routing.ChooseProviderIgnoresRowOrder` | src/modules/logistics/domain/routing.ts:36-38 | any permutation of the rows gives the same choice |
| `Routing.ChooseVehicleIsSmallest` | src/modules/logistics/domain/vehicle-selection.ts:23-42 | the class chosen is that of the lowest-ranked enabled rule that takes the parcel's size, weight and every side, none exactly when none does |
| `Routing.VehicleGrowsWithParcel` | src/modules/logistics/domain/vehicle-selection.ts:23-42 | a heavier or longer parcel never gets a smaller vehicle |
| `Outbox.NeverHandledTwiceAtOnce` | src/modules/notifications/application/outbox-poller.service.ts:73-95 | with any number of pollers whose batches finish within the lease, no event is with two of them at once |
| `Outbox.EventIsHandledInBounds` | src/modules/notifications/application/outbox-poller.service.ts:97-142 | an event succeeds at most once and fails at most five times; SENT exactly when it has succeeded, FAILED exactly after five failures |
| `Outbox.FinishedIsFinal` | src/modules/notifications/application/outbox-poller.service.ts:97-142 | a SENT or FAILED row never changes again |
| `Outbox.HeldIsDueOnceLapsed` | src/modules/notifications/application/outbox-poller.service.ts:78-91 | a claimed event comes due for others exactly when its lease has lapsed |
| `Outbox.LapsedLeaseUndoesSent` | src/modules/notifications/application/outbox-poller.service.ts:97-142 | a concrete run in which a lapsed lease undoes SENT |
| `Outbox.HandlingMeans` | src/modules/notifications/application/outbox-poller.service.ts:97-142 | success leaves the row SENT; the n-th failure below five leaves it waiting, due from exactly 30 s times 2^(n-1) later; the fifth gives it up; no other row changes |
| `Outbox.RetryWaits` | src/modules/notifications/application/outbox-poller.service.ts:73-142 | over any run, after its n-th failure an event is not claimed again before that time, and never after the fifth failure or a success |
| `Outbox.EnqueuedIsFresh` | src/modules/notifications/application/outbox.service.ts:34-44 | a new event has all its attempts, is due from its time on and is with no poller |
| `Outbox.StepOnRow` | src/modules/notifications/application/outbox-poller.service.ts:120-142 | only its handler changes a row's fate, and only while it waits |
| `Outbox.BackoffGrows` | src/modules/notifications/domain/outbox.constants.ts:11-19 | waits never shrink, lie between 30 s and 15 min, and the retries there are never reach the cap |
| `OutboxServices.OutboxPollerService.ClaimDueEvents` | src/modules/notifications/application/outbox-poller.service.ts:73-95 | leases exactly the rows found and returns them as they then are |
| `OutboxServices.OutboxPollerService.ProcessEvent` | src/modules/notifications/application/outbox-poller.service.ts:97-107 | writes the outcome of one claimed event and nothing else |
| `OutboxServices.OutboxPollerService.RegisterFailure` | src/modules/notifications/application/outbox-poller.service.ts:120-142 | counts the failure; below five the event waits 30 s, doubled for each failure before, and at five it is given up |
| `Wallet.WalletNeverNegative` | src/modules/logistics/infrastructure/sendii/sendii.provider.ts:357-379 | over any run of creations, surcharges up to 60%, settlements and cancellations the wallet stays non-negative, and the free balance reported right after a creation is too |
| `Wallet.NegativeExactlyWhen` | src/modules/logistics/infrastructure/sendii/sendii.provider.ts:66-69 | some allowed run takes the wallet below zero if and only if the balance does not cover the surcharges still allowed |
| `Wallet.HeadroomIsTight` | src/modules/logistics/infrastructure/sendii/sendii.provider.ts:66-69 | beside any live deliveries not yet surcharged, one kobo less than the headroom asks lets the wallet go below zero if and only if every fee is divisible by five, so that no surcharge is rounded down |
| `Wallet.CreateKeepsCovered` | src/modules/logistics/application/courier-wallet.service.ts:65-68 | an accepted creation leaves all possible surcharges covered and a free balance of at least zero |
| `Wallet.StepKeepsBooks` | src/modules/logistics/infrastructure/sendii/sendii.provider.ts:357-379 | each step moves balance, held fees, tracked fees and surcharges by exactly its own amount |
| `Wallet.RunKeepsBooks` | src/modules/logistics/infrastructure/sendii/sendii.provider.ts:357-379 | over any run what is available and what is held make up what there was and all that came in |
| `Wallet.HeadroomMeans` | src/modules/logistics/infrastructure/sendii/sendii.provider.ts:66-69 | the headroom is 160% of the new fee and 60% of the others', the reserve 60% of all, each rounded up to the kobo |
| `TrackingCode.GenerateTrackingCode` | src/modules/orders/domain/tracking-code.ts:8-14 | the code built is LCM and eight alphabet characters, the ones picked |
| `TrackingCode.GeneratedIsFixed` | src/modules/orders/domain/tracking-code.ts:22-47 | every generated code is read as itself |
| `TrackingCode.NormalizeIsIdempotent` | src/modules/orders/domain/tracking-code.ts:22-47 | an answer is a well-formed code, and asking again with it changes nothing |
| `TrackingCode.SeparatorsDoNotMatter` | src/modules/orders/domain/tracking-code.ts:29 | separators may be put in or left out anywhere |
| `TrackingCode.CaseDoesNotMatter` | src/modules/orders/domain/tracking-code.ts:29 | case does not matter |
| `TrackingCode.LookAlikesExactlyWhen` | src/modules/orders/domain/tracking-code.ts:30-46 | inputs that differ in look-alikes only are read the same if and only if both have the prefix, or neither, or neither holds a code |
| `TrackingCode.ReadAsExactlyWhen` | src/modules/orders/domain/tracking-code.ts:22-47 | a text is read as a given code if and only if it looks like it without the prefix, or looks like it with the prefix and has the prefix right |
| `TrackingCode.ReadLetterByLetter` | src/modules/orders/domain/tracking-code.ts:22-47 | the same letter by letter: which characters may stand between, and which for which letter |
| `TrackingCode.AlphabetMeans` | src/modules/orders/domain/tracking-code.ts:1-14 | thirty-two digits and letters, rising, without I, L, O and U |
| `TrackingCode.PrefixIsNotForgiven` | src/modules/orders/domain/tracking-code.ts:30-37 | a 1 or I for the L of the prefix is refused, whatever the code |
| `CourierWebhooks.StoredIsQueuedOnce` | src/modules/logistics/application/courier-webhook.service.ts:36-76 | over any history of deliveries and redeliveries an event is stored once and queued once |
| `CourierWebhooks.QueuedAsArrived` | src/modules/logistics/application/courier-webhook.service.ts:50-76 | events are stored with what their first delivery said and queued in the order they came |
| `CourierWebhooks.AppliedAtMostOnceExactlyWhen` | src/modules/logistics/application/courier-webhook.service.ts:83-115 | over any history of overlapping runs an event is applied at most once if and only if no run commits after another has committed since it looked at the mark |
| `CourierWebhooks.OverlapAppliesTwice` | src/modules/logistics/application/courier-webhook.service.ts:83-115 | a concrete history in which two overlapping runs of one job apply the event twice |
| `SequenceGuard.SecondApplicationChangesNothing` | src/modules/logistics/application/delivery-events.service.ts:115-161 | a numbered snapshot applied again, or after a newer one, changes nothing, whatever has happened in between, as long as all snapshots of the delivery are numbered |
| `SequenceGuard.UnnumberedIsAppliedAgain` | src/modules/logistics/application/delivery-events.service.ts:130-146 | without a number an old snapshot is applied again and moves the leg |
| `CourierWebhookServices.CourierWebhookService.ReceiveOnce` | src/modules/logistics/application/courier-webhook.service.ts:50-76 | stores and queues an event the first time only |
| `CourierWebhookServices.CourierWebhookService.ReadJob` | src/modules/logistics/application/courier-webhook.service.ts:83-88 | reads the row outside any transaction and stops if it is gone or marked |
| `CourierWebhookServices.CourierWebhookService.CommitJob` | src/modules/logistics/application/courier-webhook.service.ts:98-115 | applies the snapshot, if there is one, and sets the mark in one transaction, or neither, whatever the row says by then |
| `CapacityServices.NodesService.ReserveCapacitySlot` | src/modules/nodes/application/nodes.service.ts:343-364 | takes a slot below capacity; otherwise throws and changes nothing |
| `CapacityServices.NodesService.HoldReturnedParcel` | src/modules/nodes/application/nodes.service.ts:370-378 | counts a returned parcel whether or not the Node is full |
| `CapacityServices.NodesService.ReleaseCapacitySlot` | src/modules/nodes/application/nodes.service.ts:385-394 | gives a slot back, clamped at zero |
| `CapacityServices.RiderCapacityService.ReserveDeliverySlot` | src/modules/riders/application/rider-capacity.service.ts:25-49 | takes a slot of an active rider below three; otherwise throws and changes nothing |
| `CapacityServices.RiderCapacityService.ReleaseDeliverySlot` | src/modules/riders/application/rider-capacity.service.ts:57-66 | gives a slot back, clamped at zero |
| `OrdersServices.OrdersService.Transition` | src/modules/orders/application/orders.service.ts:61-87 | status and log change together along a legal edge from the status expected, or nothing does |
| `OrdersServices.OrdersService.AssignRider` | src/modules/orders/application/orders.service.ts:94-128 | only an unclaimed order waiting at its origin gets the rider |
| `OrdersServices.OrdersService.MarkCourierReleased` | src/modules/orders/application/orders.service.ts:156-190 | the order waits again, without a rider |
| `OrdersServices.OrdersService.MarkReceivedAtOrigin` | src/modules/orders/application/orders.service.ts:192-204 | received and shelved at the origin in one go |
| `OrdersServices.OrdersService.MarkReturning` | src/modules/orders/application/orders.service.ts:278-298 | both steps of a return |
| `OrdersServices.OrdersService.PlaceOnShelf` | src/modules/orders/application/orders.service.ts:352-379 | gives the lowest free number at the Node |
| `LogisticsServices.DeliveryDispatchService.Dispatch` | src/modules/logistics/application/delivery-dispatch.service.ts:67-127 | keeps a leg in progress, else adds one with the forced or chosen provider, else waits |
| `LogisticsServices.DeliveryDispatchService.Submit` | src/modules/logistics/application/delivery-dispatch.service.ts:134-194 | acts once per leg: notes the courier's id, or cancels and routes on, or leaves it for a retry |
| `LogisticsServices.DeliveryProgressListener.OnDeliveryEvent` | src/modules/handoffs/application/delivery-progress.listener.ts:39-166 | moves order, shelf and counters for each event, or throws |
| `LogisticsServices.DeliveryEventsService.AssignInHouseRider` | src/modules/logistics/application/delivery-events.service.ts:33-68 | puts the rider on the in-house leg, made on the spot if there is none, and assigns it |
| `LogisticsServices.DeliveryEventsService.RecordInHouseHandover` | src/modules/logistics/application/delivery-events.service.ts:72-106 | moves the in-house leg, or throws |
| `LogisticsServices.DeliveryEventsService.SyncFromSnapshot` | src/modules/logistics/application/delivery-events.service.ts:115-161 | ignores unknown and stale snapshots, else replays the catch-up events one by one |
| `LogisticsServices.DeliveryEventsService.CancelLeg` | src/modules/logistics/application/delivery-events.service.ts:167-186 | cancels and re-routes in one transaction, or does nothing |
| `LogisticsServices.DeliveryEventsService.Apply` | src/modules/logistics/application/delivery-events.service.ts:188-235 | saves the moved leg, publishes the event and re-routes a cancellation |
| `ReconcilerServices.DeliveryReconcilerService.ExpireOne` | src/modules/logistics/application/delivery-reconciler.service.ts:82-101 | in consistent tables it never throws: with the courier's agreement the leg is cancelled and its order given to the first row that can take it; too late, the snapshot is taken in; otherwise nothing changes |
| `ReconcilerServices.DeliveryReconcilerService.ExpireUnassigned` | src/modules/logistics/application/delivery-reconciler.service.ts:67-105 | one run answers its batch leg by leg, in order, up to the first that throws; in consistent tables none does and all are answered |
| `ReconcilerServices.AdminLogisticsService.FallbackToInHouse` | src/modules/logistics/application/admin-logistics.service.ts:323-360 | in consistent tables it succeeds if and only if the leg is an external courier's, not picked up, and the courier agreed or need not be asked; then the leg is cancelled and the order given to the pool, else nothing changes |
| `HandoffServices.IdempotencyService.Insert` | src/common/idempotency/idempotency.service.ts:13-30 | inserts the key unless it is there, and says which |
| `HandoffServices.HandoffCodeService.IssueNew` | src/modules/handoffs/application/handoff-code-issuer.service.ts:18-46 | drops the unused codes of the kind and adds the new one |
| `HandoffServices.HandoffCodeService.Check` | src/modules/handoffs/application/handoff-code-validator.service.ts:24-54 | uses up a valid code; a failure is counted in the committed tables, outside the transaction |
| `HandoffServices.RecordRevenueSplitService.Record` | src/modules/earnings/application/record-revenue-split.service.ts:30-102 | writes the four entries under the newest rule, or throws |
| `HandoffServices.CounterServices.DropOffParcel` | src/modules/handoffs/application/confirm-drop-off.service.ts:24-75 | key, transition, shelf and routing to the first row that can take the order, in one transaction |
| `HandoffServices.CounterServices.AcceptFromPool` | src/modules/handoffs/application/accept-order.service.ts:22-54 | slot and claim in one transaction |
| `HandoffServices.CounterServices.ConfirmRiderHandover` | src/modules/handoffs/application/confirm-handoff.service.ts:22-93 | key, code and leg in one transaction; a wrong code leaves only its count |
| `HandoffServices.CounterServices.IssueLate` | src/modules/handoffs/application/request-handoff-code.service.ts:36-45 | the issuing transaction of a code request looks at nothing again: it drops the unused codes of the kind and adds the new one |
| `HandoffServices.CounterServices.GiveRiderCode` | src/modules/handoffs/application/request-handoff-code.service.ts:23-46 | only the order's own rider gets a code |
| `HandoffServices.CounterServices.ResendCode` | src/modules/handoffs/application/resend-collection-code.service.ts:38-128 | a fresh code while the parcel waits for its receiver or sender, else an error |
| `HandoffServices.CounterServices.TakeIn` | src/modules/handoffs/application/confirm-intake.service.ts:39-88 | key, transition, shelf and receiver's code in one transaction |
| `HandoffServices.CounterServices.HandToReceiver` | src/modules/handoffs/application/confirm-collection.service.ts:30-92 | key, code, completion and revenue split in one transaction; a wrong code leaves only its count |
| `HandoffServices.CounterServices.TakeBack` | src/modules/handoffs/application/return-intake.service.ts:28-76 | key, transition, shelf and sender's code in one transaction |
| `HandoffServices.CounterServices.HandToSender` | src/modules/handoffs/application/return-collection.service.ts:29-77 | key, code, completion and slot release in one transaction; a wrong code leaves only its count |
| `PaymentServices.CreatePaymentIntentService.Create` | src/modules/payments/application/create-payment-intent.service.ts:44-82 | slot and pending intent, exactly as asked and quoted, in one transaction |
| `PaymentServices.CreatePaymentIntentService.WriteReferenceOf` | src/modules/payments/application/create-payment-intent.service.ts:84-91 | the reference is written by a statement of its own |
| `PaymentServices.ConfirmPaymentIntentPaidService.Confirm` | src/modules/payments/application/confirm-payment-intent-paid.service.ts:31-61 | PAID, and the order placed with its first log line |
| `PaymentServices.HandlePaymentWebhookService.Handle` | src/modules/payments/application/handle-payment-webhook.service.ts:44-95 | key first, then PAID only if pending and verified; a failed verification call rolls the key back |
| `PaymentServices.ExpirePaymentIntentsService.TryRecover` | src/modules/payments/application/expire-payment-intents.service.ts:107-153 | skips expiry when the provider is unreachable or says paid; a recovery is one transaction under the webhook's key |
| `PaymentServices.ExpirePaymentIntentsService.ProcessOne` | src/modules/payments/application/expire-payment-intents.service.ts:80-99 | recovers or expires, re-reading the intent before expiring it |
| `PaymentServices.ExpirePaymentIntentsService.Poll` | src/modules/payments/application/expire-payment-intents.service.ts:56-78 | one poll is its batch in order, up to the first that throws; an overlapping poll does nothing |
| `PaymentServices.RevenueSplitRuleService.Add` | src/modules/earnings/application/admin-revenue-split-rule.service.ts:26-50 | adds percentages that make a hundred, else throws |

## Left out

- HTTP controllers, validation of request bodies, guards and ownership checks, paging and list queries other than the riders' pool.
- Emails, QR codes, geocoding, Paystack and Sendii calls and their signatures: what they answer is an input of the step.
- Geography: distances are inputs. Clocks, random codes, ids and hashes are inputs too; a code's hash stands for the code.
- Floating point: prices and the wallet headroom are computed over exact numbers, so the rounding of intermediate binary fractions is not modelled.
- Locale order of provider keys: `collation` is a key's place in it.
- SQL isolation, locks and deadlocks: each transaction is one atomic step. Rows of other tables that hang on an order (log, legs, keys, codes, entries) are kept inside the order.
- Display fields of legs (courier name and phone, tracking URL, costs, failure reason) and of orders; `createdAt` and `updatedAt`; `expiresAt` of intents, so which intents a sweep reads is an input.
- Sendii's status names: snapshots are already in the neutral vocabulary. A snapshot names the leg row it is for, and is ignored if provider and external id are not that row's; the lookup by them is not modelled.
- The retry loop around a collision of tracking codes, and pasted tracking URLs and non-ASCII input in `normalizeTrackingCode`.
- Legacy orders without legs, RETURN legs, the CANCELLED and DISPUTED statuses, which no code path reaches.
- `effectiveFrom` of split rules: the newest is the one added last. Payout status changes after an entry is written.
- Identity, onboarding, memberships, payouts, visibility, opening hours, route measurement, economics reports: independent, mostly one branch each.
- The outbox rows of submissions, emails and queued webhooks are not linked to the outbox model: a submission or a queued job may happen at any time, any number of times.
- Rider registration and Node management: they would only add steps that change rows nobody else counts on.
- NeverStranded: holds for vehicle classes that the in-house pool carries; vans and trucks may wait for a courier, exactly when no row is eligible (`Rerouting.WaitsExactlyWhenNoneEligible`).
- LegFollowsProvider: asks that reports come in a path through the leg graph with rising numbers and that the leg is not cancelled from our side, as a cancelled leg stays cancelled whatever its courier reports later.
- NeverHandledTwiceAtOnce: asks that batches finish within the lease, which the code leaves to the handlers' own time limits.
- LookAlikesExactlyWhen: plain ASCII input that is no tracking URL.
- ReadAsExactlyWhen: the same.
- PaidExactlyWhen: asks that the sweep's batch read each row's own reference and amount, as its query does.
- SecondApplicationChangesNothing: asks that the delivery's snapshots are numbered; without numbers it fails (`SequenceGuard.UnnumberedIsAppliedAgain`).
- HeadroomIsTight: a fee that is not divisible by five rounds a surcharge down by less than a kobo, so a headroom one kobo lower can be enough; the condition says when.
