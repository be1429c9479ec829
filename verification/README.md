# Order service: the order and payment lifecycle, verified

This project models the order-service's use cases, the entities they mutate and the
tables they commit to, in Dafny, and proves what holds over whole runs.

The order row, the payment row, the outbox, the idempotency records and the saga row are
committed one after another, with no transaction around them. The proofs come in two layers.

**Serial runs** (`Domain`, `Entities`, `Store`, `Saga`, `UseCases`, `Behaviour`, `Invariant`, `Moves`,
`Preservation`, `SerialRuns`, `Outcomes`, `BasketRuns`, `Idempotency`). The entities and the database are classes;
each use case is a method that performs the same reads, mutations and commits in the same order
as the code. `Behaviour` says what each use case does to the contents as one function. The
methods are proved to do exactly that, from an invariant that all of them keep; on the way it is proved that in
a serial run no version check refuses a save, no unique constraint on payments is broken and no callback meets an
order that refuses it. `Outcomes` then says of each use case, on every path, what it answers and leaves, in terms of
the request and the rows alone. The other lemmas speak of `Run`, any sequence of use cases with any replies.

**Interleavings** (`Interleaving`, `InterleavingProofs`, `Linearization`, `InterleavedPayments`, `DeadEnds`,
`SerialAsInterleaving`, `Prospects`). Every use case is cut at its database accesses, the save of an order being one
access: a compare-and-set on its version, as ADR-005 intends. Any number of use cases are in flight with
their snapshots and may stop at any point. With that save, order rows are linearizable; the agreement of
order and payment rows does not survive. `Prospects` says exactly when it can be lost and exactly when an order can
still be paid, from the two rows alone, and `Disagreements` which pairs of statuses can be left behind. What survives
of payments is in `InterleavedPayments`. Serial runs are proved to be among the interleavings.

Three simplifications of that layer are lifted one at a time. The code's save is a SELECT, a comparison and an UPDATE
that does not ask for the version again: `TwoStepSave` cuts it there and says exactly when no write is lost.
`Creations` cuts CreateOrder between has_active_order and the insert. `Deliveries` adds the idempotency records of
callbacks.

`Limits` holds sample runs and what keys of initiations do not guarantee.

`Basket`, `Paging` and `AmountStorage` treat item lists, listings and the float columns.

`dafny verify dfyconfig.toml` checks everything.

Where code and documents differ, the model follows the code:

- ADR-008 promises that a repeated request repeats no effect and that a key reused for another payload is
  refused with 409. In serial runs confirmations do both. A callback does the first in serial runs; among other use
  cases only from the time its key is recorded and earlier deliveries are over, and until then a rejection can take
  effect twice (`Deliveries`). It does the second exactly up to the colon that joins status and transaction id in the
  hashed text. An initiation looks the payment up by key before anything else, so a key on a payment row answers for
  any order, and a key that reopened a rejected payment is on no row and runs again. The exact conditions are in
  `Idempotency`, the runs in `Limits`.
- VALID_TRANSITIONS lacks the gateway rollback, which the code performs by assigning the status.

## Model

| member | source | states |
|---|---|---|
| `Entities.CalculateTotal` | order-service/src/order_service/domain/services/pricing_service.py:8-18 | succeeds exactly when every line has a price and neither price nor line amount is negative; then the result is the sum over all lines; otherwise ValueError |
| `Entities.Order.AddItem` | order-service/src/order_service/domain/entities/order.py:67-86 | on a draft and a positive quantity the product's first line grows or one line is appended, nothing else changes; otherwise the stated error and no change |
| `Entities.Order.RemoveItem` | order-service/src/order_service/domain/entities/order.py:88-98 | on a draft the first line with the id is removed; a missing id or another status raises and changes nothing |
| `Entities.Order.ConfirmWithPrices` | order-service/src/order_service/domain/entities/order.py:100-112 | a non-empty draft with a usable price for every line becomes CONFIRMED with all prices and the total set; otherwise the first fault's error, with status, total and quantities as before |
| `Entities.Order.MarkPaymentPending` | order-service/src/order_service/domain/entities/order.py:114-120 | CONFIRMED and PAYMENT_FAILED become PAYMENT_PENDING, nothing else changes; any other status raises |
| `Entities.Order.ApplyPaymentApproved` | order-service/src/order_service/domain/entities/order.py:122-128 | PAYMENT_PENDING becomes PAID; any other status raises and changes nothing |
| `Entities.Order.ApplyPaymentRejected` | order-service/src/order_service/domain/entities/order.py:130-143 | counts the rejection and fails the payment, or cancels with the fixed reason at the third; any status but PAYMENT_PENDING raises |
| `Entities.Order.Cancel` | order-service/src/order_service/domain/entities/order.py:145-152 | cancels with the reason from the four cancellable statuses; raises on PAID and CANCELLED |
| `Entities.Payment.Reinitiate` | order-service/src/order_service/domain/entities/order.py:179-186 | only a REJECTED payment reopens, with the new reference; amount and key stay |
| `Basket.AddLineRefines` | order-service/src/order_service/domain/entities/order.py:75-86 | adding to the list is adding to the map from product to (line id, quantity) |
| `Basket.RemoveLineRefines` | order-service/src/order_service/domain/entities/order.py:93-97 | removing from the list is deleting the entry with that line id |
| `Basket.AddLineAdds` | order-service/src/order_service/domain/entities/order.py:75-86 | the lines hold exactly `quantity` more of the product and as much as before of any other; old lines stay but for quantities, and one is appended exactly if the product had none |
| `Basket.RemoveLineRemoves` | order-service/src/order_service/domain/entities/order.py:93-97 | exactly the line with the id is cut out, the others stay in order, and none of them has the id |
| `BasketRuns.EditsRefineMap` | order-service/src/order_service/application/use_cases/order_use_cases.py:110-139 | after any serial run of all use cases, an order holds of each product exactly what its accepted additions and removals, taken as map updates, make of an empty basket; nothing else changes a quantity |
| `Basket.SameBasketSameTotal` | order-service/src/order_service/domain/services/pricing_service.py:12-18 | two lists with the same map price to the same total, whatever order the rows come back in |
| `Store.Database.SaveOrder` | order-service/src/order_service/infrastructure/persistence/repositories.py:85-125 | succeeds exactly on a first version of a new id or on the successor of the stored version; replaces that row only; otherwise Concurrency or OrderNotFound and no change |
| `Store.Database.ActiveOrderExists` | order-service/src/order_service/infrastructure/persistence/repositories.py:157-173 | true exactly when some order of the customer, other than the excluded one, has an active status |
| `Store.Database.GetPaymentByOrder` | order-service/src/order_service/infrastructure/persistence/repositories.py:225-230 | the one payment of the order, or none |
| `Store.Database.GetPaymentByKey` | order-service/src/order_service/infrastructure/persistence/repositories.py:245-250 | the one payment with the key, or none |
| `Store.Database.SavePayment` | order-service/src/order_service/infrastructure/persistence/repositories.py:193-216 | an insert succeeds exactly if order exists and order and key are not taken; an update writes status and reference only, never the amount |
| `Store.Database.SaveRecord` | order-service/src/order_service/infrastructure/persistence/database.py:56-68 | inserts once per key and operation; a duplicate fails and changes nothing |
| `Store.Database.SaveSaga` | order-service/src/order_service/infrastructure/persistence/database.py:75-106 | one saga row per order: inserted under the given id, later overwritten but for the id |
| `Store.Database.Publish` | order-service/src/order_service/infrastructure/messaging/outbox_publisher.py:21-35 | exactly one log row per event, whether or not the queue accepts it |
| `Saga.FetchCatalogPrices` | order-service/src/order_service/application/saga/steps.py:29-41 | succeeds exactly if every item's reply is available; the dictionary holds the replies item by item |
| `Saga.PersistConfirmedOrder` | order-service/src/order_service/application/saga/steps.py:44-51 | the save of a freshly read order is never refused; the stored row is the confirmed order, or nothing changed |
| `Saga.Confirm` | order-service/src/order_service/application/saga/orchestrator.py:39-98 | the saga with its two compensations and every failure branch does exactly ConfirmBySaga |
| `UseCases.CreateOrder` | order-service/src/order_service/application/use_cases/order_use_cases.py:43-54 | a serial run inserts one new DRAFT order or nothing; the insert is never refused |
| `UseCases.AddItemToOrder` | order-service/src/order_service/application/use_cases/order_use_cases.py:110-121 | exactly the row of this order is replaced by the edited one; no Concurrency error |
| `UseCases.RemoveItemFromOrder` | order-service/src/order_service/application/use_cases/order_use_cases.py:128-139 | exactly the row of this order is replaced; a missing item is reported as ItemNotFound |
| `UseCases.ConfirmOrder` | order-service/src/order_service/application/use_cases/order_use_cases.py:153-177 | replays, refuses or runs the saga and records the key; recording is never refused |
| `UseCases.VoidOpenPayment` | order-service/src/order_service/application/use_cases/order_use_cases.py:197-200 | commits VOID on the order's payment exactly if it is PENDING |
| `UseCases.CancelOrder` | order-service/src/order_service/application/use_cases/order_use_cases.py:191-208 | although VOID is committed before can_cancel is checked, an order that refuses leaves the database unchanged; otherwise VOID, CANCELLED and one event |
| `UseCases.RollBack` | order-service/src/order_service/application/use_cases/order_use_cases.py:268-274 | the gateway compensation puts back the previous status one version later and touches no other row |
| `UseCases.OpenPayment` | order-service/src/order_service/application/use_cases/order_use_cases.py:276-291 | the rejected payment is reopened or a first one inserted; neither unique constraint can fail |
| `UseCases.Accept` | order-service/src/order_service/application/use_cases/order_use_cases.py:276-304 | after an acceptance: payment, event and record are written, or all but the record if the key is recorded already |
| `UseCases.InitiatePayment` | order-service/src/order_service/application/use_cases/order_use_cases.py:226-304 | the commits one after another amount to Initiate; the early return for an open payment is dead code, no save is refused |
| `UseCases.Settle` | order-service/src/order_service/application/use_cases/order_use_cases.py:368-379 | payment then order are committed with the same verdict; neither entity nor save refuses |
| `UseCases.PaymentCallback` | order-service/src/order_service/application/use_cases/order_use_cases.py:333-397 | the callback's commits amount to Callback, including replays and refusals |
| `UseCases.PendingPaymentAwaitsVerdict` | order-service/src/order_service/application/use_cases/order_use_cases.py:357-366 | a PENDING payment's order exists and is PAYMENT_PENDING |
| `UseCases.Serve` | order-service/src/order_service/application/use_cases/order_use_cases.py:34-397 | any sequence of requests, run on the mutable store, keeps the invariant and ends in the state Run gives |
| `Outcomes.ActiveIff` | order-service/src/order_service/infrastructure/persistence/repositories.py:157-173 | an order counts as active exactly if it is neither PAID nor CANCELLED |
| `Outcomes.CreationIff` | order-service/src/order_service/application/use_cases/order_use_cases.py:43-54 | creation succeeds exactly if the customer service answers ACTIVE and all orders of the customer are PAID or CANCELLED; then one empty DRAFT of that customer at version 1 is inserted; otherwise nothing changes, with the exact error |
| `Outcomes.AdditionIff` | order-service/src/order_service/application/use_cases/order_use_cases.py:110-121 | an addition succeeds exactly for an existing DRAFT, an available product and a positive quantity; then the order holds exactly that much more of the product and is otherwise the same; otherwise nothing changes, with the exact error |
| `Outcomes.RemovalIff` | order-service/src/order_service/application/use_cases/order_use_cases.py:128-139 | a removal succeeds exactly for a DRAFT that has a line with the id; then exactly that line is gone; otherwise nothing changes, with the exact error |
| `Outcomes.SagaRowTells` | order-service/src/order_service/application/saga/orchestrator.py:39-98 | the saga row is left COMPLETED with the total, FAILED for the customer, COMPENSATED for the catalog, or RUNNING after any other fault, under its old id |
| `Outcomes.ConfirmationIff` | order-service/src/order_service/application/use_cases/order_use_cases.py:153-177 | a confirmation under an unrecorded key fails with the first fault in the saga's order and writes the saga row only, or confirms at the fetched prices with one event and records the key |
| `Outcomes.CancellationIff` | order-service/src/order_service/application/use_cases/order_use_cases.py:191-208 | an order can be cancelled exactly until it is PAID or CANCELLED; then its reason is set, a PENDING payment of it is VOID, no other payment changes, and one event is logged; otherwise nothing changes, with the exact error |
| `Outcomes.InitiationAnswers` | order-service/src/order_service/application/use_cases/order_use_cases.py:226-274 | every ending of an initiation but acceptance: the payment of the key, conflict, not found, not payable, gateway failure with the version two on |
| `Outcomes.InitiationOpens` | order-service/src/order_service/application/use_cases/order_use_cases.py:257-304 | an accepted initiation: PAYMENT_PENDING, a first payment for the total under the key or the rejected one reopened, one event, and the key recorded unless it was |
| `Outcomes.ApprovedIff` | order-service/src/order_service/application/use_cases/order_use_cases.py:369-369 | a verdict is an approval exactly if it is the eight letters of APPROVED, each in either case |
| `Outcomes.CallbackAnswers` | order-service/src/order_service/application/use_cases/order_use_cases.py:340-362 | unless the key is recorded for another payload, a callback for a missing payment is PaymentNotFound and one for a settled payment returns that payment; the database stays as it is |
| `Outcomes.CallbackSettles` | order-service/src/order_service/application/use_cases/order_use_cases.py:366-397 | a first verdict settles payment and order, with the fixed reason at the third rejection, logs one event and records the key |
| `Outcomes.CallbackTwice` | order-service/src/order_service/application/use_cases/order_use_cases.py:340-397 | a callback delivered twice in a row, with a key or without, has no second effect and gets the same answer |
| `Moves.MoveKeepsGood` | order-service/src/order_service/application/use_cases/order_use_cases.py:180-397 | each way a use case can change an order keeps coupling, pricing, amounts, saga and event accounting of that order |
| `Moves.MoveRespects` | order-service/src/order_service/domain/entities/order.py:46-152 | each such change follows the table or keeps the status, keeps goods frozen outside DRAFT, leaves terminal orders alone, and every event lowers a measure |
| `Preservation.CommitViews` | order-service/src/order_service/application/use_cases/order_use_cases.py:201-208 | a commit changes what is stored about its own order only |
| `Preservation.ConfirmKeeps` | order-service/src/order_service/application/use_cases/order_use_cases.py:153-177 | confirmation, in all its endings, keeps the invariant and moves at most its own order |
| `Preservation.CancelKeeps` | order-service/src/order_service/application/use_cases/order_use_cases.py:191-208 | cancellation keeps the invariant |
| `Preservation.InitiateKeeps` | order-service/src/order_service/application/use_cases/order_use_cases.py:226-304 | initiation keeps the invariant, gateway failures included |
| `Preservation.CallbackKeeps` | order-service/src/order_service/application/use_cases/order_use_cases.py:333-397 | callbacks keep the invariant |
| `Preservation.ExecKeeps` | order-service/src/order_service/application/use_cases/order_use_cases.py:34-397 | every use case on every input and reply keeps the invariant and moves each order lawfully |
| `SerialRuns.RunKeeps` | order-service/src/order_service/application/use_cases/order_use_cases.py:34-397 | over runs of any length the invariant holds and every order is a lawful successor of what it was |
| `SerialRuns.RowsAgreeInEveryState` | order-service/src/order_service/application/use_cases/order_use_cases.py:180-397 | in every reachable state order row and payment row agree, status by status; attempts are at most 3 and 3 means CANCELLED |
| `SerialRuns.VoidMeansCancelled` | order-service/src/order_service/application/use_cases/order_use_cases.py:197-203 | a VOID payment never sits on an order that is not cancelled |
| `SerialRuns.EventsRebuildState` | order-service/src/order_service/infrastructure/messaging/outbox_publisher.py:21-35 | replaying an order's outbox from DRAFT rebuilds order status, payment status and attempts |
| `SerialRuns.EventBudget` | order-service/src/order_service/application/use_cases/order_use_cases.py:292-295 | an order emits at most seven events in a run of any length; initiations equal verdicts plus the one open or voided |
| `SerialRuns.OneActiveOrderPerCustomer` | order-service/src/order_service/application/use_cases/order_use_cases.py:49-54 | a customer never has two orders in active statuses |
| `SerialRuns.PriceIsFrozen` | order-service/src/order_service/domain/entities/order.py:100-112 | once out of DRAFT items, prices and total never change, and every payment, reopened or not, is for that total |
| `SerialRuns.TotalsAddUp` | order-service/src/order_service/domain/entities/order.py:100-112 | in every reachable state lines are distinct, drafts carry no prices, and a confirmed order's total is the sum over its lines |
| `SerialRuns.TerminalOrdersStay` | order-service/src/order_service/domain/entities/order.py:46-65 | PAID and CANCELLED orders, their payments and their events never change again |
| `SerialRuns.StatusFollowsTable` | order-service/src/order_service/domain/services/state_machine.py:3-24 | in a serial run a use case keeps the status or takes an edge of the table, with exactly one event for each change |
| `SerialRuns.CompletedSagaAgrees` | order-service/src/order_service/application/saga/orchestrator.py:83-94 | COMPLETED means the order left DRAFT by a confirmation and the recorded total is still its total |
| `SerialRuns.GatewayFailureRestores` | order-service/src/order_service/application/use_cases/order_use_cases.py:230-274 | PaymentGatewayError ends an initiation exactly if the order is payable and the key neither answers nor conflicts; it leaves two versions behind, and trying again with any reply does what the first try would have done |
| `SerialRuns.CallbackIsNeverRefused` | order-service/src/order_service/application/use_cases/order_use_cases.py:354-379 | no callback fails on its order; a first verdict settles both rows accordingly |
| `SerialRuns.PricesOfConfirmation` | order-service/src/order_service/application/saga/steps.py:29-51 | confirmation succeeds exactly for a non-empty draft with usable replies, and line i gets the price of reply i; a non-empty draft is refused for a negative price only, so a price is never missing |
| `SerialRuns.ConfirmationIsAllOrNothing` | order-service/src/order_service/application/saga/orchestrator.py:39-98 | either no order, payment or event is written and the exception is the one of the first failing check, or the order is CONFIRMED at the fetched prices; the condition for each is exact |
| `Idempotency.ConfirmationReplays` | order-service/src/order_service/application/use_cases/order_use_cases.py:157-166 | under a recorded key a confirmation changes nothing: same order returns it, another order is refused |
| `Idempotency.ConfirmationIsRecorded` | order-service/src/order_service/application/use_cases/order_use_cases.py:168-177 | a confirmation that succeeds leaves its key on record for this order, one that fails leaves no record |
| `Idempotency.ConfirmedKeyReplays` | order-service/src/order_service/application/use_cases/order_use_cases.py:157-177 | over any run: the key under which an order was confirmed returns that order as it is later, refuses every other order, and changes nothing |
| `Idempotency.CallbackReplays` | order-service/src/order_service/application/use_cases/order_use_cases.py:343-352 | under a recorded key a callback changes nothing: same digest returns the payment, another is refused |
| `Idempotency.SettledKeyReplays` | order-service/src/order_service/application/use_cases/order_use_cases.py:340-397 | over any run: the key under which a verdict was taken returns that payment as it is later, refuses every payload with another digest, and changes nothing |
| `Idempotency.OneEffectPerCallbackKey` | order-service/src/order_service/application/use_cases/order_use_cases.py:340-396 | in a run of any length at most one delivery of a callback key changes any order or payment |
| `Idempotency.SameBodyIff` | order-service/src/order_service/application/use_cases/order_use_cases.py:340-342 | exactly when two different callback payloads hash alike: one status continues the other across the separator |
| `Idempotency.PlainStatusesAreToldApart` | order-service/src/order_service/application/use_cases/order_use_cases.py:340-342 | without a colon in the status different payloads always hash differently |
| `Idempotency.ColonConfusesPayloads` | order-service/src/order_service/application/use_cases/order_use_cases.py:340-342 | two payloads with opposite verdicts that hash alike |
| `Idempotency.InitiationReplays` | order-service/src/order_service/application/use_cases/order_use_cases.py:230-235 | the key a payment was created under returns that payment for ever, whatever order is named, and changes nothing |
| `Idempotency.InitiationConflictIff` | order-service/src/order_service/application/use_cases/order_use_cases.py:230-240 | a recorded key named with another order is refused exactly if no payment row carries it |
| `Idempotency.InitiationReplayIsHarmlessIff` | order-service/src/order_service/application/use_cases/order_use_cases.py:226-304 | repeating a recorded initiation changes nothing exactly if a payment row carries the key or the order is not payable |
| `Limits.ReopeningKeyIsNotIdempotent` | order-service/src/order_service/application/use_cases/order_use_cases.py:276-303 | a reachable state in which repeating a recorded initiation has effects again for every gateway reply |
| `Limits.InitiationKeyAnswersForOtherOrders` | order-service/src/order_service/application/use_cases/order_use_cases.py:230-235 | a reachable state in which a key answers for any other order instead of being refused |
| `Deliveries.TwiceIff` | order-service/src/order_service/application/use_cases/order_use_cases.py:343-396 | any interleaving: for an order awaiting its verdict and a key not recorded, the same verdict under the same key can take effect twice exactly if it is a rejection and fewer than two are recorded on the order |
| `Deliveries.RecordedIsFinal` | order-service/src/order_service/application/use_cases/order_use_cases.py:343-396 | any interleaving: once the key is recorded and no delivery that looked it up before is under way, no delivery under it takes effect again |
| `InterleavingProofs.TableIsWhatOperationsDo` | order-service/src/order_service/domain/services/state_machine.py:3-24 | both directions: each operation takes an edge of VALID_TRANSITIONS, each edge is taken by an operation |
| `InterleavingProofs.CommitReplacesSnapshot` | order-service/src/order_service/infrastructure/persistence/repositories.py:121-123 | a save that passes the version check replaces exactly the row its snapshot was read from |
| `InterleavingProofs.MarkingKeeps` | order-service/src/order_service/application/use_cases/order_use_cases.py:257-260 | the flight that marks a CONFIRMED order is the only one that remembers CONFIRMED of it |
| `InterleavingProofs.InsertKeeps` | order-service/src/order_service/application/use_cases/order_use_cases.py:282-291 | a first payment appears only when no other flight remembers CONFIRMED of its order |
| `InterleavingProofs.EveryInterleaving` | order-service/src/order_service/application/use_cases/order_use_cases.py:180-397 | the invariant of flights and rows holds under any interleaving, any replies and any crashes |
| `Linearization.CommitIsOnCurrentRow` | order-service/src/order_service/infrastructure/persistence/repositories.py:113-125 | every committed write is the domain operation applied to the row it replaces; a rollback returns the status that the recorded rejections tell |
| `Linearization.RowsAreSerialHistories` | order-service/src/order_service/infrastructure/persistence/repositories.py:85-125 | any interleaving: each row is a serial run of exactly its committed operations from a new order, and its version is 1 plus their number |
| `Linearization.VersionFixesContents` | order-service/src/order_service/infrastructure/persistence/repositories.py:121-123 | any interleaving: two states of a run that show the same version of an order show the same row |
| `Linearization.StatusChangesAreLawful` | order-service/src/order_service/domain/services/state_machine.py:3-24 | any interleaving: a committed change edits a draft, takes an edge of the table, or is the rollback to the status held before; never from PAID or CANCELLED |
| `Linearization.RejectionsAreNeverForgotten` | order-service/src/order_service/domain/entities/order.py:130-143 | any interleaving: attempts never fall nor exceed 3, 3 means CANCELLED, and after one rejection the order is never CONFIRMED again |
| `Linearization.GoodsAreFrozen` | order-service/src/order_service/domain/entities/order.py:67-112 | any interleaving: outside DRAFT items and total never change; terminal rows are never written again |
| `InterleavedPayments.PaymentsMatchTotals` | order-service/src/order_service/application/use_cases/order_use_cases.py:276-291 | any interleaving: every payment is for its order's total, no order has two, and no order has a recorded verdict without one |
| `InterleavedPayments.KeysAreUnique` | order-service/src/order_service/infrastructure/persistence/repositories.py:193-216 | any interleaving: no two payments are under one idempotency key |
| `InterleavedPayments.GuardsHold` | order-service/src/order_service/application/use_cases/order_use_cases.py:180-397 | any interleaving: no use case gets past a guard; an order is marked only after it was seen payable and its payment not open, a verdict is written only after a PENDING payment and a PAYMENT_PENDING order were seen |
| `DeadEnds.ClosedOrdersStay` | order-service/src/order_service/application/use_cases/order_use_cases.py:230-397 | any interleaving, replies and crashes: an order that is PAYMENT_PENDING or final, with no payment row PENDING and nothing in flight to pay, settle or restore it, keeps its payment rows and stays as it is or goes from PAYMENT_PENDING to CANCELLED |
| `DeadEnds.SpentOrdersAreNeverPaid` | order-service/src/order_service/application/use_cases/order_use_cases.py:245-291 | any interleaving: an order that is not PAID, whose payment is APPROVED or VOID and of which no callback, no voiding cancellation and no initiation that would reopen the payment is in flight, is never paid: a second payment is refused and the first not reopened |
| `Prospects.CanBePaidIff` | order-service/src/order_service/application/use_cases/order_use_cases.py:226-397 | from any state with nothing in flight that keeps what every interleaving keeps, some interleaving pays the order exactly if its rows show DRAFT, CONFIRMED, PAID, PAYMENT_PENDING with a PENDING payment, or PAYMENT_FAILED with a REJECTED or PENDING one; then one without a crash does |
| `Prospects.OpenFailedIsPaid` | order-service/src/order_service/application/use_cases/order_use_cases.py:197-200 | PAYMENT_FAILED with a PENDING payment is paid by a callback that read the payment before a cancellation voided it and the order after an initiation marked it |
| `Prospects.CrashStrands` | order-service/src/order_service/application/use_cases/order_use_cases.py:257-291 | from any such state with a payable order, paid for the first time or again, one crash, of an initiation after its first save, leaves PAYMENT_PENDING that can only be cancelled |
| `Prospects.CrashBetweenSavesStrands` | order-service/src/order_service/application/use_cases/order_use_cases.py:378-379 | one crash, of a callback between its two saves, leaves APPROVED on a PAYMENT_PENDING that can only be cancelled |
| `Prospects.StrandedOrdersAreReachable` | order-service/src/order_service/application/use_cases/order_use_cases.py:257-379 | all three are reachable by runs whose only crash is the last step: no payment row, a REJECTED one, an APPROVED one |
| `Prospects.RaceSplitsRows` | order-service/src/order_service/application/use_cases/order_use_cases.py:378-379 | from any quiet state with an order awaiting its verdict, a cancellation overtaking a callback leaves APPROVED on CANCELLED |
| `Prospects.CouplingIsSerialOnly` | order-service/src/order_service/infrastructure/persistence/repositories.py:193-216 | the coupling of serial runs fails in a reachable interleaving, since payment rows carry no version |
| `Prospects.FinalRowsStay` | order-service/src/order_service/application/use_cases/order_use_cases.py:180-397 | any interleaving, replies and crashes, from a quiet state with agreeing rows: order and payment rows of a PAID or CANCELLED order never change |
| `Prospects.RowsCanSplitIff` | order-service/src/order_service/infrastructure/persistence/repositories.py:193-216 | from any quiet state in which the rows of an order agree, some interleaving ends with rows that disagree exactly if the order is neither PAID nor CANCELLED; then one without a crash does |
| `Disagreements.PairsIff` | order-service/src/order_service/application/use_cases/order_use_cases.py:180-397 | from an order in DRAFT, with nothing in flight: exactly the pairs of order and payment status with no payment on DRAFT and CONFIRMED and with one on PAYMENT_FAILED and PAID are left behind by some interleaving, twenty in all |
| `TwoStepSave.LinearizableIff` | order-service/src/order_service/infrastructure/persistence/repositories.py:113-125 | with comparison and UPDATE as two accesses: the row is at all times a serial run of the operations written exactly if no write of it falls between a comparison and its own write |
| `TwoStepSave.FirstWriteIsLost` | order-service/src/order_service/infrastructure/persistence/repositories.py:113-125 | from any row two saves that both pass the comparison lose the first |
| `Creations.OneActiveIff` | order-service/src/order_service/application/use_cases/order_use_cases.py:43-54 | any interleaving: the customer has at most one active order at all times exactly if no creation inserts while an order of the customer inserted since its own has_active_order is active |
| `Creations.ApartMeansOneActive` | order-service/src/order_service/application/use_cases/order_use_cases.py:43-54 | in particular if creations for the customer never overlap |
| `Creations.SecondActiveIff` | order-service/src/order_service/infrastructure/persistence/repositories.py:157-173 | from any state with at most one active order, at most two inserts make a second exactly if two creations for the customer are both between has_active_order and save, or one waits with an answer that no longer holds |
| `Creations.TwoActiveOrdersAreReachable` | order-service/src/order_service/application/use_cases/order_use_cases.py:49-54 | two overlapping creations give a customer two active orders |
| `SerialAsInterleaving.SerialRunsAreInterleavings` | order-service/src/order_service/application/use_cases/order_use_cases.py:34-397 | every serial run ends with the orders and payments of some interleaving without crashes: the two layers model one program |
| `Paging.FindByOrderIds` | order-service/src/order_service/infrastructure/persistence/repositories.py:232-243 | maps exactly the given orders that have a payment to their payment |
| `Paging.ListOrders` | order-service/src/order_service/application/use_cases/order_use_cases.py:80-100 | sizes are clamped to 1..100, pages to 1 and up; total is the number of the customer's orders; the result is that page of them, each with its payment |
| `Paging.EachOrderIsOnOnePage` | order-service/src/order_service/infrastructure/persistence/repositories.py:136-155 | every order of the customer is on exactly one of the pages 1 to total_pages |
| `Paging.PageShape` | order-service/src/order_service/domain/ports/repositories.py:37-49 | no page up to the last is empty, only the last may be short, has_next exactly when the next page has items |
| `Paging.PagesMakeTheList` | order-service/src/order_service/infrastructure/persistence/repositories.py:136-155 | pages 1 to total_pages, one after another, are the list: no gap and no repeat |
| `AmountStorage.AmountsSurviveStorage` | order-service/src/order_service/infrastructure/persistence/repositories.py:48-74 | every amount of whole cents that Numeric(12,2) can hold comes back unchanged through binary64, a decimal text and the column |
| `AmountStorage.RoundingError` | order-service/src/order_service/infrastructure/persistence/repositories.py:60-74 | the rounding to binary64 is at most 2^-19 in that range |

## Left out

- Trusted outside TwoStepSave: the save of an order is one atomic compare-and-set on the stored row, as ADR-005 intends; the code's UPDATE does not carry the version, and LinearizableIff is what remains without the assumption. SQLAlchemy's session (identity map, isolation level, clearing and refilling the item rows) is not modelled.
- Serial properties are stated for use cases that run to a return or to a modelled exception; crashes in the middle are covered by the interleaved layer, for order and payment rows.
- The outbox and saga rows are not part of the interleaved layer; idempotency records are part of it for callbacks only, in Deliveries, and has_active_order in Creations. The early returns they cause elsewhere appear as flights that stop.
- Order items are values inside the order's list, so the aliasing of the returned OrderItem object is not modelled.
- Rows are loaded with items in stored order; that the total does not depend on it is Basket.SameBasketSameTotal.
- uuid4 is a counter that never repeats; SHA-256 is injective on the text that is hashed; supplied idempotency keys are non-empty.
- Gateways, customer and catalog services are arbitrary replies: each call returns or raises the domain error the code catches, prices arrive in whole cents, and retries are inside one reply. Notifications return normally and are not recorded.
- Event payloads are reduced to the order id; idempotency response bodies, which nothing reads, are dropped.
- Timestamps, currencies other than BRL, string formatting and Decimal context precision are dropped. A total that exceeds the column is not modelled.
- str.upper is taken on ASCII letters, which decides the comparison with APPROVED for every string.
- GetOrder and GetPayment, which only read, are left out as easy.
- Routers, authentication, rate limiting, problem details, serializers, metrics, tracing, configuration and migrations are left out: no deep property.
- Idempotency.InitiationReplays: makes no claim for a key used to reopen a rejected payment, because the code does not store it on the payment row; InitiationReplayIsHarmlessIff gives the exact condition.
