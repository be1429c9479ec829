/**
 What each use case answers and what it leaves in the database, on every path and in plain terms: no status set, no
 reply predicate and no domain operation of the model is named. Every reachable state satisfies what is required here.
 */
module Outcomes {
  import opened Domain
  import opened Store
  import opened Behaviour
  import opened Invariant
  import opened Preservation
  import Basket
  import SerialRuns

  // ---- Creation ----

  /** All orders of the customer are over. */
  ghost predicate AllOver(db: Db, customerId: string) {
    forall o :: o in db.orders && db.orders[o].customerId == customerId ==> db.orders[o].status in {Paid, Cancelled}
  }

  lemma ActiveStatusIff(status: OrderStatus)
    ensures status in ACTIVE_ORDER_STATUSES <==> status !in {Paid, Cancelled}
  {
    match status
    case Draft =>
    case Confirmed =>
    case PaymentPending =>
    case PaymentFailed =>
    case Paid =>
    case Cancelled =>
  }

  /** Active is what is neither paid nor cancelled. */
  lemma ActiveIff(orders: map<Id, OrderRow>, customerId: string, exclude: Option<Id>)
    ensures HasActiveOrder(orders, customerId, exclude) <==>
      exists o :: o in orders && orders[o].customerId == customerId && orders[o].status !in {Paid, Cancelled}
               && exclude != Some(o)
  {
    forall o | o in orders
      ensures orders[o].status in ACTIVE_ORDER_STATUSES <==> orders[o].status !in {Paid, Cancelled}
    {
      ActiveStatusIff(orders[o].status);
    }
  }

  /** A customer can order exactly if the service calls him ACTIVE and his earlier orders are over. */
  lemma CreationIff(db: Db, customerId: string, customer: CustomerReply)
    requires Keyed(db)
    ensures var r := Create(db, customerId, customer);
      && (r.outcome.Ok? <==> customer == Customer("ACTIVE") && AllOver(db, customerId))
      && (r.outcome.Err? ==>
            && r.db == db
            && r.outcome.error == if customer == Customer("ACTIVE") then ActiveOrderExists else CustomerValidation)
      && (r.outcome.Ok? ==>
            var o := r.outcome.value;
            && o.id !in db.orders && o == OrderRow(o.id, customerId, Draft, [], 0, 0, 1, None)
            && r.db == db.(orders := db.orders[o.id := o], nextId := r.db.nextId))
  {
    ActiveIff(db.orders, customerId, None);
  }

  // ---- Editing ----

  /** Nothing but the items and the version of one order has changed. */
  ghost predicate OnlyItems(db: Db, db': Db, o: Id) {
    && o in db.orders && o in db'.orders
    && db'.orders[o] == db.orders[o].(items := db'.orders[o].items, version := db.orders[o].version + 1)
    && db' == db.(orders := db.orders[o := db'.orders[o]], nextId := db'.nextId)
  }

  /** Exactly `quantity` of the product is added. */
  lemma AdditionIff(db: Db, orderId: Id, productId: string, quantity: int, product: CatalogReply)
    requires Keyed(db)
    ensures var r := AddItemToOrder(db, orderId, productId, quantity, product);
      && (r.outcome.Ok? <==>
            && orderId in db.orders && product.Product? && product.available
            && db.orders[orderId].status == Draft && quantity > 0)
      && (r.outcome.Err? ==>
            && r.db == db.(nextId := r.db.nextId)
            && r.outcome.error ==
                 if orderId !in db.orders then OrderNotFound
                 else if product.CatalogError? || !product.available then CatalogValidation
                 else if db.orders[orderId].status != Draft then InvalidOrderState
                 else ValueError)
      && (r.outcome.Ok? ==>
            && OnlyItems(db, r.db, orderId) && r.outcome.value == r.db.orders[orderId]
            && Basket.MoreOf(db.orders[orderId].items, r.db.orders[orderId].items, productId, quantity)
            && Basket.LinesKept(db.orders[orderId].items, r.db.orders[orderId].items, productId))
  {
    if orderId in db.orders && quantity > 0 {
      Basket.AddLineAdds(db.orders[orderId].items, productId, quantity, db.nextId);
    }
  }

  /** Exactly the line with the id is gone. */
  lemma RemovalIff(db: Db, orderId: Id, itemId: Id)
    requires Keyed(db) && (orderId in db.orders ==> Basket.WellFormed(db.orders[orderId].items))
    ensures var r := RemoveItemFromOrder(db, orderId, itemId);
      && (r.outcome.Ok? <==>
            && orderId in db.orders && db.orders[orderId].status == Draft
            && exists i :: 0 <= i < |db.orders[orderId].items| && db.orders[orderId].items[i].id == itemId)
      && (r.outcome.Err? ==>
            && r.db == db
            && r.outcome.error ==
                 if orderId !in db.orders then OrderNotFound
                 else if db.orders[orderId].status != Draft then InvalidOrderState
                 else ItemNotFound)
      && (r.outcome.Ok? ==>
            && OnlyItems(db, r.db, orderId) && r.outcome.value == r.db.orders[orderId]
            && Basket.WithoutLine(db.orders[orderId].items, r.db.orders[orderId].items, itemId))
  {
    if orderId in db.orders && HasItem(db.orders[orderId].items, itemId) {
      Basket.RemoveLineRemoves(db.orders[orderId].items, itemId);
    }
  }

  // ---- Confirmation ----

  ghost predicate Usable(items: seq<OrderItem>, catalog: nat -> CatalogReply) {
    forall i: nat :: i < |items| ==> catalog(i).Product? && catalog(i).available
  }

  ghost predicate NothingNegative(items: seq<OrderItem>, catalog: nat -> CatalogReply)
    requires Usable(items, catalog)
  {
    forall i: nat :: i < |items| ==> catalog(i).price >= 0
  }

  /** What is wrong with a confirmation, in the order in which the saga looks. */
  ghost function Fault(db: Db, orderId: Id, customer: CustomerReply, catalog: nat -> CatalogReply): Option<Error> {
    if orderId !in db.orders then Some(OrderNotFound)
    else if customer != Customer("ACTIVE") then Some(CustomerValidation)
    else if !Usable(db.orders[orderId].items, catalog) then Some(CatalogValidation)
    else if db.orders[orderId].status != Draft || db.orders[orderId].items == [] then Some(InvalidOrderState)
    else if !NothingNegative(db.orders[orderId].items, catalog) then Some(ValueError)
    else None
  }

  /** Line i costs what reply i said, and the total is the sum. */
  ghost predicate PricedBy(o: OrderRow, o': OrderRow, catalog: nat -> CatalogReply) {
    && Usable(o.items, catalog) && NothingNegative(o.items, catalog)
    && o' == o.(items := o'.items, total := SumOfItems(o'.items), status := Confirmed, version := o.version + 1)
    && |o'.items| == |o.items|
    && forall i :: 0 <= i < |o.items| ==> o'.items[i] == o.items[i].(unitPrice := Some(catalog(i).price))
  }

  lemma SagaOutcome(db: Db, orderId: Id, customer: CustomerReply, catalog: nat -> CatalogReply, queue: bool)
    requires Keyed(db) && (orderId in db.orders ==> Basket.WellFormed(db.orders[orderId].items))
    ensures var r, fault := ConfirmBySaga(db, orderId, customer, catalog, queue), Fault(db, orderId, customer, catalog);
      && (fault.Some? ==>
            && r.outcome == Err(fault.value)
            && r.db == db.(sagas := r.db.sagas, nextId := r.db.nextId))
      && (fault.None? ==>
            && r.outcome.Ok? && PricedBy(db.orders[orderId], r.outcome.value, catalog)
            && r.db == db.(orders := db.orders[orderId := r.outcome.value], sagas := r.db.sagas,
                           outbox := db.outbox + [Event(OrderConfirmed, orderId, queue)], nextId := r.db.nextId))
  {
    if orderId in db.orders {
      var o := db.orders[orderId];
      assert AllAvailable(|o.items|, catalog) <==> Usable(o.items, catalog);
      if Usable(o.items, catalog) {
        SerialRuns.PricesOfConfirmation(o, catalog);
        assert SerialRuns.AllAffordable(o.items, catalog) <==> NothingNegative(o.items, catalog);
      }
    }
  }

  /** What the saga row says of the attempt. */
  lemma SagaRowTells(db: Db, orderId: Id, customer: CustomerReply, catalog: nat -> CatalogReply, queue: bool)
    requires Keyed(db) && (orderId in db.orders ==> Basket.WellFormed(db.orders[orderId].items))
    ensures var r, fault := ConfirmBySaga(db, orderId, customer, catalog, queue), Fault(db, orderId, customer, catalog);
      if fault == Some(OrderNotFound) then r.db.sagas == db.sagas
      else
        && orderId in r.db.sagas && r.db.sagas == db.sagas[orderId := r.db.sagas[orderId]]
        && (orderId in db.sagas ==> r.db.sagas[orderId].id == db.sagas[orderId].id)
        && var row := r.db.sagas[orderId];
        match fault
        case None =>
          row.step == PersistConfirmed && row.status == Completed && row.payload == TotalOf(r.outcome.value.total)
        case Some(CustomerValidation) =>
          row.step == ValidateCustomer && row.status == Failed && row.payload == Reason("customer_invalid")
        case Some(CatalogValidation) =>
          row.step == ValidateCatalog && row.status == Compensated && row.payload == Action("keep_draft")
        case Some(_) => row.step == ValidateCatalog && row.status == Running && row.payload == Empty
  {
    SagaOutcome(db, orderId, customer, catalog, queue);
  }

  /** A confirmation whose key is not recorded is the saga, and records the key exactly if that succeeds. */
  lemma ConfirmationIff(db: Db, orderId: Id, key: Option<string>, customer: CustomerReply,
                        catalog: nat -> CatalogReply, queue: bool)
    requires Keyed(db) && (orderId in db.orders ==> Basket.WellFormed(db.orders[orderId].items))
    requires key.Some? ==> (key.value, ConfirmOrder) !in db.idempotency
    ensures var r, fault := Confirm(db, orderId, key, customer, catalog, queue), Fault(db, orderId, customer, catalog);
      && (fault.Some? ==>
            && r.outcome == Err(fault.value)
            && r.db == db.(sagas := r.db.sagas, nextId := r.db.nextId))
      && (fault.None? ==>
            && r.outcome.Ok? && PricedBy(db.orders[orderId], r.outcome.value, catalog)
            && r.db == db.(orders := db.orders[orderId := r.outcome.value], sagas := r.db.sagas,
                           outbox := db.outbox + [Event(OrderConfirmed, orderId, queue)],
                           idempotency := r.db.idempotency, nextId := r.db.nextId)
            && r.db.idempotency ==
                 if key.Some? then db.idempotency[(key.value, ConfirmOrder) := OrderDigest(orderId)]
                 else db.idempotency)
  {
    SagaOutcome(db, orderId, customer, catalog, queue);
  }

  // ---- Cancellation ----

  /** An order can be cancelled exactly until it is over; a payment that waits for its verdict is voided with it. */
  lemma CancellationIff(db: Db, orderId: Id, reason: Option<string>, queue: bool)
    requires RowsAgree(db)
    ensures var r := CancelWithPayment(db, orderId, reason, queue);
      && (r.outcome.Ok? <==> orderId in db.orders && db.orders[orderId].status !in {Paid, Cancelled})
      && (r.outcome.Err? ==>
            && r.db == db
            && r.outcome.error == if orderId in db.orders then InvalidOrderState else OrderNotFound)
      && (r.outcome.Ok? ==>
            var o := db.orders[orderId];
            && r.outcome.value == o.(status := Cancelled, reason := reason, version := o.version + 1)
            && r.db == db.(orders := db.orders[orderId := r.outcome.value], payments := r.db.payments,
                           outbox := db.outbox + [Event(OrderCancelled, orderId, queue)])
            && r.db.payments.Keys == db.payments.Keys
            && forall p :: p in db.payments ==>
                 r.db.payments[p] ==
                   if db.payments[p].orderId == orderId && db.payments[p].status == Pending
                   then db.payments[p].(status := Void) else db.payments[p])
  {
    if orderId in db.orders {
      forall p | p in db.payments && db.payments[p].orderId == orderId
        ensures PaymentOf(db.payments, orderId) == Some(db.payments[p])
      {
        PaymentOfKey(db, p);
      }
    }
  }

  // ---- Initiation ----

  ghost predicate KeyOnRow(db: Db, key: Option<string>) {
    key.Some? && exists p :: p in db.payments && db.payments[p].idempotencyKey == key
  }

  /** The key neither answers nor speaks against this order. */
  ghost predicate KeyPasses(db: Db, orderId: Id, key: Option<string>) {
    && !KeyOnRow(db, key)
    && (key.Some? && (key.value, InitiatePayment) in db.idempotency ==>
          db.idempotency[(key.value, InitiatePayment)] == OrderDigest(orderId))
  }

  lemma KeyOnRowIff(db: Db, key: Option<string>)
    ensures KeyOnRow(db, key) <==> key.Some? && PaymentByKey(db.payments, key.value).Some?
  {
  }

  /** Every ending of an initiation but the gateway's acceptance. */
  lemma InitiationAnswers(db: Db, orderId: Id, key: Option<string>, gateway: GatewayReply, queue: bool)
    requires RowsAgree(db)
    ensures var r := Initiate(db, orderId, key, gateway, queue);
      && (forall p :: p in db.payments && key.Some? && db.payments[p].idempotencyKey == key ==>
            r == Reply(db, Ok(db.payments[p])))
      && (!KeyOnRow(db, key) && !KeyPasses(db, orderId, key) ==> r == Reply(db, Err(IdempotencyConflict)))
      && (KeyPasses(db, orderId, key) && orderId !in db.orders ==> r == Reply(db, Err(OrderNotFound)))
      && (KeyPasses(db, orderId, key) && orderId in db.orders ==>
            var o := db.orders[orderId];
            && (o.status !in {Confirmed, PaymentFailed} ==> r == Reply(db, Err(InvalidOrderState)))
            && (o.status in {Confirmed, PaymentFailed} && gateway.GatewayError? ==>
                  r == Reply(db.(orders := db.orders[orderId := o.(version := o.version + 2)]), Err(PaymentGateway))))
  {
    KeyOnRowIff(db, key);
  }

  /** An accepted initiation: the order waits, its payment is for its total, one event, and the key is recorded. */
  lemma InitiationOpens(db: Db, orderId: Id, key: Option<string>, reference: string, queue: bool)
    returns (p: PaymentRow)
    requires RowsAgree(db) && KeyPasses(db, orderId, key)
    requires orderId in db.orders && db.orders[orderId].status in {Confirmed, PaymentFailed}
    ensures db.orders[orderId].status == Confirmed ==>
      p.id !in db.payments && p == PaymentRow(p.id, orderId, db.orders[orderId].total, Pending, Some(reference), key)
    ensures db.orders[orderId].status == PaymentFailed ==>
      && p.id in db.payments && db.payments[p.id].orderId == orderId
      && p == db.payments[p.id].(status := Pending, externalReference := Some(reference))
    ensures var r, o := Initiate(db, orderId, key, Accepted(reference), queue), db.orders[orderId];
      var recorded := key.Some? && (key.value, InitiatePayment) in db.idempotency;
      && r.outcome == (if recorded then Err(IntegrityError) else Ok(p))
      && r.db == db.(orders := db.orders[orderId := o.(status := PaymentPending, version := o.version + 1)],
                     payments := db.payments[p.id := p],
                     outbox := db.outbox + [Event(PaymentInitiated, orderId, queue)],
                     idempotency := r.db.idempotency, nextId := r.db.nextId)
      && r.db.idempotency ==
           if key.Some? && !recorded then db.idempotency[(key.value, InitiatePayment) := OrderDigest(orderId)]
           else db.idempotency
  {
    KeyOnRowIff(db, key);
    var o := db.orders[orderId];
    assert Coupled(LifeOfRows(o, PaymentOf(db.payments, orderId)));
    p := OpenedPayment(db, MarkPaymentPending(Bump(o)).value, key, reference);
  }

  // ---- Callbacks ----

  /** The eight letters of APPROVED, each in either case. */
  predicate SpellsApproved(s: string) {
    && |s| == 8
    && s[0] in {'A', 'a'} && s[1] in {'P', 'p'} && s[2] in {'P', 'p'} && s[3] in {'R', 'r'}
    && s[4] in {'O', 'o'} && s[5] in {'V', 'v'} && s[6] in {'E', 'e'} && s[7] in {'D', 'd'}
  }

  lemma ApprovedSpells(s: string)
    requires SaysApproved(s)
    ensures SpellsApproved(s)
  {
    var u := Upper(s);
    assert |s| == 8;
    assert u[0] == 'A' && u[1] == 'P' && u[2] == 'P' && u[3] == 'R';
    assert u[4] == 'O' && u[5] == 'V' && u[6] == 'E' && u[7] == 'D';
  }

  lemma ApprovedIff(s: string)
    ensures SaysApproved(s) <==> SpellsApproved(s)
  {
    if SaysApproved(s) {
      ApprovedSpells(s);
    }
    if SpellsApproved(s) {
      assert Upper(s) == "APPROVED";
    }
  }

  ghost predicate CallbackRecorded(db: Db, key: Option<string>) {
    key.Some? && (key.value, PaymentCallback) in db.idempotency
  }

  /** The key is recorded for another payload. */
  ghost predicate SpeaksAgainst(db: Db, paymentId: Id, status: string, transactionId: string, key: Option<string>) {
    && CallbackRecorded(db, key)
    && db.idempotency[(key.value, PaymentCallback)] != CallbackDigest(paymentId, status + ":" + transactionId)
  }

  /** Every ending of a callback but a first verdict: the database stays as it is. */
  lemma CallbackAnswers(db: Db, paymentId: Id, status: string, transactionId: string, key: Option<string>, queue: bool)
    requires RowsAgree(db)
    ensures var r := Callback(db, paymentId, status, transactionId, key, queue);
      if SpeaksAgainst(db, paymentId, status, transactionId, key) then r == Reply(db, Err(IdempotencyConflict))
      else if paymentId !in db.payments then r == Reply(db, Err(PaymentNotFound))
      else if CallbackRecorded(db, key) || db.payments[paymentId].status != Pending then
        r == Reply(db, Ok(db.payments[paymentId]))
      else r.outcome.Ok?
  {
    if paymentId in db.payments && db.payments[paymentId].status == Pending {
      PendingAwaits(db, paymentId);
    }
  }

  lemma PendingAwaits(db: Db, paymentId: Id)
    requires RowsAgree(db) && paymentId in db.payments && db.payments[paymentId].status == Pending
    ensures var o := db.payments[paymentId].orderId;
      && o in db.orders && db.orders[o].id == o && db.orders[o].status == PaymentPending && db.orders[o].attempts <= 2
      && db.payments[paymentId].id == paymentId
  {
    var o := db.payments[paymentId].orderId;
    PaymentOfKey(db, paymentId);
    assert Coupled(LifeOfRows(db.orders[o], PaymentOf(db.payments, o)));
  }

  /** What a verdict makes of the order that awaits it. */
  function Judged(o: OrderRow, approved: bool): OrderRow {
    if approved then o.(status := Paid, version := o.version + 1)
    else if o.attempts < 2 then o.(status := PaymentFailed, attempts := o.attempts + 1, version := o.version + 1)
    else
      o.(status := Cancelled, attempts := 3, version := o.version + 1,
         reason := Some("Auto-cancelled after 3 payment rejections"))
  }

  lemma JudgedIff(o: OrderRow, approved: bool)
    requires o.status == PaymentPending && o.attempts <= 2
    ensures Verdict(Bump(o), approved) == Ok(Judged(o, approved)) && Judged(o, approved).id == o.id
  {
  }

  /** A first verdict: both rows, one event, and the key is recorded. */
  lemma CallbackSettles(db: Db, paymentId: Id, status: string, transactionId: string, key: Option<string>, queue: bool)
    requires RowsAgree(db) && !CallbackRecorded(db, key)
    requires paymentId in db.payments && db.payments[paymentId].status == Pending
    ensures var r, p := Callback(db, paymentId, status, transactionId, key, queue), db.payments[paymentId];
      var p' := if SpellsApproved(status) then p.(status := Approved, externalReference := Some(transactionId))
                else p.(status := Rejected);
      var kind := if SpellsApproved(status) then PaymentApproved else PaymentRejected;
      && p.orderId in db.orders && r.outcome == Ok(p')
      && r.db == db.(orders := db.orders[p.orderId := Judged(db.orders[p.orderId], SpellsApproved(status))],
                     payments := db.payments[paymentId := p'],
                     outbox := db.outbox + [Event(kind, p.orderId, queue)],
                     idempotency := r.db.idempotency)
      && r.db.idempotency ==
           if key.Some?
           then db.idempotency[(key.value, PaymentCallback) := CallbackDigest(paymentId, status + ":" + transactionId)]
           else db.idempotency
  {
    ApprovedIff(status);
    PendingAwaits(db, paymentId);
    JudgedIff(db.orders[db.payments[paymentId].orderId], SpellsApproved(status));
  }

  /** A callback delivered twice in a row, with a key or without: the second changes nothing and answers the same. */
  lemma CallbackTwice(db: Db, paymentId: Id, status: string, transactionId: string, key: Option<string>, queue: bool,
                      queue': bool)
    requires RowsAgree(db)
    ensures var r := Callback(db, paymentId, status, transactionId, key, queue);
      Callback(r.db, paymentId, status, transactionId, key, queue') == Reply(r.db, r.outcome)
  {
    CallbackAnswers(db, paymentId, status, transactionId, key, queue);
    if paymentId in db.payments && db.payments[paymentId].status == Pending && !CallbackRecorded(db, key) {
      CallbackSettles(db, paymentId, status, transactionId, key, queue);
    }
  }
}
