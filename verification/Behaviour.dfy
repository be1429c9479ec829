/**
 What each use case does to the database when it runs alone, as a function of the
 contents it finds and of the replies of the outside services. No outcome here is a
 Concurrency error, a broken unique constraint on payments or an order that refuses
 a callback: that the code, commit by commit, does exactly this and nothing else is
 proved in UseCases, from the invariant kept by every use case.
 */
module Behaviour {
  import opened Domain
  import opened Store

  datatype CustomerReply = CustomerError | Customer(status: string)
  datatype CatalogReply = CatalogError | Product(price: int, available: bool)
  datatype GatewayReply = GatewayError | Accepted(externalId: string)

  datatype Reply<T> = Reply(db: Db, outcome: Result<T>)

  predicate CustomerActive(c: CustomerReply) { c.Customer? && c.status == "ACTIVE" }

  predicate ProductAvailable(p: CatalogReply) { p.Product? && p.available }

  /** One order row written, with at most one payment row and one event for that order. */
  ghost function Commit(db: Db, o: OrderRow, p: Option<PaymentRow>, e: Option<Event>): Db {
    db.(orders := db.orders[o.id := o],
        payments := if p.Some? then db.payments[p.value.id := p.value] else db.payments,
        outbox := if e.Some? then db.outbox + [e.value] else db.outbox)
  }

  ghost function DrawId(db: Db): Db { db.(nextId := db.nextId + 1) }

  ghost function Create(db: Db, customerId: string, customer: CustomerReply): Reply<OrderRow> {
    if !CustomerActive(customer) then Reply(db, Err(CustomerValidation))
    else if HasActiveOrder(db.orders, customerId, None) then Reply(db, Err(ActiveOrderExists))
    else
      var o := NewOrder(db.nextId, customerId);
      Reply(Commit(DrawId(db), o, None, None), Ok(o))
  }

  ghost function AddItemToOrder(db: Db, orderId: Id, productId: string, quantity: int,
                                product: CatalogReply): Reply<OrderRow> {
    if orderId !in db.orders then Reply(db, Err(OrderNotFound))
    else if !ProductAvailable(product) then Reply(db, Err(CatalogValidation))
    else match AddItem(Bump(db.orders[orderId]), productId, quantity, db.nextId)
      case Err(e) => Reply(DrawId(db), Err(e))
      case Ok(o) => Reply(Commit(DrawId(db), o, None, None), Ok(o))
  }

  ghost function RemoveItemFromOrder(db: Db, orderId: Id, itemId: Id): Reply<OrderRow> {
    if orderId !in db.orders then Reply(db, Err(OrderNotFound))
    else match RemoveItem(Bump(db.orders[orderId]), itemId)
      case Err(e) => Reply(db, Err(if e == ItemNotInOrder then ItemNotFound else e))
      case Ok(o) => Reply(Commit(db, o, None, None), Ok(o))
  }

  // ---- Confirmation ----

  /** The i-th catalog call answers for the i-th item. */
  ghost predicate AllAvailable(n: nat, catalog: nat -> CatalogReply) {
    forall i: nat :: i < n ==> ProductAvailable(catalog(i))
  }

  /** The dictionary the price loop fills; a later reply for the same product replaces an earlier one. */
  ghost function Fetched(items: seq<OrderItem>, catalog: nat -> CatalogReply): map<string, int>
    requires AllAvailable(|items|, catalog)
  {
    if items == [] then map[]
    else
      var n := |items| - 1;
      Fetched(items[..n], catalog)[items[n].productId := catalog(n).price]
  }

  ghost function ConfirmBySaga(db: Db, orderId: Id, customer: CustomerReply, catalog: nat -> CatalogReply,
                               queue: bool): Reply<OrderRow> {
    var sagaId := db.nextId;
    var drawn := DrawId(db);
    if orderId !in db.orders then Reply(drawn, Err(OrderNotFound))
    else
      var o := db.orders[orderId];
      if !CustomerActive(customer) then
        Reply(PutSaga(drawn, sagaId, orderId, ValidateCustomer, Failed, Reason("customer_invalid")),
          Err(CustomerValidation))
      else if !AllAvailable(|o.items|, catalog) then
        Reply(PutSaga(drawn, sagaId, orderId, ValidateCatalog, Compensated, Action("keep_draft")),
          Err(CatalogValidation))
      else match ConfirmWithPrices(Bump(o), Fetched(o.items, catalog))
        case Err(e) => Reply(PutSaga(drawn, sagaId, orderId, ValidateCatalog, Running, Empty), Err(e))
        case Ok(o') =>
          var saved := PutSaga(drawn, sagaId, orderId, PersistConfirmed, Completed, TotalOf(o'.total));
          Reply(Commit(saved, o', None, Some(Event(OrderConfirmed, orderId, queue))), Ok(o'))
  }

  ghost function Recorded(db: Db, key: Option<string>, op: Operation): Option<Digest> {
    if key.Some? && (key.value, op) in db.idempotency then Some(db.idempotency[(key.value, op)]) else None
  }

  ghost function Record(db: Db, key: Option<string>, op: Operation, digest: Digest): Db {
    if key.Some? then db.(idempotency := db.idempotency[(key.value, op) := digest]) else db
  }

  ghost function Confirm(db: Db, orderId: Id, key: Option<string>, customer: CustomerReply,
                         catalog: nat -> CatalogReply, queue: bool): Reply<OrderRow> {
    var cached := Recorded(db, key, ConfirmOrder);
    if cached.Some? && cached.value != OrderDigest(orderId) then Reply(db, Err(IdempotencyConflict))
    else if cached.Some? && orderId in db.orders then Reply(db, Ok(db.orders[orderId]))
    else
      var r := ConfirmBySaga(db, orderId, customer, catalog, queue);
      if r.outcome.Ok? then r.(db := Record(r.db, key, ConfirmOrder, OrderDigest(orderId))) else r
  }

  // ---- Cancellation ----

  ghost function CancelWithPayment(db: Db, orderId: Id, reason: Option<string>, queue: bool): Reply<OrderRow> {
    if orderId !in db.orders then Reply(db, Err(OrderNotFound))
    else match Cancel(Bump(db.orders[orderId]), reason)
      case Err(e) => Reply(db, Err(e))
      case Ok(o) =>
        var p := PaymentOf(db.payments, orderId);
        var voided := if p.Some? && p.value.status == Pending then Some(p.value.(status := Void)) else None;
        Reply(Commit(db, o, voided, Some(Event(OrderCancelled, orderId, queue))), Ok(o))
  }

  // ---- Payments ----

  /** The payment row that an accepted initiation leaves: the rejected one reopened, or a new one. */
  ghost function OpenedPayment(db: Db, o: OrderRow, key: Option<string>, externalId: string): PaymentRow {
    match PaymentOf(db.payments, o.id)
    case Some(p) => p.(status := Pending, externalReference := Some(externalId))
    case None => PaymentRow(db.nextId, o.id, o.total, Pending, Some(externalId), key)
  }

  /** The part of initiation after its guards. A key that an earlier initiation recorded but that is on no
      payment row (the earlier one reopened a rejected payment) fails only when it is recorded again. */
  ghost function RequestPayment(db: Db, o: OrderRow, key: Option<string>, gateway: GatewayReply,
                                queue: bool): Reply<PaymentRow>
    requires MarkPaymentPending(Bump(o)).Ok?
  {
    match gateway
    case GatewayError => Reply(Commit(db, Bump(Bump(o)), None, None), Err(PaymentGateway))
    case Accepted(externalId) =>
      var pending := MarkPaymentPending(Bump(o)).value;
      var p := OpenedPayment(db, pending, key, externalId);
      var drawn := if p.id == db.nextId then DrawId(db) else db;
      var accepted := Commit(drawn, pending, Some(p), Some(Event(PaymentInitiated, o.id, queue)));
      if Recorded(db, key, InitiatePayment).Some? then Reply(accepted, Err(IntegrityError))
      else Reply(Record(accepted, key, InitiatePayment, OrderDigest(o.id)), Ok(p))
  }

  ghost function Initiate(db: Db, orderId: Id, key: Option<string>, gateway: GatewayReply,
                          queue: bool): Reply<PaymentRow> {
    var byKey := if key.Some? then PaymentByKey(db.payments, key.value) else None;
    var cached := Recorded(db, key, InitiatePayment);
    if byKey.Some? then Reply(db, Ok(byKey.value))
    else if cached.Some? && cached.value != OrderDigest(orderId) then Reply(db, Err(IdempotencyConflict))
    else if orderId !in db.orders then Reply(db, Err(OrderNotFound))
    else match MarkPaymentPending(Bump(db.orders[orderId]))
      case Err(e) => Reply(db, Err(e))
      case Ok(_) => RequestPayment(db, db.orders[orderId], key, gateway, queue)
  }

  function Upper(s: string): string {
    seq(|s|, i requires 0 <= i < |s| => if 'a' <= s[i] <= 'z' then s[i] - 'a' + 'A' else s[i])
  }

  /** The callback's verdict: anything but APPROVED, in any case, is a rejection. */
  predicate SaysApproved(status: string) { Upper(status) == "APPROVED" }

  /** What is hashed for a callback, after the payment id. */
  function CallbackBody(status: string, transactionId: string): string {
    status + ":" + transactionId
  }

  function Verdict(o: OrderRow, approved: bool): Result<OrderRow> {
    if approved then ApplyPaymentApproved(o) else ApplyPaymentRejected(o)
  }

  function SettledPayment(p: PaymentRow, approved: bool, transactionId: string): PaymentRow {
    if approved then p.(status := Approved, externalReference := Some(transactionId)) else p.(status := Rejected)
  }

  ghost function Callback(db: Db, paymentId: Id, status: string, transactionId: string, key: Option<string>,
                          queue: bool): Reply<PaymentRow> {
    var digest := CallbackDigest(paymentId, CallbackBody(status, transactionId));
    var cached := Recorded(db, key, PaymentCallback);
    if cached.Some? && cached.value != digest then Reply(db, Err(IdempotencyConflict))
    else if paymentId !in db.payments then Reply(db, Err(PaymentNotFound))
    else
      var p := db.payments[paymentId];
      if cached.Some? || p.status != Pending then Reply(db, Ok(p))
      else if p.orderId !in db.orders then Reply(db, Err(OrderNotFound))
      else
        var approved := SaysApproved(status);
        match Verdict(Bump(db.orders[p.orderId]), approved)
        case Err(e) => Reply(db, Err(e))
        case Ok(o) =>
          var p' := SettledPayment(p, approved, transactionId);
          var e := Event(if approved then PaymentApproved else PaymentRejected, o.id, queue);
          Reply(Record(Commit(db, o, Some(p'), Some(e)), key, PaymentCallback, digest), Ok(p'))
  }

  // ---- Serial runs ----

  datatype Command =
    | DoCreate(customerId: string, customer: CustomerReply)
    | DoAddItem(orderId: Id, productId: string, quantity: int, product: CatalogReply)
    | DoRemoveItem(orderId: Id, itemId: Id)
    | DoConfirm(orderId: Id, key: Option<string>, customer: CustomerReply, catalog: nat -> CatalogReply, queue: bool)
    | DoCancel(orderId: Id, reason: Option<string>, queue: bool)
    | DoInitiate(orderId: Id, key: Option<string>, gateway: GatewayReply, queue: bool)
    | DoCallback(paymentId: Id, status: string, transactionId: string, key: Option<string>, queue: bool)

  ghost function Exec(db: Db, c: Command): Db {
    match c
    case DoCreate(customerId, customer) => Create(db, customerId, customer).db
    case DoAddItem(o, p, q, product) => AddItemToOrder(db, o, p, q, product).db
    case DoRemoveItem(o, i) => RemoveItemFromOrder(db, o, i).db
    case DoConfirm(o, k, customer, catalog, queue) => Confirm(db, o, k, customer, catalog, queue).db
    case DoCancel(o, reason, queue) => CancelWithPayment(db, o, reason, queue).db
    case DoInitiate(o, k, gateway, queue) => Initiate(db, o, k, gateway, queue).db
    case DoCallback(p, status, txn, k, queue) => Callback(db, p, status, txn, k, queue).db
  }

  /** Use cases that run one after another, each to its return or its exception. */
  ghost function Run(db: Db, commands: seq<Command>): Db {
    if commands == [] then db else Exec(Run(db, commands[..|commands| - 1]), commands[|commands| - 1])
  }
}
