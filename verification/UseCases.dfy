/**
 The use cases as the code runs them: rows are read into entities, the entities are
 changed, and each table is committed on its own. Run alone, each does what Behaviour
 says and keeps the invariant. An `assert` on a repository's or an entity's result
 proves that the exception it stands for is not raised in a serial run.
 */
module UseCases {
  import opened Domain
  import opened Entities
  import opened Store
  import opened Behaviour
  import opened Invariant
  import opened Preservation
  import Saga

  predicate PaymentOutcome(r: Result<Payment>, expected: Result<PaymentRow>)
    reads if r.Ok? then {r.value} else {}
  {
    match r
    case Ok(p) => expected == Ok(p.Value())
    case Err(e) => expected == Err(e)
  }

  // ---- What the coupling tells the payment use cases ----

  lemma PendingPaymentAwaitsVerdict(db: Db, paymentId: Id)
    requires RowsAgree(db) && paymentId in db.payments && db.payments[paymentId].status == Pending
    ensures var o := db.payments[paymentId].orderId;
      o in db.orders && db.orders[o].id == o && db.orders[o].status == PaymentPending
  {
    PaymentOfKey(db, paymentId);
    var o := db.payments[paymentId].orderId;
    assert Coupled(LifeOfRows(db.orders[o], PaymentOf(db.payments, o)));
  }

  // ---- Orders ----

  method CreateOrder(db: Database, customerId: string, customer: CustomerReply) returns (r: Result<Order>)
    requires RowsAgree(db.Contents())
    modifies db
    ensures db.Contents() == Create(old(db.Contents()), customerId, customer).db
    ensures Saga.OrderOutcome(r, Create(old(db.Contents()), customerId, customer).outcome)
  {
    if !CustomerActive(customer) {
      return Err(CustomerValidation);
    }
    var exists_ := db.ActiveOrderExists(customerId, None);
    if exists_ {
      return Err(ActiveOrderExists);
    }
    var id := db.NewId();
    var order := new Order.FromRow(NewOrder(id, customerId));
    var saved := db.SaveOrder(order);
    assert saved.Ok?;
    r := Ok(order);
  }

  method AddItemToOrder(db: Database, orderId: Id, productId: string, quantity: int, product: CatalogReply)
    returns (r: Result<Order>)
    requires RowsAgree(db.Contents())
    modifies db
    ensures db.Contents() == Behaviour.AddItemToOrder(old(db.Contents()), orderId, productId, quantity, product).db
    ensures var expected := Behaviour.AddItemToOrder(old(db.Contents()), orderId, productId, quantity, product).outcome;
      Saga.OrderOutcome(r, expected)
  {
    var order := db.GetOrder(orderId);
    if order == null {
      return Err(OrderNotFound);
    }
    if !ProductAvailable(product) {
      return Err(CatalogValidation);
    }
    order.BumpVersion();
    var newId := db.NewId();
    var added := order.AddItem(productId, quantity, newId);
    if added.Err? {
      return Err(added.error);
    }
    var saved := db.SaveOrder(order);
    assert saved.Ok?;
    r := Ok(order);
  }

  method RemoveItemFromOrder(db: Database, orderId: Id, itemId: Id) returns (r: Result<Order>)
    requires RowsAgree(db.Contents())
    modifies db
    ensures db.Contents() == Behaviour.RemoveItemFromOrder(old(db.Contents()), orderId, itemId).db
    ensures Saga.OrderOutcome(r, Behaviour.RemoveItemFromOrder(old(db.Contents()), orderId, itemId).outcome)
  {
    var order := db.GetOrder(orderId);
    if order == null {
      return Err(OrderNotFound);
    }
    order.BumpVersion();
    var removed := order.RemoveItem(itemId);
    if removed.Err? {
      return Err(if removed.error == ItemNotInOrder then ItemNotFound else removed.error);
    }
    var saved := db.SaveOrder(order);
    assert saved.Ok?;
    r := Ok(order);
  }

  method ConfirmOrder(db: Database, orderId: Id, key: Option<string>, customer: CustomerReply,
                      catalog: nat -> CatalogReply, queue: bool) returns (r: Result<Order>)
    requires RowsAgree(db.Contents())
    modifies db
    ensures db.Contents() == Confirm(old(db.Contents()), orderId, key, customer, catalog, queue).db
    ensures Saga.OrderOutcome(r, Confirm(old(db.Contents()), orderId, key, customer, catalog, queue).outcome)
  {
    if key.Some? {
      var cached := db.GetRecord(key.value, Operation.ConfirmOrder);
      if cached.Some? {
        if cached.value != OrderDigest(orderId) {
          return Err(IdempotencyConflict);
        }
        var cachedOrder := db.GetOrder(orderId);
        if cachedOrder != null {
          return Ok(cachedOrder);
        }
      }
    }
    r := Saga.Confirm(db, orderId, customer, catalog, queue);
    if r.Ok? && key.Some? {
      var recorded := db.SaveRecord(key.value, Operation.ConfirmOrder, OrderDigest(orderId));
      assert recorded.Ok?;
    }
  }

  method VoidOpenPayment(db: Database, orderId: Id)
    requires PaymentConstraints(db.payments, db.orders)
    modifies db`payments
    ensures var p := PaymentOf(old(db.payments), orderId);
      db.payments ==
        if p.Some? && p.value.status == Pending then old(db.payments)[p.value.id := p.value.(status := Void)]
        else old(db.payments)
  {
    var payment := db.GetPaymentByOrder(orderId);
    if payment != null && payment.status == Pending {
      payment.VoidPayment();
      var voided := db.SavePayment(payment);
      assert voided.Ok?;
    }
  }

  /** What a cancellation amounts to; an order that refuses has no payment to void. */
  lemma Cancelling(db: Db, orderId: Id, reason: Option<string>, queue: bool)
    requires RowsAgree(db) && orderId in db.orders
    ensures var o, p := db.orders[orderId], PaymentOf(db.payments, orderId);
      var r := CancelWithPayment(db, orderId, reason, queue);
      var open := p.Some? && p.value.status == Pending;
      && o.id == orderId
      && (o.status in {Paid, Cancelled} ==> !open && r == Reply(db, Err(InvalidOrderState)))
      && (o.status !in {Paid, Cancelled} ==>
            r == Reply(db.(orders := db.orders[orderId := Bump(o).(status := Cancelled, reason := reason)],
                           payments := if open then db.payments[p.value.id := p.value.(status := Void)]
                                       else db.payments,
                           outbox := db.outbox + [Event(OrderCancelled, orderId, queue)]),
                       Ok(Bump(o).(status := Cancelled, reason := reason))))
  {
    assert Coupled(LifeOfRows(db.orders[orderId], PaymentOf(db.payments, orderId)));
  }

  /** VOID is committed before the order is asked whether it can be cancelled; yet an order that cannot is left as
      it was. */
  method CancelOrder(db: Database, orderId: Id, reason: Option<string>, queue: bool) returns (r: Result<Order>)
    requires RowsAgree(db.Contents())
    modifies db
    ensures db.Contents() == CancelWithPayment(old(db.Contents()), orderId, reason, queue).db
    ensures Saga.OrderOutcome(r, CancelWithPayment(old(db.Contents()), orderId, reason, queue).outcome)
  {
    var order := db.GetOrder(orderId);
    if order == null {
      return Err(OrderNotFound);
    }
    Cancelling(db.Contents(), orderId, reason, queue);
    VoidOpenPayment(db, orderId);
    order.BumpVersion();
    var cancelled := order.Cancel(reason);
    if cancelled.Err? {
      return Err(cancelled.error);
    }
    var saved := db.SaveOrder(order);
    assert saved.Ok?;
    db.Publish(OrderCancelled, orderId, queue);
    r := Ok(order);
  }

  // ---- Payments ----

  /** The `except PaymentGatewayError` branch. */
  method RollBack(db: Database, orderId: Id, previousStatus: OrderStatus)
    requires orderId in db.orders && db.orders[orderId].id == orderId && db.orders[orderId].status == PaymentPending
    modifies db`orders
    ensures db.orders == old(db.orders)[orderId := Bump(old(db.orders)[orderId]).(status := previousStatus)]
  {
    var order := db.GetOrder(orderId);
    if order != null && order.status == PaymentPending {
      order.BumpVersion();
      order.status := previousStatus;
      var saved := db.SaveOrder(order);
      assert saved.Ok?;
    }
  }

  /** Reopen the rejected payment, or insert the order's first one: no unique constraint is broken. */
  method OpenPayment(db: Database, order: Order, existing: Payment?, key: Option<string>, externalId: string)
    returns (payment: Payment)
    requires PaymentConstraints(db.payments, db.orders) && order.id in db.orders
    requires PaymentOf(db.payments, order.id) == if existing == null then None else Some(existing.Value())
    requires existing != null ==> existing.status == Rejected
    requires key.Some? ==> PaymentByKey(db.payments, key.value).None?
    requires db.nextId !in db.payments
    modifies db`payments, db`nextId, existing
    ensures payment.Value() == OpenedPayment(old(db.Contents()), old(order.Value()), key, externalId)
    ensures db.Contents() == old(db.Contents()).(payments := old(db.payments)[payment.id := payment.Value()],
      nextId := old(db.nextId) + if existing == null then 1 else 0)
  {
    if existing != null && existing.status == Rejected {
      payment := existing;
      var reopened := payment.Reinitiate(externalId);
      assert reopened.Ok?;
    } else {
      var id := db.NewId();
      payment := new Payment.FromRow(PaymentRow(id, order.id, order.total, Pending, Some(externalId), key));
    }
    var saved := db.SavePayment(payment);
    assert saved.Ok?;
  }

  /** From the gateway's acceptance on: the payment, its event and the record of the key. */
  method Accept(db: Database, order: Order, existing: Payment?, key: Option<string>, externalId: string, queue: bool)
    returns (r: Result<Payment>)
    requires PaymentConstraints(db.payments, db.orders) && order.id in db.orders
    requires PaymentOf(db.payments, order.id) == if existing == null then None else Some(existing.Value())
    requires existing != null ==> existing.status == Rejected
    requires key.Some? ==> PaymentByKey(db.payments, key.value).None?
    requires db.nextId !in db.payments
    modifies db`payments, db`nextId, db`outbox, db`idempotency, existing
    ensures var before, p := old(db.Contents()), OpenedPayment(old(db.Contents()), old(order.Value()), key, externalId);
      var paid := before.(payments := before.payments[p.id := p],
                          outbox := before.outbox + [Event(PaymentInitiated, order.id, queue)],
                          nextId := before.nextId + if p.id == before.nextId then 1 else 0);
      if Recorded(before, key, Operation.InitiatePayment).Some? then r == Err(IntegrityError) && db.Contents() == paid
      else && r.Ok? && r.value.Value() == p
           && db.Contents() == Record(paid, key, Operation.InitiatePayment, OrderDigest(order.id))
  {
    var payment := OpenPayment(db, order, existing, key, externalId);
    db.Publish(PaymentInitiated, order.id, queue);
    if key.Some? {
      var recorded := db.SaveRecord(key.value, Operation.InitiatePayment, OrderDigest(order.id));
      if recorded.Err? {
        return Err(recorded.error);
      }
    }
    r := Ok(payment);
  }

  method RequestPayment(db: Database, order: Order, existing: Payment?, key: Option<string>, gateway: GatewayReply,
                        queue: bool)
    returns (r: Result<Payment>)
    requires PaymentConstraints(db.payments, db.orders) && db.nextId !in db.payments
    requires order.id in db.orders && db.orders[order.id] == order.Value()
    requires order.status in {Confirmed, PaymentFailed}
    requires PaymentOf(db.payments, order.id) == if existing == null then None else Some(existing.Value())
    requires existing != null ==> existing.status == Rejected
    requires key.Some? ==> PaymentByKey(db.payments, key.value).None?
    modifies db, order, existing
    ensures db.Contents() == Behaviour.RequestPayment(old(db.Contents()), old(order.Value()), key, gateway, queue).db
    ensures var expected := Behaviour.RequestPayment(old(db.Contents()), old(order.Value()), key, gateway, queue);
      PaymentOutcome(r, expected.outcome)
  {
    ghost var before := db.Contents();
    var previousStatus := order.status;
    order.BumpVersion();
    var marked := order.MarkPaymentPending();
    assert marked.Ok?;
    var saved := db.SaveOrder(order);
    assert saved.Ok?;

    if gateway.GatewayError? {
      RollBack(db, order.id, previousStatus);
      assert db.orders == before.orders[order.id := Bump(Bump(old(order.Value())))];
      return Err(PaymentGateway);
    }

    r := Accept(db, order, existing, key, gateway.externalId, queue);
  }

  /** Past the guards an initiation only has the gateway left to ask. */
  lemma PayableAndNotPaidFor(db: Db, orderId: Id, key: Option<string>, gateway: GatewayReply, queue: bool)
    requires RowsAgree(db) && orderId in db.orders && db.orders[orderId].status in {Confirmed, PaymentFailed}
    requires key.Some? ==> PaymentByKey(db.payments, key.value).None?
    requires var cached := Recorded(db, key, Operation.InitiatePayment);
      cached.Some? ==> cached.value == OrderDigest(orderId)
    ensures db.orders[orderId].id == orderId && db.nextId !in db.payments
    ensures var p := PaymentOf(db.payments, orderId); p.Some? ==> p.value.status == Rejected
    ensures Initiate(db, orderId, key, gateway, queue)
         == Behaviour.RequestPayment(db, db.orders[orderId], key, gateway, queue)
  {
    assert Coupled(LifeOfRows(db.orders[orderId], PaymentOf(db.payments, orderId)));
  }

  method InitiatePayment(db: Database, orderId: Id, key: Option<string>, gateway: GatewayReply, queue: bool)
    returns (r: Result<Payment>)
    requires RowsAgree(db.Contents())
    modifies db
    ensures db.Contents() == Initiate(old(db.Contents()), orderId, key, gateway, queue).db
    ensures PaymentOutcome(r, Initiate(old(db.Contents()), orderId, key, gateway, queue).outcome)
  {
    if key.Some? {
      var byKey := db.GetPaymentByKey(key.value);
      if byKey != null {
        return Ok(byKey);
      }
      var cached := db.GetRecord(key.value, Operation.InitiatePayment);
      if cached.Some? && cached.value != OrderDigest(orderId) {
        return Err(IdempotencyConflict);
      }
    }
    var order := db.GetOrder(orderId);
    if order == null {
      return Err(OrderNotFound);
    }
    if order.status !in {Confirmed, PaymentFailed} {
      return Err(InvalidOrderState);
    }
    PayableAndNotPaidFor(db.Contents(), orderId, key, gateway, queue);
    var existing := db.GetPaymentByOrder(orderId);
    // The early return for a PENDING or APPROVED payment is dead code in serial runs.
    assert existing == null || existing.status == Rejected;
    r := RequestPayment(db, order, existing, key, gateway, queue);
  }

  /** Approve or reject both entities and commit them: payment first, then order. Neither refuses. */
  method Settle(db: Database, payment: Payment, order: Order, status: string, transactionId: string)
    returns (kind: EventKind)
    requires payment.id in db.payments && db.payments[payment.id] == payment.Value()
    requires order.id in db.orders && db.orders[order.id] == order.Value() && order.status == PaymentPending
    modifies db`payments, db`orders, payment, order
    ensures kind == if SaysApproved(status) then PaymentApproved else PaymentRejected
    ensures Verdict(Bump(old(order.Value())), SaysApproved(status)) == Ok(order.Value())
    ensures payment.Value() == SettledPayment(old(payment.Value()), SaysApproved(status), transactionId)
    ensures db.Contents() == old(db.Contents()).(payments := old(db.payments)[payment.id := payment.Value()],
                                                 orders := old(db.orders)[order.id := order.Value()])
  {
    order.BumpVersion();
    var applied: Result<()>;
    if SaysApproved(status) {
      payment.Approve(transactionId);
      applied := order.ApplyPaymentApproved();
      kind := PaymentApproved;
    } else {
      payment.Reject();
      applied := order.ApplyPaymentRejected();
      kind := PaymentRejected;
    }
    assert applied.Ok?;
    var savedPayment := db.SavePayment(payment);
    assert savedPayment.Ok?;
    var savedOrder := db.SaveOrder(order);
    assert savedOrder.Ok?;
  }

  /** What a first verdict amounts to. */
  lemma FirstVerdict(db: Db, paymentId: Id, status: string, transactionId: string, key: Option<string>, queue: bool)
    requires RowsAgree(db) && paymentId in db.payments && db.payments[paymentId].status == Pending
    requires Recorded(db, key, Operation.PaymentCallback).None?
    ensures var p := db.payments[paymentId];
      && p.id == paymentId && p.orderId in db.orders && db.orders[p.orderId].id == p.orderId
      && db.orders[p.orderId].status == PaymentPending
      && var o := Verdict(Bump(db.orders[p.orderId]), SaysApproved(status));
      && o.Ok? && var p' := SettledPayment(p, SaysApproved(status), transactionId);
      var e := Event(if SaysApproved(status) then PaymentApproved else PaymentRejected, p.orderId, queue);
      Callback(db, paymentId, status, transactionId, key, queue)
        == Reply(Record(Commit(db, o.value, Some(p'), Some(e)), key, Operation.PaymentCallback,
                        CallbackDigest(paymentId, CallbackBody(status, transactionId))), Ok(p'))
  {
    PendingPaymentAwaitsVerdict(db, paymentId);
  }

  method PaymentCallback(db: Database, paymentId: Id, status: string, transactionId: string, key: Option<string>,
                         queue: bool)
    returns (r: Result<Payment>)
    requires RowsAgree(db.Contents())
    modifies db
    ensures db.Contents() == Callback(old(db.Contents()), paymentId, status, transactionId, key, queue).db
    ensures PaymentOutcome(r, Callback(old(db.Contents()), paymentId, status, transactionId, key, queue).outcome)
  {
    var digest := CallbackDigest(paymentId, CallbackBody(status, transactionId));
    if key.Some? {
      var cached := db.GetRecord(key.value, Operation.PaymentCallback);
      if cached.Some? {
        if cached.value != digest {
          return Err(IdempotencyConflict);
        }
        var known := db.GetPayment(paymentId);
        if known != null {
          return Ok(known);
        }
      }
    }
    var payment := db.GetPayment(paymentId);
    if payment == null {
      return Err(PaymentNotFound);
    }
    if payment.status in {Approved, Rejected, Void} {
      return Ok(payment);
    }
    FirstVerdict(db.Contents(), paymentId, status, transactionId, key, queue);
    var order := db.GetOrder(payment.orderId);
    assert order != null;
    var kind := Settle(db, payment, order, status, transactionId);
    db.Publish(kind, order.id, queue);
    if key.Some? {
      var recorded := db.SaveRecord(key.value, Operation.PaymentCallback, digest);
      assert recorded.Ok?;
    }
    r := Ok(payment);
  }

  // ---- Any use case ----

  method Execute(db: Database, c: Command)
    requires RowsAgree(db.Contents())
    modifies db
    ensures db.Contents() == Exec(old(db.Contents()), c)
  {
    match c
    case DoCreate(customerId, customer) => var _ := CreateOrder(db, customerId, customer);
    case DoAddItem(o, p, q, product) => var _ := AddItemToOrder(db, o, p, q, product);
    case DoRemoveItem(o, i) => var _ := RemoveItemFromOrder(db, o, i);
    case DoConfirm(o, k, customer, catalog, queue) => var _ := ConfirmOrder(db, o, k, customer, catalog, queue);
    case DoCancel(o, reason, queue) => var _ := CancelOrder(db, o, reason, queue);
    case DoInitiate(o, k, gateway, queue) => var _ := InitiatePayment(db, o, k, gateway, queue);
    case DoCallback(p, status, txn, k, queue) => var _ := PaymentCallback(db, p, status, txn, k, queue);
  }

  /** The service in serial operation: request after request, the code does what Run says and keeps the invariant. */
  method Serve(db: Database, commands: seq<Command>)
    requires Inv(db.Contents())
    modifies db
    ensures Inv(db.Contents())
    ensures db.Contents() == Run(old(db.Contents()), commands)
  {
    for i := 0 to |commands|
      invariant Inv(db.Contents())
      invariant db.Contents() == Run(old(db.Contents()), commands[..i])
    {
      InvMeansRowsAgree(db.Contents());
      ExecKeeps(db.Contents(), commands[i]);
      Execute(db, commands[i]);
      assert commands[..i + 1][..i] == commands[..i];
    }
    assert commands[..|commands|] == commands;
  }
}
