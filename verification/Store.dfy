/**
 The database: five tables and the supply of generated ids. `Db` is its contents as a
 value; class Database is the store the repositories write, one commit per method.
 */
module Store {
  import opened Domain
  import opened Entities

  datatype Operation = ConfirmOrder | InitiatePayment | PaymentCallback

  /** What is hashed for an idempotency record; SHA-256 is taken as injective on it. A callback hashes
      "paymentId:status:transactionId", whose first part has a fixed width. */
  datatype Digest = OrderDigest(orderId: Id) | CallbackDigest(paymentId: Id, body: string)

  datatype SagaStep = ValidateCustomer | ValidateCatalog | PersistConfirmed
  datatype SagaStatus = Running | Failed | Compensated | Completed
  datatype SagaPayload = Empty | Reason(reason: string) | Action(action: string) | TotalOf(total: nat)
  datatype SagaRow = SagaRow(id: Id, step: SagaStep, status: SagaStatus, payload: SagaPayload)

  datatype EventKind = OrderConfirmed | OrderCancelled | PaymentInitiated | PaymentApproved | PaymentRejected
  datatype Event = Event(kind: EventKind, orderId: Id, published: bool)

  datatype Db = Db(
    orders: map<Id, OrderRow>,
    payments: map<Id, PaymentRow>,
    idempotency: map<(string, Operation), Digest>,
    sagas: map<Id, SagaRow>,
    outbox: seq<Event>,
    nextId: Id)

  const EMPTY: Db := Db(map[], map[], map[], map[], [], 0)

  /** The saga row of an order is inserted once and overwritten later, but for its id. */
  function PutSaga(db: Db, sagaId: Id, orderId: Id, step: SagaStep, status: SagaStatus, payload: SagaPayload): Db {
    db.(sagas := db.sagas[orderId :=
          SagaRow(if orderId in db.sagas then db.sagas[orderId].id else sagaId, step, status, payload)])
  }

  lemma PutSagaTwice(db: Db, sagaId: Id, orderId: Id, step: SagaStep, status: SagaStatus, payload: SagaPayload,
                     step': SagaStep, status': SagaStatus, payload': SagaPayload)
    ensures PutSaga(PutSaga(db, sagaId, orderId, step, status, payload), sagaId, orderId, step', status', payload')
         == PutSaga(db, sagaId, orderId, step', status', payload')
  {
  }

  // ---- Lookups ----

  ghost function PaymentOf(payments: map<Id, PaymentRow>, orderId: Id): (r: Option<PaymentRow>)
    ensures r.Some? ==> r.value in payments.Values && r.value.orderId == orderId
    ensures r.None? ==> forall p :: p in payments ==> payments[p].orderId != orderId
  {
    if p :| p in payments && payments[p].orderId == orderId then Some(payments[p]) else None
  }

  ghost function PaymentByKey(payments: map<Id, PaymentRow>, key: string): (r: Option<PaymentRow>)
    ensures r.Some? ==> r.value in payments.Values && r.value.idempotencyKey == Some(key)
    ensures r.None? ==> forall p :: p in payments ==> payments[p].idempotencyKey != Some(key)
  {
    if p :| p in payments && payments[p].idempotencyKey == Some(key) then Some(payments[p]) else None
  }

  /** Primary keys and the unique and foreign-key constraints of the payments table. */
  ghost predicate PaymentConstraints(payments: map<Id, PaymentRow>, orders: map<Id, OrderRow>) {
    && (forall p :: p in payments ==> payments[p].id == p && payments[p].orderId in orders)
    && (forall p, q :: p in payments && q in payments && payments[p].orderId == payments[q].orderId ==> p == q)
    && (forall p, q | p in payments && q in payments && payments[p].idempotencyKey.Some? ::
          payments[p].idempotencyKey == payments[q].idempotencyKey ==> p == q)
  }

  /** The order has an active status and belongs to the customer; `exclude` is has_active_order's second argument. */
  ghost predicate HasActiveOrder(orders: map<Id, OrderRow>, customerId: string, exclude: Option<Id>) {
    exists o :: o in orders && orders[o].customerId == customerId
      && orders[o].status in ACTIVE_ORDER_STATUSES && exclude != Some(o)
  }

  class Database {
    var orders: map<Id, OrderRow>
    var payments: map<Id, PaymentRow>
    var idempotency: map<(string, Operation), Digest>
    var sagas: map<Id, SagaRow>
    var outbox: seq<Event>
    var nextId: Id

    function Contents(): Db
      reads this
    {
      Db(orders, payments, idempotency, sagas, outbox, nextId)
    }

    constructor ()
      ensures Contents() == EMPTY
    {
      orders, payments, idempotency, sagas, outbox, nextId := map[], map[], map[], map[], [], 0;
    }

    /** uuid4. */
    method NewId() returns (id: Id)
      modifies this`nextId
      ensures id == old(nextId) && Contents() == old(Contents()).(nextId := id + 1)
    {
      id := nextId;
      nextId := nextId + 1;
    }

    // ---- Orders ----

    method GetOrder(orderId: Id) returns (o: Order?)
      ensures o != null <==> orderId in orders
      ensures o != null ==> fresh(o) && o.Value() == orders[orderId]
    {
      if orderId !in orders {
        return null;
      }
      o := new Order.FromRow(orders[orderId]);
    }

    /** Insert a first version, or replace the row that carries the preceding version. */
    method SaveOrder(o: Order) returns (r: Result<()>)
      modifies this`orders
      ensures r.Ok? <==> if o.id in old(orders) then old(orders)[o.id].version + 1 == o.version else o.version == 1
      ensures r.Ok? ==> Contents() == old(Contents()).(orders := old(orders)[o.id := o.Value()])
      ensures r.Err? ==> Contents() == old(Contents())
      ensures r.Err? ==> r.error == if o.id in orders then Concurrency else OrderNotFound
    {
      if o.version == 1 && o.id !in orders {
        orders := orders[o.id := o.Value()];
      } else {
        if o.id !in orders {
          return Err(OrderNotFound);
        }
        var existing := orders[o.id];
        if existing.version != o.version - 1 {
          return Err(Concurrency);
        }
        orders := orders[o.id := o.Value()];
      }
      r := Ok(());
    }

    method ActiveOrderExists(customerId: string, exclude: Option<Id>) returns (b: bool)
      ensures b <==> HasActiveOrder(orders, customerId, exclude)
    {
      var matching := set o | o in orders && orders[o].customerId == customerId
        && orders[o].status in ACTIVE_ORDER_STATUSES && exclude != Some(o);
      b := |matching| > 0;
      assert b <==> exists o :: o in matching;
      assert forall o | o in orders && orders[o].customerId == customerId
        && orders[o].status in ACTIVE_ORDER_STATUSES && exclude != Some(o) :: o in matching;
    }

    // ---- Payments ----

    method GetPayment(paymentId: Id) returns (p: Payment?)
      ensures p != null <==> paymentId in payments
      ensures p != null ==> fresh(p) && p.Value() == payments[paymentId]
    {
      if paymentId !in payments {
        return null;
      }
      p := new Payment.FromRow(payments[paymentId]);
    }

    method GetPaymentByOrder(orderId: Id) returns (p: Payment?)
      requires PaymentConstraints(payments, orders)
      ensures p != null ==> fresh(p)
      ensures PaymentOf(payments, orderId) == if p == null then None else Some(p.Value())
    {
      if id :| id in payments && payments[id].orderId == orderId {
        p := new Payment.FromRow(payments[id]);
      } else {
        p := null;
      }
    }

    method GetPaymentByKey(key: string) returns (p: Payment?)
      requires PaymentConstraints(payments, orders)
      ensures p != null ==> fresh(p)
      ensures PaymentByKey(payments, key) == if p == null then None else Some(p.Value())
    {
      if id :| id in payments && payments[id].idempotencyKey == Some(key) {
        p := new Payment.FromRow(payments[id]);
      } else {
        p := null;
      }
    }

    /** A new row must respect the unique order and key and refer to an order; an old row takes the status and
        reference only. */
    method SavePayment(p: Payment) returns (r: Result<()>)
      modifies this`payments
      ensures r.Ok? <==> (p.id in old(payments)
        || (p.orderId in orders && PaymentOf(old(payments), p.orderId).None?
            && (p.idempotencyKey.Some? ==> PaymentByKey(old(payments), p.idempotencyKey.value).None?)))
      ensures r.Err? ==> r.error == IntegrityError && Contents() == old(Contents())
      ensures r.Ok? && p.id !in old(payments) ==>
        Contents() == old(Contents()).(payments := old(payments)[p.id := p.Value()])
      ensures r.Ok? && p.id in old(payments) ==> Contents() == old(Contents()).(payments :=
        old(payments)[p.id := old(payments)[p.id].(status := p.status, externalReference := p.externalReference)])
    {
      if p.id !in payments {
        if p.orderId !in orders
          || (exists q :: q in payments && payments[q].orderId == p.orderId)
          || (p.idempotencyKey.Some? && exists q :: q in payments && payments[q].idempotencyKey == p.idempotencyKey)
        {
          return Err(IntegrityError);
        }
        payments := payments[p.id := p.Value()];
      } else {
        payments := payments[p.id := payments[p.id].(status := p.status, externalReference := p.externalReference)];
      }
      r := Ok(());
    }

    // ---- Idempotency records, saga rows, outbox ----

    method GetRecord(key: string, operation: Operation) returns (r: Option<Digest>)
      ensures r == if (key, operation) in idempotency then Some(idempotency[(key, operation)]) else None
    {
      r := if (key, operation) in idempotency then Some(idempotency[(key, operation)]) else None;
    }

    /** The pair of key and operation is unique. */
    method SaveRecord(key: string, operation: Operation, digest: Digest) returns (r: Result<()>)
      modifies this`idempotency
      ensures r == if (key, operation) in old(idempotency) then Err(IntegrityError) else Ok(())
      ensures Contents() == if r.Ok? then old(Contents()).(idempotency := old(idempotency)[(key, operation) := digest])
                            else old(Contents())
    {
      if (key, operation) in idempotency {
        return Err(IntegrityError);
      }
      idempotency := idempotency[(key, operation) := digest];
      r := Ok(());
    }

    /** One row per order: inserted under the given id, then overwritten but for its id. */
    method SaveSaga(sagaId: Id, orderId: Id, step: SagaStep, status: SagaStatus, payload: SagaPayload)
      modifies this`sagas
      ensures Contents() == PutSaga(old(Contents()), sagaId, orderId, step, status, payload)
    {
      if orderId !in sagas {
        sagas := sagas[orderId := SagaRow(sagaId, step, status, payload)];
      } else {
        sagas := sagas[orderId := sagas[orderId].(step := step, status := status, payload := payload)];
      }
    }

    /** One log row per event, whether or not the queue accepts it. */
    method Publish(kind: EventKind, orderId: Id, queueAccepts: bool)
      modifies this`outbox
      ensures Contents() == old(Contents()).(outbox := old(outbox) + [Event(kind, orderId, queueAccepts)])
    {
      var row := Event(kind, orderId, false);
      if queueAccepts {
        row := row.(published := true);
      } else {
        row := row.(published := false);
      }
      outbox := outbox + [row];
    }
  }
}
