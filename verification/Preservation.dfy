/**
 Every use case, on every input and every reply, keeps the invariant, and changes each
 order by one of the moves; orders it was not called for do not change.
 */
module Preservation {
  import opened Domain
  import opened Store
  import opened Behaviour
  import opened Invariant
  import opened Moves
  import Basket

  /** Each order known before is still there and has moved. */
  ghost predicate Evolves(db: Db, db': Db) {
    forall o :: o in db.orders ==> o in db'.orders && MayMove(ViewOf(db, o), ViewOf(db', o))
  }

  lemma PaymentOfPut(db: Db, p: PaymentRow, o: Id)
    requires PaymentConstraints(db.payments, db.orders)
    requires p.id in db.payments ==> db.payments[p.id].orderId == p.orderId
    requires p.id !in db.payments ==> PaymentOf(db.payments, p.orderId).None?
    ensures PaymentOf(db.payments[p.id := p], o) == if o == p.orderId then Some(p) else PaymentOf(db.payments, o)
  {
    var after := db.payments[p.id := p];
    if o == p.orderId {
      assert after[p.id].orderId == o;
    } else if PaymentOf(db.payments, o).Some? {
      var q := PaymentOf(db.payments, o).value;
      assert after[q.id] == q;
    }
  }

  lemma PaymentOfKey(db: Db, p: Id)
    requires PaymentConstraints(db.payments, db.orders) && p in db.payments
    ensures PaymentOf(db.payments, db.payments[p].orderId) == Some(db.payments[p])
  {
  }

  lemma EventsOfAppend(outbox: seq<Event>, e: Event, o: Id)
    ensures EventsOf(outbox + [e], o) == EventsOf(outbox, o) + if e.orderId == o then [e.kind] else []
  {
  }

  lemma {:induction false} NoEvents(outbox: seq<Event>, o: Id)
    requires forall i :: 0 <= i < |outbox| ==> outbox[i].orderId != o
    ensures EventsOf(outbox, o) == []
  {
    if outbox != [] {
      NoEvents(outbox[..|outbox| - 1], o);
    }
  }

  /** The payment a commit may write: the order's own, or a first one under an unused id and key. */
  ghost predicate MayWrite(db: Db, o: Id, p: PaymentRow) {
    && p.orderId == o
    && (p.id in db.payments ==> SamePayment(db.payments[p.id], p))
    && (p.id !in db.payments ==> p.id < db.nextId && PaymentOf(db.payments, o).None?)
    && (p.id !in db.payments && p.idempotencyKey.Some? ==> PaymentByKey(db.payments, p.idempotencyKey.value).None?)
  }

  lemma CommitKeepsConstraints(db: Db, o: OrderRow, p: PaymentRow)
    requires Keyed(db) && o.id in db.orders && MayWrite(db, o.id, p)
    ensures PaymentConstraints(db.payments[p.id := p], db.orders[o.id := o])
  {
  }

  /** The view a commit leaves of its order. */
  ghost function Written(db: Db, o: OrderRow, p: Option<PaymentRow>, e: Option<Event>): View
    requires o.id in db.orders
  {
    var v := ViewOf(db, o.id);
    v.(order := o, payment := if p.Some? then p else v.payment,
       events := v.events + if e.Some? then [e.value.kind] else [])
  }

  ghost predicate MayCommit(db: Db, o: OrderRow, p: Option<PaymentRow>, e: Option<Event>) {
    && Keyed(db) && o.id in db.orders && ItemIdsBelow(o, db.nextId)
    && (p.Some? ==> MayWrite(db, o.id, p.value))
    && (e.Some? ==> e.value.orderId == o.id)
  }

  lemma CommitViewAt(db: Db, o: OrderRow, p: Option<PaymentRow>, e: Option<Event>, x: Id)
    requires MayCommit(db, o, p, e) && x in db.orders
    ensures ViewOf(Commit(db, o, p, e), x) == if x == o.id then Written(db, o, p, e) else ViewOf(db, x)
  {
    if p.Some? { PaymentOfPut(db, p.value, x); }
    if e.Some? { EventsOfAppend(db.outbox, e.value, x); }
  }

  /** A commit changes the view of its own order only. */
  lemma CommitViews(db: Db, o: OrderRow, p: Option<PaymentRow>, e: Option<Event>)
    requires MayCommit(db, o, p, e)
    ensures var db' := Commit(db, o, p, e);
      && db'.orders.Keys == db.orders.Keys
      && (forall x :: x in db.orders && x != o.id ==> ViewOf(db', x) == ViewOf(db, x))
      && ViewOf(db', o.id) == Written(db, o, p, e)
  {
    forall x | x in db.orders
      ensures ViewOf(Commit(db, o, p, e), x) == if x == o.id then Written(db, o, p, e) else ViewOf(db, x)
    {
      CommitViewAt(db, o, p, e, x);
    }
  }

  lemma CommitKeyed(db: Db, o: OrderRow, p: Option<PaymentRow>, e: Option<Event>)
    requires MayCommit(db, o, p, e)
    ensures Keyed(Commit(db, o, p, e))
  {
    if p.Some? { CommitKeepsConstraints(db, o, p.value); }
  }

  lemma StaysGood(db: Db, db': Db, t: Id)
    requires forall x :: x in db.orders ==> Good(ViewOf(db, x))
    requires t in db.orders && db'.orders.Keys == db.orders.Keys
    requires forall x :: x in db.orders && x != t ==> ViewOf(db', x) == ViewOf(db, x)
    requires Good(ViewOf(db', t))
    ensures forall x :: x in db'.orders ==> Good(ViewOf(db', x))
  {
  }

  lemma StaysOneActive(orders: map<Id, OrderRow>, orders': map<Id, OrderRow>, t: Id)
    requires OneActive(orders) && t in orders && orders'.Keys == orders.Keys
    requires forall x :: x in orders && x != t ==> orders'[x] == orders[x]
    requires orders'[t].customerId == orders[t].customerId
    requires IsActive(orders'[t]) ==> IsActive(orders[t])
    ensures OneActive(orders')
  {
  }

  lemma TheOthersStay(db: Db, db': Db, t: Id)
    requires db'.orders.Keys == db.orders.Keys && t in db.orders
    requires forall x :: x in db.orders && x != t ==> ViewOf(db', x) == ViewOf(db, x)
    requires MayMove(ViewOf(db, t), ViewOf(db', t))
    ensures Evolves(db, db')
    ensures forall x :: x in db.orders && x != t ==> db'.orders[x] == db.orders[x]
  {
  }

  lemma MovedIsGood(v: View, v': View)
    requires Good(v) && MayMove(v, v')
    ensures Good(v') && v'.order.customerId == v.order.customerId && (IsActive(v'.order) ==> IsActive(v.order))
  {
    MoveKeepsGood(v, v');
    MoveRespects(v, v');
  }

  /** Enough to look at the order that was written. */
  lemma OneOrderMoves(db: Db, db': Db, t: Id)
    requires Inv(db) && t in db.orders
    requires Keyed(db') && db'.orders.Keys == db.orders.Keys
    requires forall x :: x in db.orders && x != t ==> ViewOf(db', x) == ViewOf(db, x)
    requires MayMove(ViewOf(db, t), ViewOf(db', t))
    ensures Inv(db') && Evolves(db, db')
  {
    var v, v' := ViewOf(db, t), ViewOf(db', t);
    MovedIsGood(v, v');
    TheOthersStay(db, db', t);
    StaysGood(db, db', t);
    StaysOneActive(db.orders, db'.orders, t) by {
      assert db'.orders[t] == v'.order && db.orders[t] == v.order;
    }
  }

  lemma CommitMoves(db: Db, o: OrderRow, p: Option<PaymentRow>, e: Option<Event>)
    requires Inv(db) && MayCommit(db, o, p, e)
    requires MayMove(ViewOf(db, o.id), Written(db, o, p, e))
    ensures Inv(Commit(db, o, p, e)) && Evolves(db, Commit(db, o, p, e))
  {
    CommitViews(db, o, p, e);
    CommitKeyed(db, o, p, e);
    OneOrderMoves(db, Commit(db, o, p, e), o.id);
  }

  /** Ids and idempotency records are not part of any view. */
  lemma OffTheViews(db: Db, db': Db)
    requires Inv(db) && db' == db.(nextId := db'.nextId, idempotency := db'.idempotency) && db'.nextId >= db.nextId
    ensures Inv(db') && forall x :: x in db.orders ==> ViewOf(db', x) == ViewOf(db, x)
  {
    forall x | x in db.orders ensures Good(ViewOf(db', x)) && ViewOf(db', x) == ViewOf(db, x) {
      assert ViewOf(db', x) == ViewOf(db, x);
    }
  }

  lemma DrawCommitMoves(db: Db, o: OrderRow, p: Option<PaymentRow>, e: Option<Event>)
    requires Inv(db) && MayCommit(DrawId(db), o, p, e)
    requires MayMove(ViewOf(db, o.id), Written(db, o, p, e))
    ensures Inv(Commit(DrawId(db), o, p, e)) && Evolves(db, Commit(DrawId(db), o, p, e))
  {
    var drawn := DrawId(db);
    OffTheViews(db, drawn);
    assert ViewOf(drawn, o.id) == ViewOf(db, o.id);
    CommitMoves(drawn, o, p, e);
    StillEvolves(db, drawn, Commit(drawn, o, p, e));
  }

  lemma StillEvolves(a: Db, b: Db, c: Db)
    requires b.orders.Keys == a.orders.Keys
    requires forall x :: x in a.orders ==> ViewOf(b, x) == ViewOf(a, x)
    requires Evolves(b, c)
    ensures Evolves(a, c)
  {
  }

  lemma RecordKeeps(db: Db, done: Db, key: Option<string>, op: Operation, digest: Digest)
    requires Inv(done) && Evolves(db, done)
    ensures Inv(Record(done, key, op, digest)) && Evolves(db, Record(done, key, op, digest))
  {
    var after := Record(done, key, op, digest);
    OffTheViews(done, after);
    forall x | x in db.orders ensures x in after.orders && MayMove(ViewOf(db, x), ViewOf(after, x)) {
      assert x in done.orders && ViewOf(after, x) == ViewOf(done, x);
    }
  }

  lemma NothingMoves(db: Db, db': Db)
    requires Inv(db) && (db' == db || db' == DrawId(db))
    ensures Inv(db') && Evolves(db, db')
  {
    OffTheViews(db, db');
  }

  // ---- The use cases, one by one ----

  lemma NewOrderIsGood(db: Db, n: Id, customerId: string)
    requires Keyed(db) && n !in db.orders
    ensures var db' := Commit(DrawId(db), NewOrder(n, customerId), None, None);
      n in db'.orders && Good(ViewOf(db', n))
  {
    NoEvents(db.outbox, n);
    assert forall p :: p in db.payments ==> db.payments[p].orderId != n;
  }

  lemma NewOrderFits(db: Db, customerId: string)
    requires Keyed(db) && OneActive(db.orders) && !HasActiveOrder(db.orders, customerId, None)
    ensures var db' := Commit(DrawId(db), NewOrder(db.nextId, customerId), None, None);
      Keyed(db') && OneActive(db'.orders)
  {
  }

  lemma OldOrdersStay(db: Db, customerId: string, x: Id)
    requires Keyed(db) && x in db.orders
    ensures var db' := Commit(DrawId(db), NewOrder(db.nextId, customerId), None, None);
      x in db'.orders && ViewOf(db', x) == ViewOf(db, x)
  {
  }

  lemma NewOrderKeeps(db: Db, customerId: string)
    requires Inv(db) && !HasActiveOrder(db.orders, customerId, None)
    ensures var db' := Commit(DrawId(db), NewOrder(db.nextId, customerId), None, None); Inv(db') && Evolves(db, db')
  {
    var db' := Commit(DrawId(db), NewOrder(db.nextId, customerId), None, None);
    NewOrderIsGood(db, db.nextId, customerId);
    NewOrderFits(db, customerId);
    forall x | x in db.orders ensures Good(ViewOf(db', x)) && MayMove(ViewOf(db, x), ViewOf(db', x)) {
      OldOrdersStay(db, customerId, x);
    }
  }

  lemma CreateKeeps(db: Db, customerId: string, customer: CustomerReply)
    requires Inv(db)
    ensures Inv(Create(db, customerId, customer).db) && Evolves(db, Create(db, customerId, customer).db)
  {
    if Create(db, customerId, customer).outcome.Ok? {
      NewOrderKeeps(db, customerId);
    } else {
      NothingMoves(db, db);
    }
  }

  lemma AddItemMove(v: View, productId: string, quantity: int, newId: Id)
    requires Good(v) && AddItem(Bump(v.order), productId, quantity, newId).Ok? && ItemIdsBelow(v.order, newId)
    ensures var o := AddItem(Bump(v.order), productId, quantity, newId).value;
      Edited(v, v.(order := o)) && ItemIdsBelow(o, newId + 1)
  {
    Basket.AddLineShape(v.order.items, productId, quantity, newId);
    Basket.AddLineKeepsWellFormed(v.order.items, productId, quantity, newId);
  }

  lemma AddedCommits(db: Db, orderId: Id, productId: string, quantity: int)
    requires Keyed(db) && orderId in db.orders && Good(ViewOf(db, orderId))
    requires AddItem(Bump(db.orders[orderId]), productId, quantity, db.nextId).Ok?
    ensures var o := AddItem(Bump(db.orders[orderId]), productId, quantity, db.nextId).value;
      MayCommit(DrawId(db), o, None, None) && Edited(ViewOf(db, orderId), Written(db, o, None, None)) && o.id == orderId
  {
    var v := ViewOf(db, orderId);
    var o := AddItem(Bump(db.orders[orderId]), productId, quantity, db.nextId).value;
    AddItemMove(v, productId, quantity, db.nextId);
    assert Written(db, o, None, None) == v.(order := o);
  }

  lemma AddedKeeps(db: Db, orderId: Id, productId: string, quantity: int)
    requires Inv(db) && orderId in db.orders && AddItem(Bump(db.orders[orderId]), productId, quantity, db.nextId).Ok?
    ensures var o := AddItem(Bump(db.orders[orderId]), productId, quantity, db.nextId).value;
      var db' := Commit(DrawId(db), o, None, None);
      Inv(db') && Evolves(db, db')
  {
    AddedCommits(db, orderId, productId, quantity);
    DrawCommitMoves(db, AddItem(Bump(db.orders[orderId]), productId, quantity, db.nextId).value, None, None);
  }

  lemma AddItemKeeps(db: Db, orderId: Id, productId: string, quantity: int, product: CatalogReply)
    requires Inv(db)
    ensures var db' := AddItemToOrder(db, orderId, productId, quantity, product).db; Inv(db') && Evolves(db, db')
  {
    var r := AddItemToOrder(db, orderId, productId, quantity, product);
    if r.outcome.Ok? {
      AddedKeeps(db, orderId, productId, quantity);
    } else {
      NothingMoves(db, r.db);
    }
  }

  lemma RemoveItemMove(v: View, itemId: Id, bound: Id)
    requires Good(v) && RemoveItem(Bump(v.order), itemId).Ok? && ItemIdsBelow(v.order, bound)
    ensures var o := RemoveItem(Bump(v.order), itemId).value; Edited(v, v.(order := o)) && ItemIdsBelow(o, bound)
  {
    Basket.RemoveLineKeepsWellFormed(v.order.items, itemId);
  }

  lemma RemoveItemKeeps(db: Db, orderId: Id, itemId: Id)
    requires Inv(db)
    ensures var db' := RemoveItemFromOrder(db, orderId, itemId).db; Inv(db') && Evolves(db, db')
  {
    var r := RemoveItemFromOrder(db, orderId, itemId);
    if r.outcome.Ok? {
      var v := ViewOf(db, orderId);
      RemoveItemMove(v, itemId, db.nextId);
      assert Written(db, r.outcome.value, None, None) == v.(order := r.outcome.value);
      CommitMoves(db, r.outcome.value, None, None);
    } else {
      NothingMoves(db, r.db);
    }
  }

  /** A saga row changes the view of its own order only. */
  lemma SagaViews(db: Db, sagaId: Id, orderId: Id, step: SagaStep, status: SagaStatus, payload: SagaPayload)
    requires Keyed(db) && orderId in db.orders
    ensures var db' := PutSaga(DrawId(db), sagaId, orderId, step, status, payload);
      && Keyed(db') && db'.orders.Keys == db.orders.Keys && orderId in db'.sagas
      && (forall x :: x in db.orders && x != orderId ==> ViewOf(db', x) == ViewOf(db, x))
      && ViewOf(db', orderId) == ViewOf(db, orderId).(saga := Some(db'.sagas[orderId]))
      && db'.sagas[orderId].status == status && db'.sagas[orderId].payload == payload
  {
  }

  lemma SagaKeeps(db: Db, sagaId: Id, orderId: Id, step: SagaStep, status: SagaStatus, payload: SagaPayload)
    requires Inv(db) && orderId in db.orders && status != Completed
    ensures var db' := PutSaga(DrawId(db), sagaId, orderId, step, status, payload); Inv(db') && Evolves(db, db')
  {
    SagaViews(db, sagaId, orderId, step, status, payload);
    OneOrderMoves(db, PutSaga(DrawId(db), sagaId, orderId, step, status, payload), orderId);
  }

  ghost function ConfirmedDb(db: Db, o: OrderRow, queue: bool): Db {
    Commit(PutSaga(DrawId(db), db.nextId, o.id, PersistConfirmed, Completed, TotalOf(o.total)),
           o, None, Some(Event(OrderConfirmed, o.id, queue)))
  }

  lemma ConfirmedViews(db: Db, o: OrderRow, queue: bool)
    requires Keyed(db) && o.id in db.orders && ItemIdsBelow(o, db.nextId)
    ensures var db' := ConfirmedDb(db, o, queue);
      && Keyed(db') && db'.orders.Keys == db.orders.Keys
      && (forall x :: x in db.orders && x != o.id ==> ViewOf(db', x) == ViewOf(db, x))
      && ViewOf(db', o.id) == ViewOf(db, o.id).(order := o, saga := ViewOf(db', o.id).saga,
           events := ViewOf(db, o.id).events + [OrderConfirmed])
      && ViewOf(db', o.id).saga.Some? && ViewOf(db', o.id).saga.value.status == Completed
      && ViewOf(db', o.id).saga.value.payload == TotalOf(o.total)
  {
    var saved := PutSaga(DrawId(db), db.nextId, o.id, PersistConfirmed, Completed, TotalOf(o.total));
    var e := Some(Event(OrderConfirmed, o.id, queue));
    SagaViews(db, db.nextId, o.id, PersistConfirmed, Completed, TotalOf(o.total));
    CommitViews(saved, o, None, e);
    CommitKeyed(saved, o, None, e);
  }

  lemma ConfirmedKeeps(db: Db, orderId: Id, prices: map<string, int>, queue: bool)
    requires Inv(db) && orderId in db.orders
    requires ConfirmWithPrices(Bump(db.orders[orderId]), prices).Ok?
    ensures var db' := ConfirmedDb(db, ConfirmWithPrices(Bump(db.orders[orderId]), prices).value, queue);
      Inv(db') && Evolves(db, db')
  {
    var o := ConfirmWithPrices(Bump(db.orders[orderId]), prices).value;
    assert ItemIdsBelow(db.orders[orderId], db.nextId);
    assert ItemIdsBelow(o, db.nextId) by {
      NoFaultIffAllPriced(db.orders[orderId].items, prices);
    }
    ConfirmedViews(db, o, queue);
    var db' := ConfirmedDb(db, o, queue);
    assert ConfirmedMove(ViewOf(db, orderId), ViewOf(db', orderId));
    OneOrderMoves(db, db', orderId);
  }

  lemma FailedSagaKeeps(db: Db, orderId: Id, customer: CustomerReply, catalog: nat -> CatalogReply, queue: bool)
    requires Inv(db) && orderId in db.orders && ConfirmBySaga(db, orderId, customer, catalog, queue).outcome.Err?
    ensures var db' := ConfirmBySaga(db, orderId, customer, catalog, queue).db; Inv(db') && Evolves(db, db')
  {
    if !CustomerActive(customer) {
      SagaKeeps(db, db.nextId, orderId, ValidateCustomer, Failed, Reason("customer_invalid"));
    } else if !AllAvailable(|db.orders[orderId].items|, catalog) {
      SagaKeeps(db, db.nextId, orderId, ValidateCatalog, Compensated, Action("keep_draft"));
    } else {
      SagaKeeps(db, db.nextId, orderId, ValidateCatalog, Running, Empty);
    }
  }

  lemma SagaSuccess(db: Db, orderId: Id, customer: CustomerReply, catalog: nat -> CatalogReply, queue: bool)
    requires orderId in db.orders && db.orders[orderId].id == orderId
    requires ConfirmBySaga(db, orderId, customer, catalog, queue).outcome.Ok?
    ensures AllAvailable(|db.orders[orderId].items|, catalog)
    ensures ConfirmWithPrices(Bump(db.orders[orderId]), Fetched(db.orders[orderId].items, catalog)).Ok?
    ensures ConfirmBySaga(db, orderId, customer, catalog, queue).db
         == ConfirmedDb(
              db, ConfirmWithPrices(Bump(db.orders[orderId]), Fetched(db.orders[orderId].items, catalog)).value, queue)
  {
  }

  lemma ConfirmBySagaKeeps(db: Db, orderId: Id, customer: CustomerReply, catalog: nat -> CatalogReply, queue: bool)
    requires Inv(db)
    ensures var db' := ConfirmBySaga(db, orderId, customer, catalog, queue).db; Inv(db') && Evolves(db, db')
  {
    if orderId !in db.orders {
      NothingMoves(db, DrawId(db));
    } else if ConfirmBySaga(db, orderId, customer, catalog, queue).outcome.Err? {
      FailedSagaKeeps(db, orderId, customer, catalog, queue);
    } else {
      SagaSuccess(db, orderId, customer, catalog, queue);
      ConfirmedKeeps(db, orderId, Fetched(db.orders[orderId].items, catalog), queue);
    }
  }

  lemma ConfirmKeeps(db: Db, orderId: Id, key: Option<string>, customer: CustomerReply, catalog: nat -> CatalogReply,
                     queue: bool)
    requires Inv(db)
    ensures var db' := Confirm(db, orderId, key, customer, catalog, queue).db; Inv(db') && Evolves(db, db')
  {
    var db' := Confirm(db, orderId, key, customer, catalog, queue).db;
    var r := ConfirmBySaga(db, orderId, customer, catalog, queue);
    ConfirmBySagaKeeps(db, orderId, customer, catalog, queue);
    RecordKeeps(db, r.db, key, ConfirmOrder, OrderDigest(orderId));
    NothingMoves(db, db);
    assert db' == db || db' == r.db || db' == Record(r.db, key, ConfirmOrder, OrderDigest(orderId));
  }

  lemma CancelMove(v: View, reason: Option<string>)
    requires Cancel(Bump(v.order), reason).Ok?
    ensures CancelledMove(v, v.(order := Cancel(Bump(v.order), reason).value,
        payment := if v.payment.Some? && v.payment.value.status == Pending
                   then Some(v.payment.value.(status := Void)) else v.payment,
        events := v.events + [OrderCancelled]))
  {
  }

  lemma CancelledKeeps(db: Db, orderId: Id, reason: Option<string>, queue: bool)
    requires Inv(db) && CancelWithPayment(db, orderId, reason, queue).outcome.Ok?
    ensures var db' := CancelWithPayment(db, orderId, reason, queue).db; Inv(db') && Evolves(db, db')
  {
    var v := ViewOf(db, orderId);
    var open := v.payment.Some? && v.payment.value.status == Pending;
    var voided := if open then Some(v.payment.value.(status := Void)) else None;
    CancelMove(v, reason);
    assert ItemIdsBelow(db.orders[orderId], db.nextId);
    CommitMoves(db, Cancel(Bump(v.order), reason).value, voided, Some(Event(OrderCancelled, orderId, queue)));
  }

  lemma CancelKeeps(db: Db, orderId: Id, reason: Option<string>, queue: bool)
    requires Inv(db)
    ensures var db' := CancelWithPayment(db, orderId, reason, queue).db; Inv(db') && Evolves(db, db')
  {
    var r := CancelWithPayment(db, orderId, reason, queue);
    if r.outcome.Ok? {
      CancelledKeeps(db, orderId, reason, queue);
    } else {
      NothingMoves(db, r.db);
    }
  }

  lemma GatewayFailureKeeps(db: Db, orderId: Id)
    requires Inv(db) && orderId in db.orders && db.orders[orderId].status in {Confirmed, PaymentFailed}
    ensures var db' := Commit(db, Bump(Bump(db.orders[orderId])), None, None); Inv(db') && Evolves(db, db')
  {
    var o := Bump(Bump(db.orders[orderId]));
    assert MayCommit(db, o, None, None) by {
      assert ItemIdsBelow(db.orders[orderId], db.nextId);
    }
    assert RolledBack(ViewOf(db, orderId), Written(db, o, None, None)) by {
      assert ViewOf(db, orderId).events + [] == ViewOf(db, orderId).events;
    }
    CommitMoves(db, o, None, None);
  }

  lemma AcceptedCommits(db: Db, orderId: Id, key: Option<string>, externalId: string, queue: bool)
    requires Keyed(db) && orderId in db.orders && db.orders[orderId].status in {Confirmed, PaymentFailed}
    requires Good(ViewOf(db, orderId))
    requires key.Some? ==> PaymentByKey(db.payments, key.value).None?
    ensures var o := MarkPaymentPending(Bump(db.orders[orderId])).value;
      var p := OpenedPayment(db, o, key, externalId);
      var e := Some(Event(PaymentInitiated, orderId, queue));
      && InitiatedMove(ViewOf(db, orderId), Written(db, o, Some(p), e))
      && MayCommit(if p.id == db.nextId then DrawId(db) else db, o, Some(p), e)
  {
    assert ItemIdsBelow(db.orders[orderId], db.nextId);
  }

  ghost function AcceptedDb(db: Db, o: OrderRow, key: Option<string>, externalId: string, queue: bool): Db
    requires MarkPaymentPending(Bump(o)).Ok?
  {
    var pending := MarkPaymentPending(Bump(o)).value;
    var p := OpenedPayment(db, pending, key, externalId);
    Commit(if p.id == db.nextId then DrawId(db) else db, pending, Some(p), Some(Event(PaymentInitiated, o.id, queue)))
  }

  lemma AcceptedKeeps(db: Db, orderId: Id, key: Option<string>, externalId: string, queue: bool)
    requires Inv(db) && orderId in db.orders && db.orders[orderId].status in {Confirmed, PaymentFailed}
    requires key.Some? ==> PaymentByKey(db.payments, key.value).None?
    ensures var db' := AcceptedDb(db, db.orders[orderId], key, externalId, queue); Inv(db') && Evolves(db, db')
  {
    var o := MarkPaymentPending(Bump(db.orders[orderId])).value;
    var p := OpenedPayment(db, o, key, externalId);
    var e := Some(Event(PaymentInitiated, orderId, queue));
    assert o.id == orderId;
    AcceptedCommits(db, orderId, key, externalId, queue);
    if p.id == db.nextId {
      DrawCommitMoves(db, o, Some(p), e);
    } else {
      CommitMoves(db, o, Some(p), e);
    }
  }

  lemma RequestIsAccepted(db: Db, o: OrderRow, key: Option<string>, externalId: string, queue: bool)
    requires MarkPaymentPending(Bump(o)).Ok?
    ensures var db' := RequestPayment(db, o, key, Accepted(externalId), queue).db;
      var accepted := AcceptedDb(db, o, key, externalId, queue);
      db' == accepted || db' == Record(accepted, key, InitiatePayment, OrderDigest(o.id))
  {
  }

  lemma RequestKeeps(db: Db, orderId: Id, key: Option<string>, externalId: string, queue: bool)
    requires Inv(db) && orderId in db.orders && db.orders[orderId].status in {Confirmed, PaymentFailed}
    requires key.Some? ==> PaymentByKey(db.payments, key.value).None?
    ensures var db' := RequestPayment(db, db.orders[orderId], key, Accepted(externalId), queue).db;
      Inv(db') && Evolves(db, db')
  {
    var o := db.orders[orderId];
    AcceptedKeeps(db, orderId, key, externalId, queue);
    RecordKeeps(db, AcceptedDb(db, o, key, externalId, queue), key, InitiatePayment, OrderDigest(o.id));
    RequestIsAccepted(db, o, key, externalId, queue);
  }

  lemma InitiateKeeps(db: Db, orderId: Id, key: Option<string>, gateway: GatewayReply, queue: bool)
    requires Inv(db)
    ensures var db' := Initiate(db, orderId, key, gateway, queue).db; Inv(db') && Evolves(db, db')
  {
    if Initiate(db, orderId, key, gateway, queue).db == db {
      NothingMoves(db, db);
    } else {
      match gateway
      case GatewayError => GatewayFailureKeeps(db, orderId);
      case Accepted(externalId) => RequestKeeps(db, orderId, key, externalId, queue);
    }
  }

  lemma SettleKeeps(db: Db, paymentId: Id, approved: bool, transactionId: string, queue: bool)
    requires Inv(db) && paymentId in db.payments && db.payments[paymentId].status == Pending
    requires Verdict(Bump(db.orders[db.payments[paymentId].orderId]), approved).Ok?
    ensures var p := db.payments[paymentId];
      var o := Verdict(Bump(db.orders[p.orderId]), approved).value;
      var e := Event(if approved then PaymentApproved else PaymentRejected, o.id, queue);
      var db' := Commit(db, o, Some(SettledPayment(p, approved, transactionId)), Some(e));
      Inv(db') && Evolves(db, db')
  {
    var p := db.payments[paymentId];
    PaymentOfKey(db, paymentId);
    var o := Verdict(Bump(db.orders[p.orderId]), approved).value;
    var e := Some(Event(if approved then PaymentApproved else PaymentRejected, o.id, queue));
    var p' := Some(SettledPayment(p, approved, transactionId));
    assert ItemIdsBelow(db.orders[p.orderId], db.nextId);
    assert SettledMove(ViewOf(db, p.orderId), Written(db, o, p', e), approved);
    CommitMoves(db, o, p', e);
  }

  lemma CallbackKeeps(db: Db, paymentId: Id, status: string, transactionId: string, key: Option<string>, queue: bool)
    requires Inv(db)
    ensures var db' := Callback(db, paymentId, status, transactionId, key, queue).db; Inv(db') && Evolves(db, db')
  {
    var r := Callback(db, paymentId, status, transactionId, key, queue);
    if r.db == db {
      NothingMoves(db, db);
    } else {
      var p := db.payments[paymentId];
      var approved := SaysApproved(status);
      var o := Verdict(Bump(db.orders[p.orderId]), approved).value;
      var e := Event(if approved then PaymentApproved else PaymentRejected, o.id, queue);
      SettleKeeps(db, paymentId, approved, transactionId, queue);
      RecordKeeps(db, Commit(db, o, Some(SettledPayment(p, approved, transactionId)), Some(e)), key, PaymentCallback,
                  CallbackDigest(paymentId, CallbackBody(status, transactionId)));
    }
  }

  /** The invariant of serial runs: every use case keeps it, and moves each order. */
  lemma ExecKeeps(db: Db, c: Command)
    requires Inv(db)
    ensures Inv(Exec(db, c)) && Evolves(db, Exec(db, c))
  {
    match c
    case DoCreate(customerId, customer) => CreateKeeps(db, customerId, customer);
    case DoAddItem(o, p, q, product) => AddItemKeeps(db, o, p, q, product);
    case DoRemoveItem(o, i) => RemoveItemKeeps(db, o, i);
    case DoConfirm(o, k, customer, catalog, queue) => ConfirmKeeps(db, o, k, customer, catalog, queue);
    case DoCancel(o, reason, queue) => CancelKeeps(db, o, reason, queue);
    case DoInitiate(o, k, gateway, queue) => InitiateKeeps(db, o, k, gateway, queue);
    case DoCallback(p, status, txn, k, queue) => CallbackKeeps(db, p, status, txn, k, queue);
  }
}
