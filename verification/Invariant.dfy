/**
 What every serial run keeps. Rows and events are looked at order by order: a `View` is
 one order with its payment, its saga row and its part of the event log.
 */
module Invariant {
  import opened Domain
  import opened Store
  import Basket

  // ---- The event log ----

  ghost function EventsOf(outbox: seq<Event>, orderId: Id): seq<EventKind> {
    if outbox == [] then []
    else
      var init, e := outbox[..|outbox| - 1], outbox[|outbox| - 1];
      EventsOf(init, orderId) + if e.orderId == orderId then [e.kind] else []
  }

  /** What the events tell of an order: its status, its payment's status and its rejections. */
  datatype Life = Life(status: OrderStatus, payment: Option<PaymentStatus>, attempts: nat)

  const BORN: Life := Life(Draft, None, 0)

  function Follow(l: Life, e: EventKind): Life {
    match e
    case OrderConfirmed => l.(status := Confirmed)
    case PaymentInitiated => l.(status := PaymentPending, payment := Some(Pending))
    case PaymentApproved => l.(status := Paid, payment := Some(Approved))
    case PaymentRejected =>
      Life(if l.attempts + 1 == MAX_PAYMENT_ATTEMPTS then Cancelled else PaymentFailed, Some(Rejected), l.attempts + 1)
    case OrderCancelled =>
      l.(status := Cancelled, payment := if l.payment == Some(Pending) then Some(Void) else l.payment)
  }

  function Replay(events: seq<EventKind>): Life {
    if events == [] then BORN else Follow(Replay(events[..|events| - 1]), events[|events| - 1])
  }

  function Count(events: seq<EventKind>, kind: EventKind): nat {
    if events == [] then 0
    else Count(events[..|events| - 1], kind) + if events[|events| - 1] == kind then 1 else 0
  }

  /** A bound on the events an order can still emit. */
  function Remaining(l: Life): int {
    match l.status
    case Draft => 7
    case Confirmed => 6
    case PaymentPending => 5 - 2 * l.attempts
    case PaymentFailed => 6 - 2 * l.attempts
    case Paid => 0
    case Cancelled => 0
  }

  // ---- One order ----

  datatype View = View(order: OrderRow, payment: Option<PaymentRow>, saga: Option<SagaRow>, events: seq<EventKind>)

  ghost function ViewOf(db: Db, orderId: Id): View
    requires orderId in db.orders
  {
    View(db.orders[orderId], PaymentOf(db.payments, orderId),
         if orderId in db.sagas then Some(db.sagas[orderId]) else None, EventsOf(db.outbox, orderId))
  }

  function LifeOfRows(o: OrderRow, p: Option<PaymentRow>): Life {
    Life(o.status, if p.Some? then Some(p.value.status) else None, o.attempts)
  }

  function LifeOf(v: View): Life {
    LifeOfRows(v.order, v.payment)
  }

  /** The two rows agree. */
  predicate Coupled(l: Life) {
    match l.status
    case Draft => l.payment == None && l.attempts == 0
    case Confirmed => l.payment == None && l.attempts == 0
    case PaymentPending => l.payment == Some(Pending) && l.attempts <= 2
    case PaymentFailed => l.payment == Some(Rejected) && 1 <= l.attempts <= 2
    case Paid => l.payment == Some(Approved) && l.attempts <= 2
    case Cancelled =>
      || (l.payment == None && l.attempts == 0)
      || (l.payment == Some(Void) && l.attempts <= 2)
      || (l.payment == Some(Rejected) && 1 <= l.attempts <= 3)
  }

  ghost predicate Unpriced(o: OrderRow) {
    o.total == 0 && forall i :: 0 <= i < |o.items| ==> o.items[i].unitPrice == None
  }

  function SumOfItems(items: seq<OrderItem>): nat {
    if items == [] then 0
    else
      var last := items[|items| - 1];
      SumOfItems(items[..|items| - 1]) + (if last.unitPrice.Some? then last.unitPrice.value * last.quantity else 0)
  }

  /** Confirmed once: every line has its price and the total is theirs. */
  ghost predicate Priced(o: OrderRow) {
    && o.items != []
    && (forall i :: 0 <= i < |o.items| ==> o.items[i].unitPrice.Some?)
    && o.total == SumOfItems(o.items)
  }

  ghost predicate WellPriced(o: OrderRow) {
    match o.status
    case Draft => Unpriced(o)
    case Cancelled => Unpriced(o) || Priced(o)
    case _ => Priced(o)
  }

  ghost predicate Accounted(v: View) {
    && Replay(v.events) == LifeOf(v)
    && |v.events| + Remaining(LifeOf(v)) <= 7
    && Count(v.events, PaymentInitiated) == Count(v.events, PaymentApproved) + Count(v.events, PaymentRejected)
         + (if v.payment.Some? && v.payment.value.status in {Pending, Void} then 1 else 0)
  }

  /** Items, prices, amounts and saga of one order. */
  ghost predicate GoodRows(v: View) {
    && Basket.WellFormed(v.order.items)
    && WellPriced(v.order)
    && (v.payment.Some? ==> Priced(v.order) && v.payment.value.amount == v.order.total)
    && (v.saga.Some? && v.saga.value.status == Completed ==>
         Priced(v.order) && v.saga.value.payload == TotalOf(v.order.total))
    && v.order.version >= 1
  }

  ghost predicate Good(v: View) {
    Coupled(LifeOf(v)) && GoodRows(v) && Accounted(v)
  }

  // ---- The whole database ----

  ghost predicate ItemIdsBelow(o: OrderRow, bound: Id) {
    forall i :: 0 <= i < |o.items| ==> o.items[i].id < bound
  }

  ghost predicate Keyed(db: Db) {
    && (forall o :: o in db.orders ==> db.orders[o].id == o && o < db.nextId && ItemIdsBelow(db.orders[o], db.nextId))
    && (forall p :: p in db.payments ==> p < db.nextId)
    && (forall o :: o in db.sagas ==> o in db.orders)
    && (forall i :: 0 <= i < |db.outbox| ==> db.outbox[i].orderId in db.orders)
    && PaymentConstraints(db.payments, db.orders)
  }

  predicate IsActive(o: OrderRow) { o.status in ACTIVE_ORDER_STATUSES }

  /** No customer has two orders in an active status. */
  ghost predicate OneActive(orders: map<Id, OrderRow>) {
    forall a, b | a in orders && b in orders && IsActive(orders[a]) && IsActive(orders[b]) ::
      orders[a].customerId == orders[b].customerId ==> a == b
  }

  /** The part of the invariant that the use cases rely on without checking it. */
  ghost predicate RowsAgree(db: Db) {
    Keyed(db) && forall o :: o in db.orders ==> Coupled(LifeOfRows(db.orders[o], PaymentOf(db.payments, o)))
  }

  ghost predicate Inv(db: Db) {
    Keyed(db) && OneActive(db.orders) && forall o :: o in db.orders ==> Good(ViewOf(db, o))
  }

  lemma InvMeansRowsAgree(db: Db)
    requires Inv(db)
    ensures RowsAgree(db)
  {
  }
}
