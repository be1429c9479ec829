/**
 The use cases cut at their database accesses and interleaved in any way. A `Flight` is
 a use case in progress with the snapshots it holds; any flight may also stop at any point, on
 an exception or a crash. A save of an order is one compare-and-set on its version, as ADR-005
 intends (TwoStepSave cuts the code's own save in two); payment
 rows carry no version and are overwritten. Idempotency records and the outbox do
 not touch order rows and are left out of this layer; the early returns they cause are flights that stop.
 */
module Interleaving {
  import opened Domain
  import opened Store
  import opened Behaviour

  type FlightId = nat

  /** The domain operations that are committed to order rows. `Restore` is the gateway rollback. */
  datatype DomainOp =
    | Add(productId: string, quantity: int, newId: Id)
    | Remove(itemId: Id)
    | ConfirmAt(prices: map<string, int>)
    | CancelFor(reason: Option<string>)
    | MarkPending
    | Settle(approved: bool)
    | Restore(previous: OrderStatus)

  /** One operation on one row, with the version bump. */
  function Perform(op: DomainOp, row: OrderRow): Result<OrderRow> {
    match op
    case Add(p, q, newId) => AddItem(Bump(row), p, q, newId)
    case Remove(itemId) => RemoveItem(Bump(row), itemId)
    case ConfirmAt(prices) => ConfirmWithPrices(Bump(row), prices)
    case CancelFor(reason) => Cancel(Bump(row), reason)
    case MarkPending => MarkPaymentPending(Bump(row))
    case Settle(approved) => Verdict(Bump(row), approved)
    case Restore(previous) =>
      if row.status == PaymentPending then Ok(Bump(row).(status := previous))
      else Err(InvalidOrderState)
  }

  datatype Flight =
      /** Add, remove, confirm; cancel and restore at their last step. */
    | Saving(snap: OrderRow, op: DomainOp)
      /** Order read, payment not yet. */
    | CancelReading(snap: OrderRow, reason: Option<string>)
    | CancelVoiding(snap: OrderRow, reason: Option<string>, payment: PaymentRow)
      /** Order read and payable, payment not yet read. */
    | InitReading(snap: OrderRow, key: Option<string>)
      /** About to save PAYMENT_PENDING. */
    | InitMarking(snap: OrderRow, key: Option<string>, existing: Option<PaymentRow>)
      /** Saved, at the gateway. */
    | InitAsking(orderId: Id, key: Option<string>, previous: OrderStatus, existing: Option<PaymentRow>, amount: nat)
      /** Refused, about to read the order again. */
    | InitFailed(orderId: Id, previous: OrderStatus)
    | InitPaying(orderId: Id, key: Option<string>, previous: OrderStatus, existing: Option<PaymentRow>, amount: nat,
                 externalId: string)
      /** Payment read PENDING, order not yet. */
    | CallbackReading(payment: PaymentRow, approved: bool, transactionId: string)
    | CallbackPaying(payment: PaymentRow, snap: OrderRow, approved: bool, transactionId: string)

  datatype LogEntry = LogEntry(orderId: Id, op: DomainOp)

  /** `log` is a history variable: the operations committed to order rows, in the order of their commits. */
  datatype Sys = Sys(orders: map<Id, OrderRow>, payments: map<Id, PaymentRow>, flights: map<FlightId, Flight>,
                     log: seq<LogEntry>, nextId: Id)

  const START: Sys := Sys(map[], map[], map[], [], 0)

  datatype Call =
    | Edit(orderId: Id, op: DomainOp)
    | CancelCall(orderId: Id, reason: Option<string>)
    | InitiateCall(orderId: Id, key: Option<string>)
    | CallbackCall(paymentId: Id, approved: bool, transactionId: string)

  datatype Step =
    | Create(customerId: string)
    | Begin(f: FlightId, call: Call)
    | Advance(f: FlightId, gateway: GatewayReply)
    | Stop(f: FlightId)
    | Draw                                                         // a generated id used elsewhere

  function Land(s: Sys, f: FlightId): Sys { s.(flights := s.flights - {f}) }

  function Fly(s: Sys, f: FlightId, flight: Flight): Sys { s.(flights := s.flights[f := flight]) }

  /** Version compare-and-set of one order row. */
  predicate CanSave(s: Sys, row: OrderRow) {
    row.id in s.orders && s.orders[row.id].version + 1 == row.version
  }

  function SaveRow(s: Sys, row: OrderRow, op: DomainOp): Sys {
    s.(orders := s.orders[row.id := row], log := s.log + [LogEntry(row.id, op)])
  }

  /** The operation applied to the snapshot and committed; None if the entity or the version check refuses. */
  function CommitOrder(s: Sys, snap: OrderRow, op: DomainOp): Option<Sys> {
    match Perform(op, snap)
    case Err(_) => None
    case Ok(row) => if CanSave(s, row) then Some(SaveRow(s, row, op)) else None
  }

  /** Which calls a client can make: it does not choose settlements or rollbacks. */
  predicate IsEdit(op: DomainOp) { op.Add? || op.Remove? || op.ConfirmAt? }

  ghost function BeginCall(s: Sys, f: FlightId, call: Call): Sys {
    match call
    case Edit(o, op) => if o in s.orders && IsEdit(op) then Fly(s, f, Saving(s.orders[o], op)) else s
    case CancelCall(o, reason) => if o in s.orders then Fly(s, f, CancelReading(s.orders[o], reason)) else s
    case InitiateCall(o, key) =>
      if o in s.orders && s.orders[o].status in {Confirmed, PaymentFailed} then Fly(s, f, InitReading(s.orders[o], key))
      else s
    case CallbackCall(p, approved, txn) =>
      if p in s.payments && s.payments[p].status == Pending
      then Fly(s, f, CallbackReading(s.payments[p], approved, txn))
      else s
  }

  ghost predicate KeyIsFree(payments: map<Id, PaymentRow>, key: Option<string>) {
    key.Some? ==> PaymentByKey(payments, key.value).None?
  }

  /** A payment save: an old row takes status and reference, a new one must respect the unique order and key. */
  ghost function SavePaymentRow(s: Sys, p: PaymentRow): Option<Sys> {
    if p.id in s.payments then
      var row := s.payments[p.id].(status := p.status, externalReference := p.externalReference);
      Some(s.(payments := s.payments[p.id := row]))
    else if PaymentOf(s.payments, p.orderId).None? && KeyIsFree(s.payments, p.idempotencyKey) then
      Some(s.(payments := s.payments[p.id := p]))
    else None
  }

  ghost function PayFor(s: Sys, orderId: Id, key: Option<string>, existing: Option<PaymentRow>, amount: nat,
                        externalId: string): Option<Sys> {
    if existing.Some? && existing.value.status == Rejected then
      SavePaymentRow(s, existing.value.(status := Pending, externalReference := Some(externalId)))
    else
      SavePaymentRow(s.(nextId := s.nextId + 1), PaymentRow(s.nextId, orderId, amount, Pending, Some(externalId), key))
  }

  ghost function AdvanceFlight(s: Sys, f: FlightId, flight: Flight, gateway: GatewayReply): Sys {
    match flight
    case Saving(snap, op) =>
      (match CommitOrder(s, snap, op)
       case Some(s') => Land(s', f)
       case None => Land(s, f))
    case CancelReading(snap, reason) =>
      var p := PaymentOf(s.payments, snap.id);
      if p.Some? && p.value.status == Pending then Fly(s, f, CancelVoiding(snap, reason, p.value))
      else Fly(s, f, Saving(snap, CancelFor(reason)))
    case CancelVoiding(snap, reason, p) =>
      (match SavePaymentRow(s, p.(status := Void))
       case Some(s') => Fly(s', f, Saving(snap, CancelFor(reason)))
       case None => Land(s, f))
    case InitReading(snap, key) =>
      var p := PaymentOf(s.payments, snap.id);
      if p.Some? && p.value.status in {Pending, Approved} then Land(s, f)
      else Fly(s, f, InitMarking(snap, key, p))
    case InitMarking(snap, key, existing) =>
      (match CommitOrder(s, snap, MarkPending)
       case Some(s') => Fly(s', f, InitAsking(snap.id, key, snap.status, existing, snap.total))
       case None => Land(s, f))
    case InitAsking(o, key, previous, existing, amount) =>
      (match gateway
       case GatewayError => Fly(s, f, InitFailed(o, previous))
       case Accepted(externalId) => Fly(s, f, InitPaying(o, key, previous, existing, amount, externalId)))
    case InitFailed(o, previous) =>
      if o in s.orders && s.orders[o].status == PaymentPending then Fly(s, f, Saving(s.orders[o], Restore(previous)))
      else Land(s, f)
    case InitPaying(o, key, previous, existing, amount, externalId) =>
      (match PayFor(s, o, key, existing, amount, externalId)
       case Some(s') => Land(s', f)
       case None => Land(s, f))
    case CallbackReading(p, approved, txn) =>
      if p.orderId in s.orders && Verdict(Bump(s.orders[p.orderId]), approved).Ok?
      then Fly(s, f, CallbackPaying(p, s.orders[p.orderId], approved, txn))
      else Land(s, f)
    case CallbackPaying(p, snap, approved, txn) =>
      (match SavePaymentRow(s, SettledPayment(p, approved, txn))
       case Some(s') => Fly(s', f, Saving(snap, Settle(approved)))
       case None => Land(s, f))
  }

  /** One step of the system; a step that is not possible changes nothing. */
  ghost function Do(s: Sys, step: Step): Sys {
    match step
    case Create(customerId) =>
      s.(orders := s.orders[s.nextId := NewOrder(s.nextId, customerId)], nextId := s.nextId + 1)
    case Begin(f, call) => if f in s.flights then s else BeginCall(s, f, call)
    case Advance(f, gateway) => if f in s.flights then AdvanceFlight(s, f, s.flights[f], gateway) else s
    case Stop(f) => Land(s, f)
    case Draw => s.(nextId := s.nextId + 1)
  }

  ghost function RunSteps(s: Sys, steps: seq<Step>): Sys {
    if steps == [] then s else Do(RunSteps(s, steps[..|steps| - 1]), steps[|steps| - 1])
  }

  /** The operations committed to one order. */
  ghost function OpsOf(log: seq<LogEntry>, orderId: Id): seq<DomainOp> {
    if log == [] then []
    else OpsOf(log[..|log| - 1], orderId) + if log[|log| - 1].orderId == orderId then [log[|log| - 1].op] else []
  }

  /** A serial run of operations on one row, each on what the one before it left. */
  ghost function Serial(row: OrderRow, ops: seq<DomainOp>): Result<OrderRow> {
    if ops == [] then Ok(row)
    else match Serial(row, ops[..|ops| - 1])
      case Err(e) => Err(e)
      case Ok(mid) => Perform(ops[|ops| - 1], mid)
  }
}
