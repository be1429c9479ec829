/**
 The value side of the order-service: statuses, the reference automaton, the rows
 that the database holds, and the domain operations as functions on those rows.
 The classes in Entities are proved to perform exactly these operations.
 */
module Domain {

  datatype Option<+T> = None | Some(value: T)

  datatype Result<+T> = Ok(value: T) | Err(error: Error)

  /** The exceptions a use case can end in. `ItemNotInOrder` is the InvalidOrderStateError
      whose text says "not in order", which RemoveItem tells apart by that text. */
  datatype Error =
    | OrderNotFound | ItemNotFound | PaymentNotFound
    | InvalidOrderState | ItemNotInOrder
    | CustomerValidation | CatalogValidation | PaymentGateway
    | ActiveOrderExists | Concurrency | IdempotencyConflict
    | ValueError | IntegrityError

  type Id = nat

  datatype OrderStatus = Draft | Confirmed | PaymentPending | PaymentFailed | Paid | Cancelled

  datatype PaymentStatus = Pending | Approved | Rejected | Void

  const ACTIVE_ORDER_STATUSES: set<OrderStatus> := {Draft, Confirmed, PaymentPending, PaymentFailed}
  const EDITABLE_ORDER_STATUSES: set<OrderStatus> := {Draft}
  const CANCELLABLE_ORDER_STATUSES: set<OrderStatus> := {Draft, Confirmed, PaymentPending, PaymentFailed}
  const MAX_PAYMENT_ATTEMPTS: nat := 3

  /** The table VALID_TRANSITIONS. No code consults it; it is the automaton the entity code is compared with. */
  function ValidTransitions(from: OrderStatus): set<OrderStatus> {
    match from
    case Draft => {Confirmed, Cancelled}
    case Confirmed => {PaymentPending, Cancelled}
    case PaymentPending => {Paid, PaymentFailed, Cancelled}
    case PaymentFailed => {PaymentPending, Cancelled}
    case Paid => {}
    case Cancelled => {}
  }

  predicate CanTransition(from: OrderStatus, to: OrderStatus) {
    to in ValidTransitions(from)
  }

  /** OrderItem refuses any other quantity when it is built, and only positive amounts are added later. */
  type Quantity = n: int | n > 0 witness 1

  /** Amounts are whole cents of BRL. */
  datatype OrderItem = OrderItem(id: Id, productId: string, quantity: Quantity, unitPrice: Option<nat>)

  datatype OrderRow = OrderRow(
    id: Id, customerId: string, status: OrderStatus, items: seq<OrderItem>, total: nat,
    attempts: nat, version: nat, reason: Option<string>)

  datatype PaymentRow = PaymentRow(
    id: Id, orderId: Id, amount: nat, status: PaymentStatus,
    externalReference: Option<string>, idempotencyKey: Option<string>)

  /** A fresh order, as Order's field defaults make it. */
  function NewOrder(id: Id, customerId: string): OrderRow {
    OrderRow(id, customerId, Draft, [], 0, 0, 1, None)
  }

  /** The use cases increment `version` before they call a mutator. */
  function Bump(o: OrderRow): OrderRow {
    o.(version := o.version + 1)
  }

  // ---- Item lists ----

  /** Adds to the first line of the product, or appends a line. */
  function AddLine(items: seq<OrderItem>, productId: string, quantity: Quantity, newId: Id): seq<OrderItem> {
    if items == [] then [OrderItem(newId, productId, quantity, None)]
    else if items[0].productId == productId then [items[0].(quantity := items[0].quantity + quantity)] + items[1..]
    else [items[0]] + AddLine(items[1..], productId, quantity, newId)
  }

  predicate HasItem(items: seq<OrderItem>, itemId: Id) {
    exists i :: 0 <= i < |items| && items[i].id == itemId
  }

  /** Removes the first line with the id. */
  function RemoveLine(items: seq<OrderItem>, itemId: Id): seq<OrderItem> {
    if items == [] then []
    else if items[0].id == itemId then items[1..]
    else [items[0]] + RemoveLine(items[1..], itemId)
  }

  // ---- Prices ----

  /** The exception the pricing loop of `confirm_with_prices` raises, if any: a missing price, or a negative
      price, which Money refuses. The first faulty item decides. */
  function PriceFault(items: seq<OrderItem>, prices: map<string, int>): Option<Error> {
    if items == [] then None
    else if items[0].productId !in prices then Some(InvalidOrderState)
    else if prices[items[0].productId] < 0 then Some(ValueError)
    else PriceFault(items[1..], prices)
  }

  predicate AllPriced(items: seq<OrderItem>, prices: map<string, int>) {
    forall i :: 0 <= i < |items| ==> items[i].productId in prices && prices[items[i].productId] >= 0
  }

  lemma {:induction false} NoFaultIffAllPriced(items: seq<OrderItem>, prices: map<string, int>)
    ensures PriceFault(items, prices).None? <==> AllPriced(items, prices)
  {
    if items != [] {
      NoFaultIffAllPriced(items[1..], prices);
      assert forall i :: 1 <= i < |items| ==> items[i] == items[1..][i - 1];
      if AllPriced(items, prices) {
        assert AllPriced(items[1..], prices);
      }
    }
  }

  function PriceItems(items: seq<OrderItem>, prices: map<string, int>): seq<OrderItem>
    requires AllPriced(items, prices)
  {
    seq(|items|, i requires 0 <= i < |items| => items[i].(unitPrice := Some(prices[items[i].productId])))
  }

  function Lines(items: seq<OrderItem>): seq<(string, int)> {
    seq(|items|, i requires 0 <= i < |items| => (items[i].productId, items[i].quantity))
  }

  /** What one line may cost: the price is there, and neither it nor its multiple is negative. */
  predicate LineOk(line: (string, int), prices: map<string, int>) {
    line.0 in prices && prices[line.0] >= 0 && prices[line.0] * line.1 >= 0
  }

  /** The sum of quantity times unit price over the lines. */
  function Total(lines: seq<(string, int)>, prices: map<string, int>): (total: nat)
    requires forall i :: 0 <= i < |lines| ==> LineOk(lines[i], prices)
  {
    if lines == [] then 0
    else
      var last := lines[|lines| - 1];
      assert LineOk(last, prices);
      Total(lines[..|lines| - 1], prices) + prices[last.0] * last.1
  }

  lemma PricedLinesOk(items: seq<OrderItem>, prices: map<string, int>)
    requires AllPriced(items, prices)
    ensures forall i :: 0 <= i < |items| ==> LineOk(Lines(items)[i], prices)
  {
  }

  // ---- Domain operations on an order ----

  function AddItem(o: OrderRow, productId: string, quantity: int, newId: Id): Result<OrderRow> {
    if o.status !in EDITABLE_ORDER_STATUSES then Err(InvalidOrderState)
    else if quantity <= 0 then Err(ValueError)
    else Ok(o.(items := AddLine(o.items, productId, quantity, newId)))
  }

  function RemoveItem(o: OrderRow, itemId: Id): Result<OrderRow> {
    if o.status !in EDITABLE_ORDER_STATUSES then Err(InvalidOrderState)
    else if !HasItem(o.items, itemId) then Err(ItemNotInOrder)
    else Ok(o.(items := RemoveLine(o.items, itemId)))
  }

  function ConfirmWithPrices(o: OrderRow, prices: map<string, int>): Result<OrderRow> {
    if o.status != Draft || o.items == [] then Err(InvalidOrderState)
    else match PriceFault(o.items, prices)
      case Some(e) => Err(e)
      case None =>
        NoFaultIffAllPriced(o.items, prices);
        PricedLinesOk(o.items, prices);
        Ok(o.(items := PriceItems(o.items, prices), total := Total(Lines(o.items), prices), status := Confirmed))
  }

  function MarkPaymentPending(o: OrderRow): Result<OrderRow> {
    if o.status in {Confirmed, PaymentFailed} then Ok(o.(status := PaymentPending)) else Err(InvalidOrderState)
  }

  function ApplyPaymentApproved(o: OrderRow): Result<OrderRow> {
    if o.status == PaymentPending then Ok(o.(status := Paid)) else Err(InvalidOrderState)
  }

  const AUTO_CANCELLED: string := "Auto-cancelled after 3 payment rejections"

  function ApplyPaymentRejected(o: OrderRow): Result<OrderRow> {
    if o.status != PaymentPending then Err(InvalidOrderState)
    else if o.attempts + 1 >= MAX_PAYMENT_ATTEMPTS then
      Ok(o.(attempts := o.attempts + 1, status := Cancelled, reason := Some(AUTO_CANCELLED)))
    else Ok(o.(attempts := o.attempts + 1, status := PaymentFailed))
  }

  function Cancel(o: OrderRow, reason: Option<string>): Result<OrderRow> {
    if o.status in CANCELLABLE_ORDER_STATUSES then Ok(o.(status := Cancelled, reason := reason))
    else Err(InvalidOrderState)
  }
}
