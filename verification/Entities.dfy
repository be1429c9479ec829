/**
 The mutable entities Order and Payment, and the pricing loop. Each method is proved to
 perform the domain operation of the same name on the entity's value, or to raise and say what it left behind.
 */
module Entities {
  import opened Domain

  /** PricingService.calculate_total. */
  method CalculateTotal(lines: seq<(string, int)>, prices: map<string, int>) returns (r: Result<nat>)
    ensures r.Ok? <==> forall i :: 0 <= i < |lines| ==> LineOk(lines[i], prices)
    ensures r.Ok? ==> r.value == Total(lines, prices)
    ensures r.Err? ==> r.error == ValueError
  {
    var total: nat := 0;
    for i := 0 to |lines|
      invariant forall k :: 0 <= k < i ==> LineOk(lines[..i][k], prices)
      invariant total == Total(lines[..i], prices)
    {
      var (productId, quantity) := lines[i];
      if productId !in prices {
        return Err(ValueError);
      }
      var unit := prices[productId];
      if unit < 0 || unit * quantity < 0 {
        assert !LineOk(lines[i], prices);
        return Err(ValueError);
      }
      assert LineOk(lines[i], prices);
      assert lines[..i + 1][..i] == lines[..i];
      total := total + unit * quantity;
    }
    assert lines[..|lines|] == lines;
    r := Ok(total);
  }

  class Order {
    const id: Id
    const customerId: string
    var status: OrderStatus
    var items: seq<OrderItem>
    var total: nat
    var attempts: nat
    var version: nat
    var reason: Option<string>

    function Value(): OrderRow
      reads this
    {
      OrderRow(id, customerId, status, items, total, attempts, version, reason)
    }

    constructor FromRow(row: OrderRow)
      ensures Value() == row
    {
      id, customerId, status, items := row.id, row.customerId, row.status, row.items;
      total, attempts, version, reason := row.total, row.attempts, row.version, row.reason;
    }

    method BumpVersion()
      modifies this`version
      ensures Value() == Bump(old(Value()))
    {
      version := version + 1;
    }

    method AddItem(productId: string, quantity: int, newId: Id) returns (r: Result<OrderItem>)
      modifies this`items
      ensures match Domain.AddItem(old(Value()), productId, quantity, newId)
        case Ok(o) => Value() == o && r.Ok? && r.value in items && r.value.productId == productId
        case Err(e) => Value() == old(Value()) && r == Err(e)
    {
      if status !in EDITABLE_ORDER_STATUSES {
        return Err(InvalidOrderState);
      }
      if quantity <= 0 {
        return Err(ValueError);
      }
      for i := 0 to |items|
        invariant items == old(items)
        invariant AddLine(items, productId, quantity, newId)
          == items[..i] + AddLine(items[i..], productId, quantity, newId)
      {
        if items[i].productId == productId {
          items := items[i := items[i].(quantity := items[i].quantity + quantity)];
          return Ok(items[i]);
        }
        assert items[i..][1..] == items[i + 1..];
      }
      var newItem := OrderItem(newId, productId, quantity, None);
      items := items + [newItem];
      r := Ok(newItem);
    }

    method RemoveItem(itemId: Id) returns (r: Result<()>)
      modifies this`items
      ensures match Domain.RemoveItem(old(Value()), itemId)
        case Ok(o) => Value() == o && r.Ok?
        case Err(e) => Value() == old(Value()) && r == Err(e)
    {
      if status !in EDITABLE_ORDER_STATUSES {
        return Err(InvalidOrderState);
      }
      for i := 0 to |items|
        invariant items == old(items)
        invariant forall k :: 0 <= k < i ==> items[k].id != itemId
        invariant RemoveLine(items, itemId) == items[..i] + RemoveLine(items[i..], itemId)
      {
        if items[i].id == itemId {
          items := items[..i] + items[i + 1..];
          return Ok(());
        }
        assert items[i..][1..] == items[i + 1..];
      }
      r := Err(ItemNotInOrder);
    }

    /** On an exception from the loop some lines may already carry a price; nothing else has changed. */
    method ConfirmWithPrices(prices: map<string, int>) returns (r: Result<()>)
      modifies this
      ensures match Domain.ConfirmWithPrices(old(Value()), prices)
        case Ok(o) => Value() == o && r.Ok?
        case Err(e) => r == Err(e) && Value() == old(Value()).(items := items) && Lines(items) == Lines(old(items))
    {
      if status != Draft || |items| == 0 {
        return Err(InvalidOrderState);
      }
      NoFaultIffAllPriced(items, prices);
      for i := 0 to |items|
        invariant Value() == old(Value()).(items := items) && |items| == |old(items)|
        invariant forall k :: 0 <= k < i ==> old(items)[k].productId in prices && prices[old(items)[k].productId] >= 0
        invariant forall k :: 0 <= k < i ==>
          items[k] == old(items)[k].(unitPrice := Some(prices[old(items)[k].productId]))
        invariant forall k :: i <= k < |items| ==> items[k] == old(items)[k]
        invariant PriceFault(old(items), prices) == PriceFault(old(items)[i..], prices)
      {
        assert old(items)[i..][0] == old(items)[i] == items[i];
        assert old(items)[i..][1..] == old(items)[i + 1..];
        if items[i].productId !in prices {
          return Err(InvalidOrderState);
        }
        if prices[items[i].productId] < 0 {
          return Err(ValueError);
        }
        items := items[i := items[i].(unitPrice := Some(prices[items[i].productId]))];
      }
      assert AllPriced(old(items), prices);
      assert items == PriceItems(old(items), prices);
      assert Lines(items) == Lines(old(items));
      PricedLinesOk(old(items), prices);
      var sum := CalculateTotal(Lines(items), prices);
      total := sum.value;
      status := Confirmed;
      r := Ok(());
    }

    method MarkPaymentPending() returns (r: Result<()>)
      modifies this`status
      ensures match Domain.MarkPaymentPending(old(Value()))
        case Ok(o) => Value() == o && r.Ok?
        case Err(e) => Value() == old(Value()) && r == Err(e)
    {
      if status !in {Confirmed, PaymentFailed} {
        return Err(InvalidOrderState);
      }
      status := PaymentPending;
      r := Ok(());
    }

    method ApplyPaymentApproved() returns (r: Result<()>)
      modifies this`status
      ensures match Domain.ApplyPaymentApproved(old(Value()))
        case Ok(o) => Value() == o && r.Ok?
        case Err(e) => Value() == old(Value()) && r == Err(e)
    {
      if status != PaymentPending {
        return Err(InvalidOrderState);
      }
      status := Paid;
      r := Ok(());
    }

    method ApplyPaymentRejected() returns (r: Result<()>)
      modifies this`status, this`attempts, this`reason
      ensures match Domain.ApplyPaymentRejected(old(Value()))
        case Ok(o) => Value() == o && r.Ok?
        case Err(e) => Value() == old(Value()) && r == Err(e)
    {
      if status != PaymentPending {
        return Err(InvalidOrderState);
      }
      attempts := attempts + 1;
      if attempts >= MAX_PAYMENT_ATTEMPTS {
        status := Cancelled;
        reason := Some(AUTO_CANCELLED);
      } else {
        status := PaymentFailed;
      }
      r := Ok(());
    }

    method Cancel(reason: Option<string>) returns (r: Result<()>)
      modifies this`status, this`reason
      ensures match Domain.Cancel(old(Value()), reason)
        case Ok(o) => Value() == o && r.Ok?
        case Err(e) => Value() == old(Value()) && r == Err(e)
    {
      if status !in CANCELLABLE_ORDER_STATUSES {
        return Err(InvalidOrderState);
      }
      status := Cancelled;
      this.reason := reason;
      r := Ok(());
    }
  }

  class Payment {
    const id: Id
    const orderId: Id
    const amount: nat
    const idempotencyKey: Option<string>
    var status: PaymentStatus
    var externalReference: Option<string>

    function Value(): PaymentRow
      reads this
    {
      PaymentRow(id, orderId, amount, status, externalReference, idempotencyKey)
    }

    constructor FromRow(row: PaymentRow)
      ensures Value() == row
    {
      id, orderId, amount, status := row.id, row.orderId, row.amount, row.status;
      externalReference, idempotencyKey := row.externalReference, row.idempotencyKey;
    }

    /** Approve, reject and void check no status: the use cases decide when they are called. */
    method Approve(reference: string)
      modifies this
      ensures Value() == old(Value()).(status := Approved, externalReference := Some(reference))
    {
      status := Approved;
      externalReference := Some(reference);
    }

    method Reject()
      modifies this`status
      ensures Value() == old(Value()).(status := Rejected)
    {
      status := Rejected;
    }

    method VoidPayment()
      modifies this`status
      ensures Value() == old(Value()).(status := Void)
    {
      status := Void;
    }

    method Reinitiate(reference: string) returns (r: Result<()>)
      modifies this
      ensures r == (if old(status) == Rejected then Ok(()) else Err(InvalidOrderState))
      ensures Value() ==
        if old(status) == Rejected then old(Value()).(status := Pending, externalReference := Some(reference))
                         else old(Value())
    {
      if status != Rejected {
        return Err(InvalidOrderState);
      }
      status := Pending;
      externalReference := Some(reference);
      r := Ok(());
    }
  }
}
