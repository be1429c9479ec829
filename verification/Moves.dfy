/**
 The ways one use case can change what the database holds of one order, and why each
 of them keeps the invariant of that order.
 */
module Moves {
  import opened Domain
  import opened Store
  import opened Behaviour
  import opened Invariant
  import Basket

  /** The confirmation failed: only the saga row says so. */
  predicate SagaNoted(v: View, v': View) {
    v'.saga.Some? && v'.saga.value.status != Completed && v' == v.(saga := v'.saga)
  }

  ghost predicate Edited(v: View, v': View) {
    && v.order.status == Draft
    && v' == v.(order := Bump(v.order).(items := v'.order.items))
    && Basket.WellFormed(v'.order.items)
    && Unpriced(v'.order)
  }

  ghost predicate ConfirmedMove(v: View, v': View) {
    && (exists prices :: ConfirmWithPrices(Bump(v.order), prices) == Ok(v'.order))
    && v'.payment == v.payment
    && v'.saga.Some? && v'.saga.value.status == Completed && v'.saga.value.payload == TotalOf(v'.order.total)
    && v'.events == v.events + [OrderConfirmed]
  }

  ghost predicate CancelledMove(v: View, v': View) {
    && (exists reason :: Cancel(Bump(v.order), reason) == Ok(v'.order))
    && v'.payment == (if v.payment.Some? && v.payment.value.status == Pending
                      then Some(v.payment.value.(status := Void)) else v.payment)
    && v'.saga == v.saga
    && v'.events == v.events + [OrderCancelled]
  }

  /** The gateway refused: pending and back, two versions later. */
  predicate RolledBack(v: View, v': View) {
    && v.order.status in {Confirmed, PaymentFailed}
    && v' == v.(order := Bump(Bump(v.order)))
  }

  predicate InitiatedMove(v: View, v': View) {
    && MarkPaymentPending(Bump(v.order)) == Ok(v'.order)
    && v'.payment.Some? && v'.payment.value.status == Pending
    && (v.payment.Some? ==>
          var p, p' := v.payment.value, v'.payment.value;
          p' == p.(status := Pending, externalReference := p'.externalReference))
    && (v.payment.None? ==> v'.payment.value.amount == v.order.total)
    && v'.saga == v.saga
    && v'.events == v.events + [PaymentInitiated]
  }

  predicate SettledMove(v: View, v': View, approved: bool) {
    && v.payment.Some? && v.payment.value.status == Pending
    && Verdict(Bump(v.order), approved) == Ok(v'.order)
    && v'.payment.Some?
    && v'.payment.value == v.payment.value.(
         status := if approved then Approved else Rejected, externalReference := v'.payment.value.externalReference)
    && v'.saga == v.saga
    && v'.events == v.events + [if approved then PaymentApproved else PaymentRejected]
  }

  ghost predicate MayMove(v: View, v': View) {
    || v' == v
    || SagaNoted(v, v')
    || Edited(v, v')
    || ConfirmedMove(v, v')
    || CancelledMove(v, v')
    || RolledBack(v, v')
    || InitiatedMove(v, v')
    || SettledMove(v, v', true)
    || SettledMove(v, v', false)
  }

  // ---- Each move keeps an order good ----

  lemma {:induction false} PricedSum(items: seq<OrderItem>, prices: map<string, int>)
    requires AllPriced(items, prices)
    ensures forall i :: 0 <= i < |items| ==> LineOk(Lines(items)[i], prices)
    ensures SumOfItems(PriceItems(items, prices)) == Total(Lines(items), prices)
  {
    PricedLinesOk(items, prices);
    if items != [] {
      var init := items[..|items| - 1];
      PricedSum(init, prices);
      assert PriceItems(items, prices)[..|items| - 1] == PriceItems(init, prices);
      assert Lines(items)[..|items| - 1] == Lines(init);
    }
  }

  lemma ConfirmationPrices(o: OrderRow, prices: map<string, int>)
    requires ConfirmWithPrices(o, prices).Ok?
    requires Basket.WellFormed(o.items)
    ensures var o' := ConfirmWithPrices(o, prices).value; Priced(o') && Basket.WellFormed(o'.items)
  {
    NoFaultIffAllPriced(o.items, prices);
    PricedSum(o.items, prices);
  }

  lemma Appended(events: seq<EventKind>, e: EventKind)
    ensures Replay(events + [e]) == Follow(Replay(events), e)
    ensures forall k :: Count(events + [e], k) == Count(events, k) + if e == k then 1 else 0
  {
  }

  lemma MoveKeepsAccount(v: View, v': View, e: EventKind)
    requires Good(v) && v'.events == v.events + [e]
    requires ConfirmedMove(v, v') || CancelledMove(v, v') || InitiatedMove(v, v')
          || SettledMove(v, v', true) || SettledMove(v, v', false)
    ensures Accounted(v') && Coupled(LifeOf(v'))
  {
    assert v'.events[|v.events|] == e;
    Appended(v.events, e);
  }

  lemma ConfirmedKeepsGood(v: View, v': View)
    requires Good(v) && ConfirmedMove(v, v')
    ensures Good(v')
  {
    MoveKeepsAccount(v, v', OrderConfirmed);
    var prices :| ConfirmWithPrices(Bump(v.order), prices) == Ok(v'.order);
    ConfirmationPrices(Bump(v.order), prices);
  }

  lemma PaymentMoveKeepsRows(v: View, v': View)
    requires Coupled(LifeOf(v)) && GoodRows(v)
    requires CancelledMove(v, v') || InitiatedMove(v, v') || SettledMove(v, v', true) || SettledMove(v, v', false)
    ensures GoodRows(v')
  {
  }

  lemma PaymentMoveKeepsGood(v: View, v': View)
    requires Good(v)
    requires CancelledMove(v, v') || InitiatedMove(v, v') || SettledMove(v, v', true) || SettledMove(v, v', false)
    ensures Good(v')
  {
    PaymentMoveKeepsRows(v, v');
    var e := v'.events[|v.events|];
    assert v'.events == v.events + [e];
    MoveKeepsAccount(v, v', e);
  }

  lemma QuietMoveKeepsGood(v: View, v': View)
    requires Good(v)
    requires SagaNoted(v, v') || Edited(v, v') || RolledBack(v, v')
    ensures Good(v')
  {
  }

  lemma MoveKeepsGood(v: View, v': View)
    requires Good(v) && MayMove(v, v')
    ensures Good(v')
  {
    if v' == v {
    } else if SagaNoted(v, v') || Edited(v, v') || RolledBack(v, v') {
      QuietMoveKeepsGood(v, v');
    } else if ConfirmedMove(v, v') {
      ConfirmedKeepsGood(v, v');
    } else {
      PaymentMoveKeepsGood(v, v');
    }
  }

  // ---- What any move respects ----

  /** The part of an order that leaving DRAFT freezes. */
  predicate SameGoods(o: OrderRow, o': OrderRow) {
    o'.items == o.items && o'.total == o.total
  }

  predicate SamePayment(p: PaymentRow, p': PaymentRow) {
    p' == p.(status := p'.status, externalReference := p'.externalReference)
  }

  predicate Terminal(s: OrderStatus) { s in {Paid, Cancelled} }

  ghost predicate Respects(v: View, v': View) {
    && v'.order.id == v.order.id && v'.order.customerId == v.order.customerId
    && v'.order.version >= v.order.version
    && (v'.order.version == v.order.version ==> v'.order == v.order && v'.payment == v.payment && v'.events == v.events)
    && v.order.attempts <= v'.order.attempts
    && (v.order.status != Draft ==> SameGoods(v.order, v'.order) && v'.order.status != Draft)
    && (Terminal(v.order.status) ==> v'.order == v.order && v'.payment == v.payment && v'.events == v.events)
    && (v.order.attempts > 0 ==> v'.order.status != Confirmed)
    && (v.payment.Some? ==> v'.payment.Some? && SamePayment(v.payment.value, v'.payment.value))
    && v.events <= v'.events
    && (IsActive(v'.order) ==> IsActive(v.order))
  }

  lemma MoveRespects(v: View, v': View)
    requires Good(v) && MayMove(v, v')
    ensures Respects(v, v')
    ensures v'.order.status == v.order.status || CanTransition(v.order.status, v'.order.status)
    ensures |v'.events| <= |v.events| + 1
    ensures |v'.events| > |v.events| ==> Remaining(LifeOf(v')) < Remaining(LifeOf(v))
    ensures |v'.events| == |v.events| ==> LifeOf(v') == LifeOf(v)
  {
    if Cancelled == v.order.status {
      assert v' == v || SagaNoted(v, v');
    }
  }

  lemma RespectsTransitive(a: View, b: View, c: View)
    requires Respects(a, b) && Respects(b, c)
    ensures Respects(a, c)
  {
  }
}
