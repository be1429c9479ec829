/**
 What holds in every state of every serial run, and between any two states of one.
 */
module SerialRuns {
  import opened Domain
  import opened Store
  import opened Behaviour
  import opened Invariant
  import opened Moves
  import opened Preservation
  import Basket

  lemma ExecRespects(before: View, mid: Db, db': Db, o: Id)
    requires Inv(mid) && Evolves(mid, db') && o in mid.orders && Respects(before, ViewOf(mid, o))
    ensures o in db'.orders && Respects(before, ViewOf(db', o))
  {
    assert Good(ViewOf(mid, o));
    MoveRespects(ViewOf(mid, o), ViewOf(db', o));
    RespectsTransitive(before, ViewOf(mid, o), ViewOf(db', o));
  }

  /** Every order is there still, as a respectful successor of what it was. */
  ghost predicate Succeeds(db: Db, db': Db) {
    forall o :: o in db.orders ==> o in db'.orders && Respects(ViewOf(db, o), ViewOf(db', o))
  }

  lemma SucceedsItself(db: Db)
    requires Inv(db)
    ensures Succeeds(db, db)
  {
  }

  lemma SucceedsOn(db: Db, mid: Db, db': Db)
    requires Succeeds(db, mid) && Inv(mid) && Evolves(mid, db')
    ensures Succeeds(db, db')
  {
    forall o | o in db.orders ensures o in db'.orders && Respects(ViewOf(db, o), ViewOf(db', o)) {
      ExecRespects(ViewOf(db, o), mid, db', o);
    }
  }

  /** Any number of use cases keep the invariant, and leave each order a respectful successor of what it was. */
  lemma {:induction false} RunKeeps(db: Db, commands: seq<Command>)
    requires Inv(db)
    ensures Inv(Run(db, commands))
    ensures Succeeds(db, Run(db, commands))
  {
    if commands == [] {
      SucceedsItself(db);
    } else {
      var init, c := commands[..|commands| - 1], commands[|commands| - 1];
      RunKeeps(db, init);
      ExecKeeps(Run(db, init), c);
      SucceedsOn(db, Run(db, init), Exec(Run(db, init), c));
    }
  }

  lemma {:induction false} EveryRun(commands: seq<Command>)
    ensures Inv(Run(EMPTY, commands))
  {
    RunKeeps(EMPTY, commands);
  }

  /** In every reachable state the order row and the payment row agree. */
  lemma {:induction false} RowsAgreeInEveryState(commands: seq<Command>, o: Id)
    requires o in Run(EMPTY, commands).orders
    ensures var db := Run(EMPTY, commands); var order, p := db.orders[o], PaymentOf(db.payments, o);
      && (order.status in {Draft, Confirmed} ==> p == None && order.attempts == 0)
      && (order.status == PaymentPending ==> p.Some? && p.value.status == Pending && order.attempts <= 2)
      && (order.status == PaymentFailed ==> p.Some? && p.value.status == Rejected && 1 <= order.attempts <= 2)
      && (order.status == Paid ==> p.Some? && p.value.status == Approved && order.attempts <= 2)
      && (order.status == Cancelled ==> p == None || p.value.status in {Void, Rejected})
      && (order.attempts == 3 ==> order.status == Cancelled) && order.attempts <= 3
  {
    EveryRun(commands);
    assert Good(ViewOf(Run(EMPTY, commands), o));
  }

  /** A VOID payment belongs to a cancelled order, although VOID is committed before the order is asked. */
  lemma {:induction false} VoidMeansCancelled(commands: seq<Command>, p: Id)
    requires p in Run(EMPTY, commands).payments && Run(EMPTY, commands).payments[p].status == Void
    ensures var db := Run(EMPTY, commands); var o := db.payments[p].orderId;
      o in db.orders && db.orders[o].status == Cancelled
  {
    var db := Run(EMPTY, commands);
    EveryRun(commands);
    PaymentOfKey(db, p);
    assert Good(ViewOf(db, db.payments[p].orderId));
  }

  /** Replaying an order's outbox from DRAFT gives back its status, its payment's status and its rejections. */
  lemma {:induction false} EventsRebuildState(commands: seq<Command>, o: Id)
    requires o in Run(EMPTY, commands).orders
    ensures var db := Run(EMPTY, commands);
      Replay(EventsOf(db.outbox, o)) == LifeOfRows(db.orders[o], PaymentOf(db.payments, o))
  {
    EveryRun(commands);
    assert Good(ViewOf(Run(EMPTY, commands), o));
  }

  /** However long the run and however often the gateway fails, an order emits at most seven events, and
      initiations are matched by verdicts but for the payment still open or voided. */
  lemma {:induction false} EventBudget(commands: seq<Command>, o: Id)
    requires o in Run(EMPTY, commands).orders
    ensures var db := Run(EMPTY, commands); var events, p := EventsOf(db.outbox, o), PaymentOf(db.payments, o);
      && |events| <= 7
      && Count(events, PaymentInitiated) == Count(events, PaymentApproved) + Count(events, PaymentRejected)
           + (if p.Some? && p.value.status in {Pending, Void} then 1 else 0)
  {
    EveryRun(commands);
    assert Good(ViewOf(Run(EMPTY, commands), o));
  }

  /** One active order per customer. */
  lemma {:induction false} OneActiveOrderPerCustomer(commands: seq<Command>, a: Id, b: Id)
    requires a != b && a in Run(EMPTY, commands).orders && b in Run(EMPTY, commands).orders
    requires Run(EMPTY, commands).orders[a].customerId == Run(EMPTY, commands).orders[b].customerId
    ensures var orders := Run(EMPTY, commands).orders;
      orders[a].status !in ACTIVE_ORDER_STATUSES || orders[b].status !in ACTIVE_ORDER_STATUSES
  {
    EveryRun(commands);
    var orders := Run(EMPTY, commands).orders;
    assert IsActive(orders[a]) && IsActive(orders[b]) ==> a == b;
  }

  /** Out of DRAFT the goods and the total are frozen; every payment, reopened or not, is for that total. */
  lemma {:induction false} PriceIsFrozen(before: seq<Command>, after: seq<Command>, o: Id)
    requires o in Run(EMPTY, before).orders && Run(EMPTY, before).orders[o].status != Draft
    ensures var db, db' := Run(EMPTY, before), Run(Run(EMPTY, before), after);
      && o in db'.orders && db'.orders[o].items == db.orders[o].items && db'.orders[o].total == db.orders[o].total
      && (PaymentOf(db'.payments, o).Some? ==> PaymentOf(db'.payments, o).value.amount == db.orders[o].total)
  {
    EveryRun(before);
    RunKeeps(Run(EMPTY, before), after);
    assert Good(ViewOf(Run(Run(EMPTY, before), after), o));
  }

  /** Lines have distinct products and ids; a draft has no prices, and once it is confirmed its total is what its
      lines add up to. */
  lemma {:induction false} TotalsAddUp(commands: seq<Command>, o: Id)
    requires o in Run(EMPTY, commands).orders
    ensures var order := Run(EMPTY, commands).orders[o];
      && Basket.WellFormed(order.items)
      && (order.status == Draft ==> Unpriced(order))
      && (order.status !in {Draft, Cancelled} ==> Priced(order))
      && (order.status == Cancelled ==> Unpriced(order) || Priced(order))
  {
    EveryRun(commands);
    assert Good(ViewOf(Run(EMPTY, commands), o));
  }

  /** PAID and CANCELLED are final: order, payment and events stay as they are. */
  lemma {:induction false} TerminalOrdersStay(before: seq<Command>, after: seq<Command>, o: Id)
    requires o in Run(EMPTY, before).orders && Run(EMPTY, before).orders[o].status in {Paid, Cancelled}
    ensures var db, db' := Run(EMPTY, before), Run(Run(EMPTY, before), after);
      && o in db'.orders && db'.orders[o] == db.orders[o]
      && PaymentOf(db'.payments, o) == PaymentOf(db.payments, o)
      && EventsOf(db'.outbox, o) == EventsOf(db.outbox, o)
  {
    EveryRun(before);
    RunKeeps(Run(EMPTY, before), after);
    var v, v' := ViewOf(Run(EMPTY, before), o), ViewOf(Run(Run(EMPTY, before), after), o);
    assert Respects(v, v');
  }

  /** A use case leaves a status alone or follows the table; the gateway's rollback does not show in a serial run. */
  lemma {:induction false} StatusFollowsTable(commands: seq<Command>, c: Command, o: Id)
    requires o in Run(EMPTY, commands).orders
    ensures var db := Run(EMPTY, commands); var db' := Exec(db, c);
      && o in db'.orders
      && (db'.orders[o].status == db.orders[o].status || CanTransition(db.orders[o].status, db'.orders[o].status))
      && |EventsOf(db.outbox, o)| <= |EventsOf(db'.outbox, o)| <= |EventsOf(db.outbox, o)| + 1
      && (|EventsOf(db'.outbox, o)| == |EventsOf(db.outbox, o)| ==> db'.orders[o].status == db.orders[o].status)
  {
    EveryRun(commands);
    var db := Run(EMPTY, commands);
    ExecKeeps(db, c);
    assert Good(ViewOf(db, o));
    MoveRespects(ViewOf(db, o), ViewOf(Exec(db, c), o));
  }

  /** COMPLETED in the saga row means the order left DRAFT by a confirmation, and the recorded total is still the
      order's. */
  lemma {:induction false} CompletedSagaAgrees(commands: seq<Command>, o: Id)
    requires o in Run(EMPTY, commands).sagas && Run(EMPTY, commands).sagas[o].status == Completed
    ensures var db := Run(EMPTY, commands);
      && o in db.orders && db.orders[o].status != Draft && Priced(db.orders[o])
      && db.sagas[o].payload == TotalOf(db.orders[o].total)
  {
    var db := Run(EMPTY, commands);
    EveryRun(commands);
    assert Good(ViewOf(db, o));
    assert Priced(db.orders[o]) && db.orders[o].items[0].unitPrice.Some?;
  }

  // ---- Single use cases, in any reachable state ----

  /** What lets an initiation get as far as the gateway. */
  ghost predicate ReachesGateway(db: Db, orderId: Id, key: Option<string>) {
    && orderId in db.orders && db.orders[orderId].status in {Confirmed, PaymentFailed}
    && (key.Some? ==> PaymentByKey(db.payments, key.value).None?)
    && (Recorded(db, key, InitiatePayment).Some? ==> Recorded(db, key, InitiatePayment) == Some(OrderDigest(orderId)))
  }

  ghost function TwoVersionsOn(db: Db, orderId: Id): Db
    requires orderId in db.orders
  {
    db.(orders := db.orders[orderId := Bump(Bump(db.orders[orderId]))])
  }

  /** A gateway failure is reported exactly when the gateway was asked. It leaves two versions behind and nothing
      else: the same initiation tried again, with any reply, does what it would have done without the failure. */
  lemma GatewayFailureRestores(db: Db, orderId: Id, key: Option<string>, gateway: GatewayReply, queue: bool)
    requires Keyed(db)
    ensures var failed := Initiate(db, orderId, key, GatewayError, queue);
      && (failed.outcome == Err(PaymentGateway) <==> ReachesGateway(db, orderId, key))
      && (ReachesGateway(db, orderId, key) ==> failed.db == TwoVersionsOn(db, orderId))
      && (!ReachesGateway(db, orderId, key) ==> failed.db == db)
    ensures ReachesGateway(db, orderId, key) ==>
      var again := Initiate(TwoVersionsOn(db, orderId), orderId, key, gateway, queue);
      var first := Initiate(db, orderId, key, gateway, queue);
      orderId in first.db.orders && again == Reply(TwoVersionsOn(first.db, orderId), first.outcome)
  {
    if ReachesGateway(db, orderId, key) {
      SameRequestLater(db, db.orders[orderId], key, gateway, queue);
    }
  }

  lemma SameRequestLater(db: Db, o: OrderRow, key: Option<string>, gateway: GatewayReply, queue: bool)
    requires o.id in db.orders && db.orders[o.id] == o && MarkPaymentPending(Bump(o)).Ok?
    ensures var first := RequestPayment(db, o, key, gateway, queue);
      && o.id in first.db.orders
      && RequestPayment(TwoVersionsOn(db, o.id), Bump(Bump(o)), key, gateway, queue)
           == Reply(TwoVersionsOn(first.db, o.id), first.outcome)
  {
    if gateway.Accepted? {
      var pending, later := MarkPaymentPending(Bump(o)).value, MarkPaymentPending(Bump(Bump(Bump(o)))).value;
      assert later == Bump(Bump(pending));
      var restored := TwoVersionsOn(db, o.id);
      assert OpenedPayment(restored, later, key, gateway.externalId)
        == OpenedPayment(db, pending, key, gateway.externalId);
      assert restored.orders[o.id := later] == db.orders[o.id := pending][o.id := later];
    }
  }

  ghost predicate IsFirstVerdict(db: Db, paymentId: Id, key: Option<string>) {
    paymentId in db.payments && db.payments[paymentId].status == Pending && Recorded(db, key, PaymentCallback).None?
  }

  /** No callback is refused by its order, whatever its verdict, and a first verdict settles both rows. */
  lemma CallbackIsNeverRefused(db: Db, paymentId: Id, status: string, transactionId: string, key: Option<string>,
                               queue: bool)
    requires RowsAgree(db)
    ensures var r := Callback(db, paymentId, status, transactionId, key, queue);
      && r.outcome != Err(InvalidOrderState) && r.outcome != Err(OrderNotFound)
      && (IsFirstVerdict(db, paymentId, key) ==>
            && r.outcome.Ok? && r.db.payments[paymentId] == r.outcome.value && r.outcome.value.orderId in r.db.orders
            && (if SaysApproved(status)
                then r.outcome.value.status == Approved && r.db.orders[r.outcome.value.orderId].status == Paid
                else && r.outcome.value.status == Rejected
                     && r.db.orders[r.outcome.value.orderId].status in {PaymentFailed, Cancelled}))
  {
    if paymentId in db.payments && db.payments[paymentId].status == Pending {
      var o := db.payments[paymentId].orderId;
      PaymentOfKey(db, paymentId);
      assert Coupled(LifeOfRows(db.orders[o], PaymentOf(db.payments, o)));
      assert db.orders[o].status == PaymentPending && db.orders[o].id == o;
    }
  }

  ghost predicate AllAffordable(items: seq<OrderItem>, catalog: nat -> CatalogReply) {
    forall i :: 0 <= i < |items| ==> ProductAvailable(catalog(i)) && catalog(i).price >= 0
  }

  /** Products are distinct, so the price kept for a product is the one fetched for its only line. */
  lemma {:induction false} FetchedAt(items: seq<OrderItem>, catalog: nat -> CatalogReply, i: nat)
    requires Basket.WellFormed(items) && AllAvailable(|items|, catalog) && i < |items|
    ensures items[i].productId in Fetched(items, catalog)
    ensures Fetched(items, catalog)[items[i].productId] == catalog(i).price
  {
    var n := |items| - 1;
    if i < n {
      FetchedAt(items[..n], catalog, i);
    }
  }

  /** With a price for every line, only a negative price is at fault. */
  lemma {:induction false} FaultIsNegativePrice(items: seq<OrderItem>, prices: map<string, int>)
    requires forall i :: 0 <= i < |items| ==> items[i].productId in prices
    ensures PriceFault(items, prices) in {None, Some(ValueError)}
  {
    if items != [] {
      assert forall i :: 0 <= i < |items[1..]| ==> items[1..][i] == items[i + 1];
      FaultIsNegativePrice(items[1..], prices);
    }
  }

  lemma PricedIffAffordable(items: seq<OrderItem>, catalog: nat -> CatalogReply)
    requires Basket.WellFormed(items) && AllAvailable(|items|, catalog)
    ensures var prices := Fetched(items, catalog);
      && (forall i :: 0 <= i < |items| ==>
           items[i].productId in prices && prices[items[i].productId] == catalog(i).price)
      && (AllPriced(items, prices) <==> AllAffordable(items, catalog))
      && PriceFault(items, prices) in {None, Some(ValueError)}
  {
    var prices := Fetched(items, catalog);
    forall i | 0 <= i < |items| ensures items[i].productId in prices && prices[items[i].productId] == catalog(i).price {
      FetchedAt(items, catalog, i);
    }
    FaultIsNegativePrice(items, prices);
    if AllPriced(items, prices) {
      forall i | 0 <= i < |items| ensures ProductAvailable(catalog(i)) && catalog(i).price >= 0 {
        assert items[i].productId in prices && prices[items[i].productId] >= 0;
      }
    }
  }

  /** An order confirms exactly if it is a non-empty draft and all replies are usable; then line i costs what reply i
      said. A non-empty draft is refused for a negative price only: no price is ever missing. */
  lemma PricesOfConfirmation(o: OrderRow, catalog: nat -> CatalogReply)
    requires Basket.WellFormed(o.items) && AllAvailable(|o.items|, catalog)
    ensures var r := ConfirmWithPrices(Bump(o), Fetched(o.items, catalog));
      && (r.Ok? <==> o.status == Draft && o.items != [] && AllAffordable(o.items, catalog))
      && (r.Err? ==> r.error == if o.status == Draft && o.items != [] then ValueError else InvalidOrderState)
      && (r.Ok? ==>
            && r.value.(items := o.items, total := o.total) == Bump(o).(status := Confirmed)
            && |r.value.items| == |o.items|
            && (forall i :: 0 <= i < |o.items| ==> r.value.items[i] == o.items[i].(unitPrice := Some(catalog(i).price)))
            && r.value.total == SumOfItems(r.value.items))
  {
    var prices := Fetched(o.items, catalog);
    PricedIffAffordable(o.items, catalog);
    NoFaultIffAllPriced(o.items, prices);
    if AllPriced(o.items, prices) {
      PricedSum(o.items, prices);
    }
  }

  /** The exception of a refused confirmation of an order that exists: the first check that fails decides. */
  ghost function Refusal(o: OrderRow, customer: CustomerReply, catalog: nat -> CatalogReply): Error {
    if !CustomerActive(customer) then CustomerValidation
    else if !AllAvailable(|o.items|, catalog) then CatalogValidation
    else if o.status != Draft || o.items == [] then InvalidOrderState
    else ValueError
  }

  /** Confirmation is all or nothing: nothing but the saga row is written, or the order is CONFIRMED at the prices
      fetched for its items. */
  lemma ConfirmationIsAllOrNothing(db: Db, orderId: Id, customer: CustomerReply, catalog: nat -> CatalogReply,
                                   queue: bool)
    requires Keyed(db) && orderId in db.orders && Basket.WellFormed(db.orders[orderId].items)
    ensures var r := ConfirmBySaga(db, orderId, customer, catalog, queue); var o := db.orders[orderId];
      && (r.outcome.Ok? <==>
           CustomerActive(customer) && o.status == Draft && o.items != [] && AllAffordable(o.items, catalog))
      && (r.outcome.Err? ==>
            && r.outcome.error == Refusal(o, customer, catalog)
            && r.db.orders == db.orders && r.db.payments == db.payments && r.db.outbox == db.outbox)
      && (r.outcome.Ok? ==>
            && r.db.orders == db.orders[orderId := r.outcome.value] && r.db.payments == db.payments
            && |r.outcome.value.items| == |o.items|
            && (forall i :: 0 <= i < |o.items| ==>
                 r.outcome.value.items[i] == o.items[i].(unitPrice := Some(catalog(i).price)))
            && r.outcome.value.total == SumOfItems(r.outcome.value.items)
            && r.outcome.value.status == Confirmed)
  {
    var o := db.orders[orderId];
    if AllAvailable(|o.items|, catalog) {
      PricesOfConfirmation(o, catalog);
    } else {
      assert !AllAffordable(o.items, catalog);
    }
  }
}
