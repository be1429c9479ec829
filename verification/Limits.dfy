/**
 Where the guarantees end for idempotency keys, shown by runs: a key used to reopen a rejected
 payment does not make its initiation idempotent, and a key on a payment row answers for any order.
 The sample runs also lead to the states of interest in Prospects.
 */
module Limits {
  import opened Domain
  import opened Store
  import opened Behaviour
  import opened Invariant
  import Idempotency
  import SerialRuns

  // ---- A run that gets there ----

  const CUSTOMER: CustomerReply := Customer("ACTIVE")
  const PRODUCT: CatalogReply := Product(500, true)

  lemma RunOneMore(commands: seq<Command>, c: Command)
    ensures Run(EMPTY, commands + [c]) == Exec(Run(EMPTY, commands), c)
  {
    assert (commands + [c])[..|commands|] == commands;
  }

  function Line(price: Option<nat>): OrderItem { OrderItem(1, "p", 1, price) }

  /** Create, add one item, confirm. */
  lemma ConfirmedRun() returns (commands: seq<Command>)
    ensures var db := Run(EMPTY, commands);
      && 0 in db.orders && db.orders[0] == OrderRow(0, "c", Confirmed, [Line(Some(500))], 500, 0, 3, None)
      && db.payments == map[] && db.idempotency == map[] && db.nextId == 3
  {
    var create := DoCreate("c", CUSTOMER);
    var add := DoAddItem(0, "p", 1, PRODUCT);
    var confirm := DoConfirm(0, None, CUSTOMER, (i: nat) => PRODUCT, true);
    RunOneMore([], create);
    RunOneMore([create], add);
    RunOneMore([create] + [add], confirm);
    commands := [create] + [add] + [confirm];
    var d1 := Run(EMPTY, [] + [create]);
    assert [] + [create] == [create];
    assert d1.orders == map[0 := NewOrder(0, "c")];
    var d2 := Exec(d1, add);
    var o2 := OrderRow(0, "c", Draft, [Line(None)], 0, 0, 2, None);
    assert d2.orders == map[0 := o2];
    var prices := Fetched([Line(None)], confirm.catalog);
    assert Fetched([], confirm.catalog) == map[];
    assert [Line(None)][..0] == [];
    assert prices == map["p" := 500];
    ConfirmsAt500(prices);
    assert Exec(d2, confirm).orders == map[0 := OrderRow(0, "c", Confirmed, [Line(Some(500))], 500, 0, 3, None)];
  }

  lemma ConfirmsAt500(prices: map<string, int>)
    requires prices == map["p" := 500]
    ensures ConfirmWithPrices(OrderRow(0, "c", Draft, [Line(None)], 0, 0, 3, None), prices)
         == Ok(OrderRow(0, "c", Confirmed, [Line(Some(500))], 500, 0, 3, None))
  {
    var items := [Line(None)];
    assert PriceFault(items[1..], prices) == None;
    NoFaultIffAllPriced(items, prices);
    PricedLinesOk(items, prices);
    assert Lines(items)[..0] == [];
    assert Total(Lines(items), prices) == 500;
    assert PriceItems(items, prices) == [Line(Some(500))];
  }

  /** Then initiate: the order awaits its verdict. */
  lemma PendingRun() returns (commands: seq<Command>)
    ensures var db := Run(EMPTY, commands);
      && 0 in db.orders && db.orders[0].status == PaymentPending && db.orders[0].attempts == 0 && db.orders[0].id == 0
      && db.payments == map[3 := PaymentRow(3, 0, 500, Pending, Some("x"), Some("first"))]
      && db.idempotency == map[("first", InitiatePayment) := OrderDigest(0)] && db.nextId == 4
  {
    var confirmed := ConfirmedRun();
    var initiate := DoInitiate(0, Some("first"), Accepted("x"), true);
    RunOneMore(confirmed, initiate);
    commands := confirmed + [initiate];
  }

  // ---- Keys of initiations ----

  /** A rejection of the sample payment, told by what it does to the rows. */
  lemma RejectSample(db: Db, c: Command)
    requires 0 in db.orders && db.orders[0].status == PaymentPending && db.orders[0].id == 0
    requires db.orders[0].attempts <= 1
    requires 3 in db.payments && db.payments[3].status == Pending && db.payments[3].orderId == 0
    requires db.payments[3].id == 3
    requires c == DoCallback(3, "REJECTED", "t", None, true)
    ensures var db' := Exec(db, c);
      && 0 in db'.orders && db'.orders[0]
           == Bump(db.orders[0]).(attempts := db.orders[0].attempts + 1, status := PaymentFailed)
      && db'.payments == db.payments[3 := db.payments[3].(status := Rejected)]
      && db'.idempotency == db.idempotency && db'.nextId == db.nextId
  {
    assert Upper("REJECTED")[0] == 'R';
    assert !SaysApproved("REJECTED");
  }

  lemma ReopenSample(db: Db, c: Command)
    requires 0 in db.orders && db.orders[0].status == PaymentFailed && db.orders[0].id == 0
    requires db.payments == map[3 := PaymentRow(3, 0, 500, Rejected, Some("x"), Some("first"))]
    requires ("second", InitiatePayment) !in db.idempotency && db.nextId > 3
    requires c == DoInitiate(0, Some("second"), Accepted("y"), true)
    ensures var db' := Exec(db, c);
      && 0 in db'.orders && db'.orders[0] == Bump(db.orders[0]).(status := PaymentPending)
      && db'.payments == map[3 := PaymentRow(3, 0, 500, Pending, Some("y"), Some("first"))]
      && db'.idempotency == db.idempotency[("second", InitiatePayment) := OrderDigest(0)]
  {
    assert db.payments[3].orderId == 0;
    assert PaymentOf(db.payments, 0) == Some(db.payments[3]);
    assert "second" != "first" by { assert "second"[0] == 's'; }
    assert PaymentByKey(db.payments, "second").None?;
  }

  lemma RejectedRun() returns (commands: seq<Command>)
    ensures var db := Run(EMPTY, commands);
      && 0 in db.orders && db.orders[0].status == PaymentFailed && db.orders[0].attempts == 1 && db.orders[0].id == 0
      && db.payments == map[3 := PaymentRow(3, 0, 500, Rejected, Some("x"), Some("first"))]
      && db.idempotency == map[("first", InitiatePayment) := OrderDigest(0)] && db.nextId == 4
  {
    var pending := PendingRun();
    var reject := DoCallback(3, "REJECTED", "t", None, true);
    RunOneMore(pending, reject);
    RejectSample(Run(EMPTY, pending), reject);
    commands := pending + [reject];
  }

  /** The key that reopened the rejected payment is on record and on no row, and the order can be paid again. */
  lemma ReopenedRun() returns (commands: seq<Command>)
    ensures var db := Run(EMPTY, commands);
      && ("second", InitiatePayment) in db.idempotency && db.idempotency[("second", InitiatePayment)] == OrderDigest(0)
      && PaymentByKey(db.payments, "second").None?
      && 0 in db.orders && db.orders[0].status == PaymentFailed
  {
    var rejected := RejectedRun();
    var reopen := DoInitiate(0, Some("second"), Accepted("y"), true);
    var reject := DoCallback(3, "REJECTED", "t", None, true);
    RunOneMore(rejected, reopen);
    RunOneMore(rejected + [reopen], reject);
    commands := rejected + [reopen] + [reject];
    assert "second" != "first" by { assert "second"[0] == 's'; }
    ReopenSample(Run(EMPTY, rejected), reopen);
    RejectSample(Run(EMPTY, rejected + [reopen]), reject);
  }

  /** Repeating that initiation has effects again, whatever the gateway replies. */
  lemma ReopeningKeyIsNotIdempotent() returns (commands: seq<Command>)
    ensures var db := Run(EMPTY, commands);
      && ("second", InitiatePayment) in db.idempotency && db.idempotency[("second", InitiatePayment)] == OrderDigest(0)
      && forall gateway, queue :: Initiate(db, 0, Some("second"), gateway, queue).db != db
  {
    commands := ReopenedRun();
    var db := Run(EMPTY, commands);
    SerialRuns.EveryRun(commands);
    InvMeansRowsAgree(db);
    Idempotency.RecordsAreSound(commands);
    forall gateway, queue ensures Initiate(db, 0, Some("second"), gateway, queue).db != db {
      Idempotency.InitiationReplayIsHarmlessIff(db, 0, "second", gateway, queue);
    }
  }

  /** A recorded key asked for another order is not refused here: it answers with the first order's payment. */
  lemma InitiationKeyAnswersForOtherOrders() returns (commands: seq<Command>)
    ensures var db := Run(EMPTY, commands);
      && ("first", InitiatePayment) in db.idempotency && db.idempotency[("first", InitiatePayment)] == OrderDigest(0)
      && 3 in db.payments && db.payments[3].orderId == 0
      && forall other, gateway, queue ::
           Initiate(db, other, Some("first"), gateway, queue) == Reply(db, Ok(db.payments[3]))
  {
    commands := PendingRun();
    var db := Run(EMPTY, commands);
    SerialRuns.EveryRun(commands);
    forall other, gateway, queue
      ensures Initiate(db, other, Some("first"), gateway, queue) == Reply(db, Ok(db.payments[3]))
    {
      Idempotency.KeyedPaymentAnswers(db, 3, "first", other, gateway, queue);
    }
  }
}
