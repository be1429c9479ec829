/**
 Idempotency keys: a repeated request repeats no effect, and a key reused for another
 payload is refused. The first is proved for confirmations and callbacks, and for
 initiations the exact condition is given. The second holds for confirmations; for
 callbacks and initiations the exact condition is given, with the input that fails.
 */
module Idempotency {
  import opened Domain
  import opened Store
  import opened Behaviour
  import opened Invariant
  import opened Moves
  import Outcomes
  import SerialRuns

  // ---- Records ----

  ghost predicate RecordSound(db: Db, op: Operation, d: Digest) {
    match op
    case PaymentCallback => d.CallbackDigest? && d.paymentId in db.payments
    case _ => d.OrderDigest? && d.orderId in db.orders
  }

  /** A record is kept for ever, and speaks of rows that exist. */
  ghost predicate RecordsSound(db: Db) {
    forall k :: k in db.idempotency ==> RecordSound(db, k.1, db.idempotency[k])
  }

  /** The use case recorded at most one new key, and soundly. */
  ghost predicate OneRecord(db: Db, db': Db) {
    db'.idempotency == db.idempotency || exists k, d :: Adds(db, db', k, d)
  }

  ghost predicate Adds(db: Db, db': Db, k: (string, Operation), d: Digest) {
    k !in db.idempotency && db'.idempotency == db.idempotency[k := d] && RecordSound(db', k.1, d)
  }

  ghost predicate RowsStay(db: Db, db': Db) {
    && (forall o :: o in db.orders ==> o in db'.orders)
    && (forall p :: p in db.payments ==> p in db'.payments)
  }

  lemma SagaRecords(db: Db, o: Id, customer: CustomerReply, catalog: nat -> CatalogReply, queue: bool)
    ensures var r := ConfirmBySaga(db, o, customer, catalog, queue);
      r.db.idempotency == db.idempotency && RowsStay(db, r.db) && (r.outcome.Ok? ==> o in db.orders)
  {
  }

  lemma ConfirmRecords(db: Db, o: Id, key: Option<string>, customer: CustomerReply, catalog: nat -> CatalogReply,
                       queue: bool)
    ensures var db' := Confirm(db, o, key, customer, catalog, queue).db; OneRecord(db, db') && RowsStay(db, db')
  {
    SagaRecords(db, o, customer, catalog, queue);
    var db' := Confirm(db, o, key, customer, catalog, queue).db;
    if db'.idempotency != db.idempotency {
      assert Adds(db, db', (key.value, ConfirmOrder), OrderDigest(o));
    }
  }

  lemma RequestRecords(db: Db, row: OrderRow, key: Option<string>, gateway: GatewayReply, queue: bool)
    requires MarkPaymentPending(Bump(row)).Ok? && row.id in db.orders
    ensures var db' := RequestPayment(db, row, key, gateway, queue).db;
      && RowsStay(db, db')
      && (|| db'.idempotency == db.idempotency
          || (key.Some? && Adds(db, db', (key.value, InitiatePayment), OrderDigest(row.id))))
  {
  }

  lemma InitiateRecords(db: Db, o: Id, key: Option<string>, gateway: GatewayReply, queue: bool)
    requires o in db.orders ==> db.orders[o].id == o
    ensures var db' := Initiate(db, o, key, gateway, queue).db; OneRecord(db, db') && RowsStay(db, db')
  {
    if o in db.orders && MarkPaymentPending(Bump(db.orders[o])).Ok? {
      RequestRecords(db, db.orders[o], key, gateway, queue);
    }
  }

  lemma CallbackRecords(db: Db, p: Id, status: string, txn: string, key: Option<string>, queue: bool)
    ensures var db' := Callback(db, p, status, txn, key, queue).db; OneRecord(db, db') && RowsStay(db, db')
  {
    var db' := Callback(db, p, status, txn, key, queue).db;
    if db'.idempotency != db.idempotency {
      assert Adds(db, db', (key.value, PaymentCallback), CallbackDigest(p, CallbackBody(status, txn)));
    }
  }

  lemma OthersRecordNothing(db: Db, c: Command)
    requires !c.DoConfirm? && !c.DoInitiate? && !c.DoCallback?
    ensures Exec(db, c).idempotency == db.idempotency && RowsStay(db, Exec(db, c))
  {
  }

  lemma ExecRecords(db: Db, c: Command)
    requires Keyed(db)
    ensures OneRecord(db, Exec(db, c)) && RowsStay(db, Exec(db, c))
  {
    match c
    case DoConfirm(o, k, customer, catalog, queue) => ConfirmRecords(db, o, k, customer, catalog, queue);
    case DoInitiate(o, k, gateway, queue) => InitiateRecords(db, o, k, gateway, queue);
    case DoCallback(p, status, txn, k, queue) => CallbackRecords(db, p, status, txn, k, queue);
    case _ => OthersRecordNothing(db, c);
  }

  lemma {:induction false} RecordsStayInRun(db: Db, commands: seq<Command>)
    requires Inv(db)
    ensures forall k :: k in db.idempotency ==>
      k in Run(db, commands).idempotency && Run(db, commands).idempotency[k] == db.idempotency[k]
  {
    if commands != [] {
      RecordsStayInRun(db, commands[..|commands| - 1]);
      SerialRuns.RunKeeps(db, commands[..|commands| - 1]);
      ExecRecords(Run(db, commands[..|commands| - 1]), commands[|commands| - 1]);
    }
  }

  lemma ExecKeepsSound(db: Db, db': Db)
    requires RecordsSound(db) && OneRecord(db, db') && RowsStay(db, db')
    ensures RecordsSound(db')
  {
  }

  lemma {:induction false} RecordsAreSound(commands: seq<Command>)
    ensures RecordsSound(Run(EMPTY, commands))
  {
    if commands != [] {
      var mid, c := Run(EMPTY, commands[..|commands| - 1]), commands[|commands| - 1];
      RecordsAreSound(commands[..|commands| - 1]);
      SerialRuns.EveryRun(commands[..|commands| - 1]);
      ExecRecords(mid, c);
      ExecKeepsSound(mid, Exec(mid, c));
    }
  }

  // ---- Confirmation ----

  /** Under a recorded key a confirmation changes nothing: it returns the order, or refuses if the order is another
      one. */
  lemma ConfirmationReplays(db: Db, orderId: Id, key: string, customer: CustomerReply, catalog: nat -> CatalogReply,
                            queue: bool)
    requires RecordsSound(db) && (key, ConfirmOrder) in db.idempotency
    ensures var r := Confirm(db, orderId, Some(key), customer, catalog, queue);
      && r.db == db
      && r.outcome ==
           if db.idempotency[(key, ConfirmOrder)] == OrderDigest(orderId) then Ok(db.orders[orderId])
           else Err(IdempotencyConflict)
  {
  }

  /** A confirmation that succeeds leaves its key on record for this order; one that fails leaves no record. */
  lemma ConfirmationIsRecorded(db: Db, orderId: Id, key: Option<string>, customer: CustomerReply,
                               catalog: nat -> CatalogReply, queue: bool)
    ensures var r := Confirm(db, orderId, key, customer, catalog, queue);
      && (r.outcome.Ok? && key.Some? ==>
            && (key.value, ConfirmOrder) in r.db.idempotency
            && r.db.idempotency[(key.value, ConfirmOrder)] == OrderDigest(orderId))
      && (r.outcome.Err? || key.None? ==> r.db.idempotency == db.idempotency)
  {
    SagaRecords(db, orderId, customer, catalog, queue);
  }

  lemma RowsAgreeAfter(commands: seq<Command>)
    ensures RowsAgree(Run(EMPTY, commands))
  {
    SerialRuns.EveryRun(commands);
    InvMeansRowsAgree(Run(EMPTY, commands));
  }

  lemma InvAfter(before: seq<Command>, c: Command)
    ensures Inv(Exec(Run(EMPTY, before), c))
  {
    SerialRuns.EveryRun(before + [c]);
    assert (before + [c])[..|before|] == before;
  }

  lemma RunAfterRun(a: seq<Command>, c: Command, b: seq<Command>)
    ensures Run(EMPTY, a + [c] + b) == Run(Exec(Run(EMPTY, a), c), b)
  {
    var all := a + [c] + b;
    RunOfPrefixes(EMPTY, all, |a| + 1);
    assert all[..|a| + 1] == a + [c] && all[|a| + 1..] == b;
    assert (a + [c])[..|a|] == a;
  }

  lemma RecordLasts(before: seq<Command>, c: Command, after: seq<Command>, key: string, op: Operation)
    requires (key, op) in Exec(Run(EMPTY, before), c).idempotency
    ensures var db := Run(EMPTY, before + [c] + after);
      && (key, op) in db.idempotency
      && db.idempotency[(key, op)] == Exec(Run(EMPTY, before), c).idempotency[(key, op)]
  {
    InvAfter(before, c);
    RunAfterRun(before, c, after);
    RecordsStayInRun(Exec(Run(EMPTY, before), c), after);
  }

  /** Over any run: a key under which an order was confirmed gives back that order as it is later, whatever the
      replies, and refuses every other order; neither changes anything. */
  lemma ConfirmedKeyReplays(before: seq<Command>, o: Id, key: string, customer: CustomerReply,
                            catalog: nat -> CatalogReply, queue: bool, after: seq<Command>, other: Id,
                            customer': CustomerReply, catalog': nat -> CatalogReply, queue': bool)
    requires Confirm(Run(EMPTY, before), o, Some(key), customer, catalog, queue).outcome.Ok?
    ensures var db := Run(EMPTY, before + [DoConfirm(o, Some(key), customer, catalog, queue)] + after);
      && o in db.orders
      && Confirm(db, other, Some(key), customer', catalog', queue')
           == Reply(db, if other == o then Ok(db.orders[o]) else Err(IdempotencyConflict))
  {
    var c := DoConfirm(o, Some(key), customer, catalog, queue);
    var all := before + [c] + after;
    ConfirmationIsRecorded(Run(EMPTY, before), o, Some(key), customer, catalog, queue);
    RecordLasts(before, c, after, key, ConfirmOrder);
    RecordsAreSound(all);
    ConfirmationReplays(Run(EMPTY, all), other, key, customer', catalog', queue');
    assert RecordSound(Run(EMPTY, all), ConfirmOrder, OrderDigest(o));
  }

  // ---- Callbacks ----

  lemma SettledIsRecorded(db: Db, p: Id, status: string, txn: string, key: string, queue: bool)
    requires RowsAgree(db) && (key, PaymentCallback) !in db.idempotency
    requires p in db.payments && db.payments[p].status == Pending
    ensures var db' := Exec(db, DoCallback(p, status, txn, Some(key), queue));
      && (key, PaymentCallback) in db'.idempotency
      && db'.idempotency[(key, PaymentCallback)] == CallbackDigest(p, status + ":" + txn)
  {
    Outcomes.CallbackSettles(db, p, status, txn, Some(key), queue);
  }

  lemma RecordedCallbackReplays(commands: seq<Command>, key: string, digest: Digest, p: Id, status: string,
                                txn: string, queue: bool)
    requires (key, PaymentCallback) in Run(EMPTY, commands).idempotency
    requires Run(EMPTY, commands).idempotency[(key, PaymentCallback)] == digest
    ensures var db := Run(EMPTY, commands);
      && digest.CallbackDigest? && digest.paymentId in db.payments
      && Callback(db, p, status, txn, Some(key), queue)
           == Reply(db, if CallbackDigest(p, status + ":" + txn) == digest then Ok(db.payments[digest.paymentId])
                        else Err(IdempotencyConflict))
  {
    RecordsAreSound(commands);
    assert RecordSound(Run(EMPTY, commands), PaymentCallback, digest);
    CallbackReplays(Run(EMPTY, commands), p, status, txn, key, queue);
  }

  /** Over any run: a key under which a verdict was taken gives back that payment as it is later, and refuses every
      payload whose digest differs; neither changes anything. */
  lemma SettledKeyReplays(before: seq<Command>, p: Id, status: string, txn: string, key: string, queue: bool,
                          after: seq<Command>, p': Id, status': string, txn': string, queue': bool)
    requires p in Run(EMPTY, before).payments && Run(EMPTY, before).payments[p].status == Pending
    requires (key, PaymentCallback) !in Run(EMPTY, before).idempotency
    ensures var db := Run(EMPTY, before + [DoCallback(p, status, txn, Some(key), queue)] + after);
      && p in db.payments
      && Callback(db, p', status', txn', Some(key), queue')
           == Reply(db, if CallbackDigest(p', status' + ":" + txn') == CallbackDigest(p, status + ":" + txn)
                        then Ok(db.payments[p]) else Err(IdempotencyConflict))
  {
    var c := DoCallback(p, status, txn, Some(key), queue);
    var digest := CallbackDigest(p, status + ":" + txn);
    RowsAgreeAfter(before);
    SettledIsRecorded(Run(EMPTY, before), p, status, txn, key, queue);
    RecordLasts(before, c, after, key, PaymentCallback);
    RecordedCallbackReplays(before + [c] + after, key, digest, p', status', txn', queue');
  }

  /** The callback changed a row. */
  ghost predicate Effective(db: Db, c: Command) {
    c.DoCallback? && (Exec(db, c).orders != db.orders || Exec(db, c).payments != db.payments)
  }

  ghost predicate UsesKey(c: Command, key: string) {
    c.DoCallback? && c.key == Some(key)
  }

  /** Under a recorded key a callback changes nothing: it returns the payment as it is now, or refuses if the digest
      is another one. */
  lemma CallbackReplays(db: Db, paymentId: Id, status: string, transactionId: string, key: string, queue: bool)
    requires RecordsSound(db) && (key, PaymentCallback) in db.idempotency
    ensures var r := Callback(db, paymentId, status, transactionId, Some(key), queue);
      && r.db == db
      && var digest := CallbackDigest(paymentId, CallbackBody(status, transactionId));
      r.outcome ==
        if db.idempotency[(key, PaymentCallback)] == digest then Ok(db.payments[paymentId])
        else Err(IdempotencyConflict)
  {
  }

  /** An effective callback leaves its key on record. */
  lemma EffectiveIsRecorded(db: Db, c: Command, key: string)
    requires Effective(db, c) && UsesKey(c, key)
    ensures (key, PaymentCallback) !in db.idempotency && (key, PaymentCallback) in Exec(db, c).idempotency
  {
  }

  lemma {:induction false} RunOfPrefixes(db: Db, commands: seq<Command>, i: nat)
    requires i <= |commands|
    ensures Run(Run(db, commands[..i]), commands[i..]) == Run(db, commands)
    decreases |commands|
  {
    if i == |commands| {
      assert commands[..i] == commands;
    } else {
      var n := |commands| - 1;
      RunOfPrefixes(db, commands[..n], i);
      assert commands[i..][..n - i] == commands[..n][i..];
      assert commands[..n][..i] == commands[..i];
    }
  }

  /** However often a callback key is delivered in a run, at most one delivery changes any order or payment,
      even though the same payment row is reopened after a rejection. */
  lemma OneEffectPerCallbackKey(commands: seq<Command>, i: nat, j: nat, key: string)
    requires i < j < |commands| && UsesKey(commands[i], key) && UsesKey(commands[j], key)
    requires Effective(Run(EMPTY, commands[..i]), commands[i])
    ensures !Effective(Run(EMPTY, commands[..j]), commands[j])
  {
    var before, after := Run(EMPTY, commands[..i]), Run(EMPTY, commands[..i + 1]);
    assert commands[..i + 1][..i] == commands[..i];
    EffectiveIsRecorded(before, commands[i], key);
    RunOfPrefixes(EMPTY, commands[..j], i + 1);
    assert commands[..j][..i + 1] == commands[..i + 1];
    SerialRuns.EveryRun(commands[..i + 1]);
    RecordsStayInRun(after, commands[..j][i + 1..]);
    if Effective(Run(EMPTY, commands[..j]), commands[j]) {
      EffectiveIsRecorded(Run(EMPTY, commands[..j]), commands[j], key);
    }
  }

  /** Two callbacks for one payment hash alike exactly if one body continues the other across the separator. */
  lemma SameBodyIff(status: string, transactionId: string, status': string, transactionId': string)
    requires |status| <= |status'|
    ensures CallbackBody(status, transactionId) == CallbackBody(status', transactionId') <==>
      || (status == status' && transactionId == transactionId')
      || (|status| < |status'| && status'[..|status|] == status && status'[|status|] == ':'
          && transactionId == status'[|status| + 1..] + ":" + transactionId')
  {
    var a, b := CallbackBody(status, transactionId), CallbackBody(status', transactionId');
    var n := |status|;
    assert a[..n] == status && a[n] == ':' && a[n + 1..] == transactionId;
    if n == |status'| {
      assert b[..n] == status' && b[n + 1..] == transactionId';
      if a == b {
        assert status == status' && transactionId == transactionId';
      }
    } else {
      assert b[..n] == status'[..n] && b[n] == status'[n] && b[n + 1..] == status'[n + 1..] + ":" + transactionId';
      assert a == a[..n] + [a[n]] + a[n + 1..];
      assert b == b[..n] + [b[n]] + b[n + 1..];
    }
  }

  /** Without a colon in the status the hash tells any two payloads apart, so a changed payload is refused. */
  lemma PlainStatusesAreToldApart(status: string, transactionId: string, status': string, transactionId': string)
    requires ':' !in status && ':' !in status'
    ensures CallbackBody(status, transactionId) == CallbackBody(status', transactionId') <==>
      status == status' && transactionId == transactionId'
  {
    if |status| <= |status'| {
      SameBodyIff(status, transactionId, status', transactionId');
    } else {
      SameBodyIff(status', transactionId', status, transactionId);
    }
  }

  /** With one it need not: these two payloads differ, in their verdict too, and hash alike. */
  lemma ColonConfusesPayloads()
    ensures CallbackBody("APPROVED", "x:y") == CallbackBody("APPROVED:x", "y")
    ensures SaysApproved("APPROVED") && !SaysApproved("APPROVED:x")
  {
  }

  // ---- Initiations ----

  lemma KeyedPaymentAnswers(db: Db, p: Id, key: string, orderId: Id, gateway: GatewayReply, queue: bool)
    requires PaymentConstraints(db.payments, db.orders)
    requires p in db.payments && db.payments[p].idempotencyKey == Some(key)
    ensures Initiate(db, orderId, Some(key), gateway, queue) == Reply(db, Ok(db.payments[p]))
  {
  }

  lemma PaymentStays(db: Db, db': Db, p: Id)
    requires PaymentConstraints(db.payments, db.orders) && PaymentConstraints(db'.payments, db'.orders)
    requires p in db.payments && db.payments[p].orderId in db'.orders
    requires Respects(ViewOf(db, db.payments[p].orderId), ViewOf(db', db.payments[p].orderId))
    ensures p in db'.payments && SamePayment(db.payments[p], db'.payments[p])
  {
  }

  lemma PaymentKeepsKey(db: Db, commands: seq<Command>, p: Id)
    requires Inv(db) && p in db.payments
    ensures var db' := Run(db, commands); p in db'.payments && SamePayment(db.payments[p], db'.payments[p])
  {
    SerialRuns.RunKeeps(db, commands);
    PaymentStays(db, Run(db, commands), p);
  }

  /** The key a payment was created under gives back that payment for ever, whatever else is asked with it, and
      changes nothing. */
  lemma InitiationReplays(before: seq<Command>, after: seq<Command>, p: Id, key: string,
                          orderId: Id, gateway: GatewayReply, queue: bool)
    requires p in Run(EMPTY, before).payments && Run(EMPTY, before).payments[p].idempotencyKey == Some(key)
    ensures var db := Run(Run(EMPTY, before), after);
      p in db.payments && Initiate(db, orderId, Some(key), gateway, queue) == Reply(db, Ok(db.payments[p]))
  {
    SerialRuns.EveryRun(before);
    SerialRuns.RunKeeps(Run(EMPTY, before), after);
    PaymentKeepsKey(Run(EMPTY, before), after, p);
    KeyedPaymentAnswers(Run(Run(EMPTY, before), after), p, key, orderId, gateway, queue);
  }

  /** A recorded key asked for another order is refused exactly if no payment row carries it. */
  lemma InitiationConflictIff(db: Db, orderId: Id, key: string, gateway: GatewayReply, queue: bool)
    requires RowsAgree(db) && RecordsSound(db)
    requires (key, InitiatePayment) in db.idempotency && db.idempotency[(key, InitiatePayment)] != OrderDigest(orderId)
    ensures var r := Initiate(db, orderId, Some(key), gateway, queue);
      && (r.outcome == Err(IdempotencyConflict) <==> PaymentByKey(db.payments, key).None?)
      && (r.outcome != Err(IdempotencyConflict) ==> r.outcome == Ok(PaymentByKey(db.payments, key).value))
      && r.db == db
  {
  }

  /** Repeating an initiation whose key is on record is without effect exactly if a payment row carries the key or
      the order cannot be paid now: a key recorded while a rejected payment was reopened is on no row. */
  lemma InitiationReplayIsHarmlessIff(db: Db, orderId: Id, key: string, gateway: GatewayReply, queue: bool)
    requires RowsAgree(db) && RecordsSound(db)
    requires (key, InitiatePayment) in db.idempotency && db.idempotency[(key, InitiatePayment)] == OrderDigest(orderId)
    ensures orderId in db.orders
    ensures Initiate(db, orderId, Some(key), gateway, queue).db == db <==>
      PaymentByKey(db.payments, key).Some? || db.orders[orderId].status !in {Confirmed, PaymentFailed}
    ensures Initiate(db, orderId, Some(key), gateway, queue).db != db ==>
      Initiate(db, orderId, Some(key), gateway, queue).outcome in {Err(PaymentGateway), Err(IntegrityError)}
  {
  }
}
