/**
 The two layers are about one program: a use case that runs alone is its flight flown from
 start to end, so every serial run is one of the interleavings.
 */
module SerialAsInterleaving {
  import opened Domain
  import opened Store
  import opened Behaviour
  import opened Invariant
  import opened Interleaving
  import SerialRuns

  /** The same orders, payments and id supply, and nothing in flight. */
  predicate Matches(s: Sys, db: Db) {
    s.orders == db.orders && s.payments == db.payments && s.nextId == db.nextId && s.flights == map[]
  }

  predicate CrashFree(steps: seq<Step>) {
    forall i :: 0 <= i < |steps| ==> !steps[i].Stop?
  }

  /** Some steps lead there, and none of them is a crash. */
  ghost predicate Reaches(s: Sys, s': Sys) {
    exists steps :: CrashFree(steps) && RunSteps(s, steps) == s'
  }

  lemma Stays(s: Sys)
    ensures Reaches(s, s)
  {
    assert CrashFree([]) && RunSteps(s, []) == s;
  }

  lemma RunOn(s: Sys, steps: seq<Step>, step: Step)
    ensures RunSteps(s, steps + [step]) == Do(RunSteps(s, steps), step)
  {
    assert (steps + [step])[..|steps|] == steps;
  }

  lemma Then(s: Sys, mid: Sys, step: Step)
    requires Reaches(s, mid) && !step.Stop?
    ensures Reaches(s, Do(mid, step))
  {
    var steps :| CrashFree(steps) && RunSteps(s, steps) == mid;
    RunOn(s, steps, step);
    assert CrashFree(steps + [step]);
  }

  lemma {:induction false} RunThenRun(s: Sys, a: seq<Step>, b: seq<Step>)
    ensures RunSteps(s, a + b) == RunSteps(RunSteps(s, a), b)
  {
    if b == [] {
      assert a + b == a;
    } else {
      RunThenRun(s, a, b[..|b| - 1]);
      assert (a + b)[..|a + b| - 1] == a + b[..|b| - 1];
    }
  }

  lemma ReachesOn(a: Sys, b: Sys, c: Sys)
    requires Reaches(a, b) && Reaches(b, c)
    ensures Reaches(a, c)
  {
    var xs :| CrashFree(xs) && RunSteps(a, xs) == b;
    var ys :| CrashFree(ys) && RunSteps(b, ys) == c;
    RunThenRun(a, xs, ys);
    assert CrashFree(xs + ys);
  }

  /** Some steps lead there, crashes included. */
  ghost predicate MayReach(s: Sys, s': Sys) {
    exists steps :: RunSteps(s, steps) == s'
  }

  /** Some steps lead there, the last of them a crash and none before it. */
  ghost predicate CrashReaches(s: Sys, s': Sys) {
    exists mid, f :: Reaches(s, mid) && Do(mid, Stop(f)) == s'
  }

  lemma CrashReachesOn(a: Sys, b: Sys, c: Sys)
    requires Reaches(a, b) && CrashReaches(b, c)
    ensures CrashReaches(a, c) && MayReach(a, c)
  {
    var mid, f :| Reaches(b, mid) && Do(mid, Stop(f)) == c;
    ReachesOn(a, b, mid);
    ThenMaybe(a, mid, Stop(f));
  }

  lemma ThenMaybe(s: Sys, mid: Sys, step: Step)
    requires Reaches(s, mid)
    ensures MayReach(s, Do(mid, step))
  {
    var steps :| CrashFree(steps) && RunSteps(s, steps) == mid;
    RunOn(s, steps, step);
  }

  lemma MayReachOn(a: Sys, b: Sys, c: Sys)
    requires Reaches(a, b) && MayReach(b, c)
    ensures MayReach(a, c)
  {
    var xs :| CrashFree(xs) && RunSteps(a, xs) == b;
    var ys :| RunSteps(b, ys) == c;
    RunThenRun(a, xs, ys);
  }

  // ---- Flights flown alone ----

  const GO: Step := Advance(0, GatewayError)

  /** The only flight there is, with the tables given. */
  predicate Alone(s: Sys, flight: Flight) { s.flights == map[0 := flight] }

  /** The tables of one state are those of another. */
  predicate SameTables(s: Sys, s': Sys) { s'.orders == s.orders && s'.payments == s.payments && s'.nextId == s.nextId }

  predicate Current(s: Sys, o: OrderRow) { o.id in s.orders && s.orders[o.id] == o }

  lemma SaveAlone(s: Sys, snap: OrderRow, op: DomainOp, gateway: GatewayReply)
    requires Alone(s, Saving(snap, op)) && Current(s, snap)
    requires Perform(op, snap).Ok? && Perform(op, snap).value.id == snap.id
    requires Perform(op, snap).value.version == snap.version + 1
    ensures var s' := Do(s, Advance(0, gateway));
      && s'.orders == s.orders[snap.id := Perform(op, snap).value] && s'.payments == s.payments
      && s'.nextId == s.nextId && s'.flights == map[]
  {
  }

  lemma EditAlone(s: Sys, o: OrderRow, op: DomainOp) returns (s': Sys)
    requires s.flights == map[] && Current(s, o) && IsEdit(op) && Perform(op, o).Ok?
    ensures Reaches(s, s') && s'.flights == map[] && s'.payments == s.payments && s'.nextId == s.nextId
    ensures s'.orders == s.orders[o.id := Perform(op, o).value]
  {
    Stays(s);
    Then(s, s, Begin(0, Edit(o.id, op)));
    var s1 := Do(s, Begin(0, Edit(o.id, op)));
    assert Alone(s1, Saving(o, op)) && SameTables(s, s1);
    SaveAlone(s1, o, op, GatewayError);
    Then(s, s1, GO);
    s' := Do(s1, GO);
  }

  lemma VoidAlone(s: Sys, snap: OrderRow, reason: Option<string>, p: PaymentRow)
    requires Alone(s, CancelVoiding(snap, reason, p)) && p.id in s.payments && s.payments[p.id] == p
    ensures var s' := Do(s, GO);
      && Alone(s', Saving(snap, CancelFor(reason))) && s'.orders == s.orders
      && s'.payments == s.payments[p.id := p.(status := Void)] && s'.nextId == s.nextId
  {
  }

  lemma CancelAlone(s: Sys, o: OrderRow, reason: Option<string>) returns (s': Sys)
    requires s.flights == map[] && Current(s, o) && Perform(CancelFor(reason), o).Ok?
    requires forall p :: p in s.payments ==> s.payments[p].id == p
    ensures Reaches(s, s') && s'.flights == map[] && s'.nextId == s.nextId
    ensures s'.orders == s.orders[o.id := Perform(CancelFor(reason), o).value]
    ensures var p := PaymentOf(s.payments, o.id);
      s'.payments ==
        if p.Some? && p.value.status == Pending then s.payments[p.value.id := p.value.(status := Void)]
        else s.payments
  {
    var p := PaymentOf(s.payments, o.id);
    Stays(s);
    Then(s, s, Begin(0, CancelCall(o.id, reason)));
    var s1 := Do(s, Begin(0, CancelCall(o.id, reason)));
    assert Alone(s1, CancelReading(o, reason)) && SameTables(s, s1);
    Then(s, s1, GO);
    var s2 := Do(s1, GO);
    if p.Some? && p.value.status == Pending {
      assert Alone(s2, CancelVoiding(o, reason, p.value)) && SameTables(s, s2);
      VoidAlone(s2, o, reason, p.value);
      Then(s, s2, GO);
      s2 := Do(s2, GO);
    } else {
      assert Alone(s2, Saving(o, CancelFor(reason))) && SameTables(s, s2);
    }
    SaveAlone(s2, o, CancelFor(reason), GatewayError);
    Then(s, s2, GO);
    s' := Do(s2, GO);
  }

  lemma PayAlone(s: Sys, p: PaymentRow, snap: OrderRow, approved: bool, txn: string)
    requires Alone(s, CallbackPaying(p, snap, approved, txn)) && p.id in s.payments && s.payments[p.id] == p
    ensures var s' := Do(s, GO);
      && Alone(s', Saving(snap, Settle(approved))) && s'.orders == s.orders
      && s'.payments == s.payments[p.id := SettledPayment(p, approved, txn)] && s'.nextId == s.nextId
  {
  }

  lemma CallbackAlone(s: Sys, p: PaymentRow, o: OrderRow, approved: bool, txn: string) returns (s': Sys)
    requires s.flights == map[] && Current(s, o) && Perform(Settle(approved), o).Ok?
    requires p.id in s.payments && s.payments[p.id] == p && p.orderId == o.id && p.status == Pending
    ensures Reaches(s, s') && s'.flights == map[] && s'.nextId == s.nextId
    ensures s'.orders == s.orders[o.id := Perform(Settle(approved), o).value]
    ensures s'.payments == s.payments[p.id := SettledPayment(p, approved, txn)]
  {
    var begin := Begin(0, CallbackCall(p.id, approved, txn));
    Stays(s);
    Then(s, s, begin);
    var s1 := Do(s, begin);
    assert Alone(s1, CallbackReading(p, approved, txn)) && SameTables(s, s1);
    Then(s, s1, GO);
    var s2 := Do(s1, GO);
    assert Alone(s2, CallbackPaying(p, o, approved, txn)) && SameTables(s, s2);
    PayAlone(s2, p, o, approved, txn);
    Then(s, s2, GO);
    var s3 := Do(s2, GO);
    SaveAlone(s3, o, Settle(approved), GatewayError);
    Then(s, s3, GO);
    s' := Do(s3, GO);
  }

  lemma MarkAlone(s: Sys, o: OrderRow, key: Option<string>, existing: Option<PaymentRow>)
    requires Alone(s, InitMarking(o, key, existing)) && Current(s, o) && MarkPaymentPending(Bump(o)).Ok?
    ensures var s' := Do(s, GO);
      && Alone(s', InitAsking(o.id, key, o.status, existing, o.total))
      && s'.orders == s.orders[o.id := MarkPaymentPending(Bump(o)).value] && s'.payments == s.payments
      && s'.nextId == s.nextId
  {
  }

  /** Read the order, read the payment, mark: the part both endings share. */
  lemma AskAlone(s: Sys, o: OrderRow, key: Option<string>) returns (s': Sys)
    requires s.flights == map[] && Current(s, o) && o.status in {Confirmed, PaymentFailed}
    requires var p := PaymentOf(s.payments, o.id); p.Some? ==> p.value.status !in {Pending, Approved}
    ensures Reaches(s, s') && Alone(s', InitAsking(o.id, key, o.status, PaymentOf(s.payments, o.id), o.total))
    ensures s'.orders == s.orders[o.id := MarkPaymentPending(Bump(o)).value] && s'.payments == s.payments
    ensures s'.nextId == s.nextId
  {
    var existing, begin := PaymentOf(s.payments, o.id), Begin(0, InitiateCall(o.id, key));
    Stays(s);
    Then(s, s, begin);
    var s1 := Do(s, begin);
    assert Alone(s1, InitReading(o, key)) && SameTables(s, s1);
    Then(s, s1, GO);
    var s2 := Do(s1, GO);
    assert Alone(s2, InitMarking(o, key, existing)) && SameTables(s, s2);
    MarkAlone(s2, o, key, existing);
    Then(s, s2, GO);
    s' := Do(s2, GO);
  }

  lemma RestoreAlone(s: Sys, pending: OrderRow, previous: OrderStatus) returns (s': Sys)
    requires Alone(s, InitFailed(pending.id, previous)) && Current(s, pending) && pending.status == PaymentPending
    ensures Reaches(s, s') && s'.flights == map[] && s'.payments == s.payments && s'.nextId == s.nextId
    ensures s'.orders == s.orders[pending.id := Bump(pending).(status := previous)]
  {
    Stays(s);
    Then(s, s, GO);
    var s1 := Do(s, GO);
    assert Alone(s1, Saving(pending, Restore(previous))) && SameTables(s, s1);
    SaveAlone(s1, pending, Restore(previous), GatewayError);
    Then(s, s1, GO);
    s' := Do(s1, GO);
  }

  lemma RefuseAlone(s: Sys, o: Id, key: Option<string>, previous: OrderStatus, existing: Option<PaymentRow>,
                    amount: nat)
    requires Alone(s, InitAsking(o, key, previous, existing, amount))
    ensures Alone(Do(s, GO), InitFailed(o, previous)) && SameTables(s, Do(s, GO))
  {
  }

  lemma RefusedAlone(s: Sys, o: OrderRow, key: Option<string>) returns (s': Sys)
    requires s.flights == map[] && Current(s, o) && o.status in {Confirmed, PaymentFailed}
    requires var p := PaymentOf(s.payments, o.id); p.Some? ==> p.value.status !in {Pending, Approved}
    ensures Reaches(s, s') && s'.flights == map[] && s'.payments == s.payments && s'.nextId == s.nextId
    ensures s'.orders == s.orders[o.id := Bump(Bump(o))]
  {
    var s1 := AskAlone(s, o, key);
    Then(s, s1, GO);
    RefuseAlone(s1, o.id, key, o.status, PaymentOf(s.payments, o.id), o.total);
    var s2 := Do(s1, GO);
    s' := RestoreAlone(s2, MarkPaymentPending(Bump(o)).value, o.status);
    ReachesOn(s, s2, s');
  }

  /** The last step of an accepted initiation: the rejected row reopened, or a first one inserted. */
  lemma PaidFor(s: Sys, db: Db, o: OrderRow, key: Option<string>, externalId: string)
    requires Alone(s, InitPaying(o.id, key, o.status, PaymentOf(s.payments, o.id), o.total, externalId))
    requires s.payments == db.payments && s.nextId == db.nextId
    requires forall p :: p in s.payments ==> s.payments[p].id == p < s.nextId
    requires var p := PaymentOf(s.payments, o.id); p.Some? ==> p.value.status == Rejected
    requires key.Some? ==> PaymentByKey(s.payments, key.value).None?
    ensures var s', p := Do(s, Advance(0, Accepted(externalId))), OpenedPayment(db, o, key, externalId);
      && s'.flights == map[] && s'.orders == s.orders
      && s'.payments == s.payments[p.id := p] && s'.nextId == s.nextId + if p.id == db.nextId then 1 else 0
  {
  }

  lemma AcceptedAlone(s: Sys, db: Db, o: OrderRow, key: Option<string>, externalId: string) returns (s': Sys)
    requires s.flights == map[] && Current(s, o) && o.status in {Confirmed, PaymentFailed}
    requires s.payments == db.payments && s.nextId == db.nextId
    requires forall p :: p in s.payments ==> s.payments[p].id == p < s.nextId
    requires var p := PaymentOf(s.payments, o.id); p.Some? ==> p.value.status == Rejected
    requires key.Some? ==> PaymentByKey(s.payments, key.value).None?
    ensures Reaches(s, s') && s'.flights == map[]
    ensures s'.orders == s.orders[o.id := MarkPaymentPending(Bump(o)).value]
    ensures var p := OpenedPayment(db, MarkPaymentPending(Bump(o)).value, key, externalId);
      s'.payments == s.payments[p.id := p] && s'.nextId == s.nextId + if p.id == db.nextId then 1 else 0
  {
    var existing, step := PaymentOf(s.payments, o.id), Advance(0, Accepted(externalId));
    var s1 := AskAlone(s, o, key);
    Then(s, s1, step);
    var s2 := Do(s1, step);
    assert Alone(s2, InitPaying(o.id, key, o.status, existing, o.total, externalId)) && SameTables(s1, s2);
    PaidFor(s2, db, o, key, externalId);
    Then(s, s2, step);
    s' := Do(s2, step);
  }

  // ---- Use cases as runs ----

  lemma SagaCommits(db: Db, o: Id, customer: CustomerReply, catalog: nat -> CatalogReply, queue: bool)
    requires Keyed(db) && ConfirmBySaga(db, o, customer, catalog, queue).outcome.Ok?
    ensures o in db.orders && AllAvailable(|db.orders[o].items|, catalog)
    ensures var op := ConfirmAt(Fetched(db.orders[o].items, catalog));
      var r := ConfirmBySaga(db, o, customer, catalog, queue).db;
      && Perform(op, db.orders[o]).Ok? && r.orders == db.orders[o := Perform(op, db.orders[o]).value]
      && r.payments == db.payments && r.nextId == db.nextId + 1
  {
  }

  lemma SagaIsARun(db: Db, s: Sys, o: Id, customer: CustomerReply, catalog: nat -> CatalogReply, queue: bool)
    returns (s': Sys)
    requires Keyed(db) && Matches(s, db)
    ensures Reaches(s, s') && Matches(s', ConfirmBySaga(db, o, customer, catalog, queue).db)
  {
    Stays(s);
    s' := s;
    if ConfirmBySaga(db, o, customer, catalog, queue).outcome.Ok? {
      SagaCommits(db, o, customer, catalog, queue);
      s' := EditAlone(s, db.orders[o], ConfirmAt(Fetched(db.orders[o].items, catalog)));
    }
    Then(s, s', Draw);
    s' := Do(s', Draw);
  }

  lemma ConfirmIsARun(db: Db, s: Sys, o: Id, key: Option<string>, customer: CustomerReply,
                      catalog: nat -> CatalogReply, queue: bool)
    returns (s': Sys)
    requires Keyed(db) && Matches(s, db)
    ensures Reaches(s, s') && Matches(s', Confirm(db, o, key, customer, catalog, queue).db)
  {
    Stays(s);
    s' := SagaIsARun(db, s, o, customer, catalog, queue);
    if Recorded(db, key, ConfirmOrder).Some? && !Matches(s', Confirm(db, o, key, customer, catalog, queue).db) {
      s' := s;
    }
  }

  lemma CancelIsARun(db: Db, s: Sys, orderId: Id, reason: Option<string>, queue: bool) returns (s': Sys)
    requires Keyed(db) && Matches(s, db)
    ensures Reaches(s, s') && Matches(s', CancelWithPayment(db, orderId, reason, queue).db)
  {
    Stays(s);
    s' := s;
    if CancelWithPayment(db, orderId, reason, queue).outcome.Ok? {
      s' := CancelAlone(s, db.orders[orderId], reason);
    }
  }

  /** What an initiation that does anything has read. */
  lemma InitiationFinds(db: Db, orderId: Id, key: Option<string>, gateway: GatewayReply, queue: bool)
    requires RowsAgree(db) && Initiate(db, orderId, key, gateway, queue).db != db
    ensures orderId in db.orders && db.orders[orderId].id == orderId
    ensures db.orders[orderId].status in {Confirmed, PaymentFailed}
    ensures var p := PaymentOf(db.payments, orderId); p.Some? ==> p.value.status == Rejected
    ensures key.Some? ==> PaymentByKey(db.payments, key.value).None?
    ensures forall p :: p in db.payments ==> db.payments[p].id == p < db.nextId
    ensures Initiate(db, orderId, key, gateway, queue).db
      == RequestPayment(db, db.orders[orderId], key, gateway, queue).db
  {
    assert Coupled(LifeOfRows(db.orders[orderId], PaymentOf(db.payments, orderId)));
  }

  /** The initiation from where it has found the order payable. */
  lemma RequestIsARun(db: Db, s: Sys, o: OrderRow, key: Option<string>, gateway: GatewayReply, queue: bool)
    returns (s': Sys)
    requires Matches(s, db) && Current(s, o) && o.status in {Confirmed, PaymentFailed}
    requires forall p :: p in s.payments ==> s.payments[p].id == p < s.nextId
    requires var p := PaymentOf(db.payments, o.id); p.Some? ==> p.value.status == Rejected
    requires key.Some? ==> PaymentByKey(db.payments, key.value).None?
    ensures Reaches(s, s') && Matches(s', RequestPayment(db, o, key, gateway, queue).db)
  {
    match gateway
    case GatewayError => s' := RefusedAlone(s, o, key);
    case Accepted(externalId) => s' := AcceptedAlone(s, db, o, key, externalId);
  }

  lemma InitiateIsARun(db: Db, s: Sys, orderId: Id, key: Option<string>, gateway: GatewayReply, queue: bool)
    returns (s': Sys)
    requires RowsAgree(db) && Matches(s, db)
    ensures Reaches(s, s') && Matches(s', Initiate(db, orderId, key, gateway, queue).db)
  {
    Stays(s);
    s' := s;
    if Initiate(db, orderId, key, gateway, queue).db != db {
      InitiationFinds(db, orderId, key, gateway, queue);
      s' := RequestIsARun(db, s, db.orders[orderId], key, gateway, queue);
    }
  }

  lemma CallbackIsARun(db: Db, s: Sys, paymentId: Id, status: string, transactionId: string, key: Option<string>,
                       queue: bool)
    returns (s': Sys)
    requires Keyed(db) && Matches(s, db)
    ensures Reaches(s, s') && Matches(s', Callback(db, paymentId, status, transactionId, key, queue).db)
  {
    Stays(s);
    s' := s;
    if Callback(db, paymentId, status, transactionId, key, queue).db != db {
      var p := db.payments[paymentId];
      s' := CallbackAlone(s, p, db.orders[p.orderId], SaysApproved(status), transactionId);
    }
  }

  lemma AddItemIsARun(db: Db, s: Sys, o: Id, productId: string, quantity: int, product: CatalogReply) returns (s': Sys)
    requires Keyed(db) && Matches(s, db)
    ensures Reaches(s, s') && Matches(s', AddItemToOrder(db, o, productId, quantity, product).db)
  {
    var r := AddItemToOrder(db, o, productId, quantity, product);
    Stays(s);
    s' := s;
    if r.outcome.Ok? {
      s' := EditAlone(s, db.orders[o], Add(productId, quantity, db.nextId));
    }
    if r.db.nextId != db.nextId {
      Then(s, s', Draw);
      s' := Do(s', Draw);
    }
  }

  lemma RemoveItemIsARun(db: Db, s: Sys, o: Id, itemId: Id) returns (s': Sys)
    requires Keyed(db) && Matches(s, db)
    ensures Reaches(s, s') && Matches(s', RemoveItemFromOrder(db, o, itemId).db)
  {
    Stays(s);
    s' := s;
    if RemoveItemFromOrder(db, o, itemId).outcome.Ok? {
      s' := EditAlone(s, db.orders[o], Remove(itemId));
    }
  }

  lemma CreateIsARun(db: Db, s: Sys, customerId: string, customer: CustomerReply) returns (s': Sys)
    requires Matches(s, db)
    ensures Reaches(s, s') && Matches(s', Behaviour.Create(db, customerId, customer).db)
  {
    Stays(s);
    s' := s;
    if Behaviour.Create(db, customerId, customer).outcome.Ok? {
      Then(s, s, Step.Create(customerId));
      s' := Do(s, Step.Create(customerId));
    }
  }

  lemma CommandIsARun(db: Db, s: Sys, c: Command) returns (s': Sys)
    requires Inv(db) && Matches(s, db)
    ensures Reaches(s, s') && Matches(s', Exec(db, c))
  {
    InvMeansRowsAgree(db);
    match c
    case DoCreate(customerId, customer) => s' := CreateIsARun(db, s, customerId, customer);
    case DoAddItem(o, p, q, product) => s' := AddItemIsARun(db, s, o, p, q, product);
    case DoRemoveItem(o, i) => s' := RemoveItemIsARun(db, s, o, i);
    case DoConfirm(o, k, customer, catalog, queue) => s' := ConfirmIsARun(db, s, o, k, customer, catalog, queue);
    case DoCancel(o, reason, queue) => s' := CancelIsARun(db, s, o, reason, queue);
    case DoInitiate(o, k, gateway, queue) => s' := InitiateIsARun(db, s, o, k, gateway, queue);
    case DoCallback(p, status, txn, k, queue) => s' := CallbackIsARun(db, s, p, status, txn, k, queue);
  }

  /** Every serial run is an interleaving: some steps, none a crash, lead to the same orders and payments. */
  lemma {:induction false} SerialRunsAreInterleavings(commands: seq<Command>) returns (s: Sys)
    ensures Reaches(START, s) && Matches(s, Run(EMPTY, commands))
  {
    if commands == [] {
      Stays(START);
      s := START;
    } else {
      var init, c := commands[..|commands| - 1], commands[|commands| - 1];
      var mid := SerialRunsAreInterleavings(init);
      SerialRuns.EveryRun(init);
      s := CommandIsARun(Run(EMPTY, init), mid, c);
      ReachesOn(START, mid, s);
    }
  }
}
