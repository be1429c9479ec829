/**
 What holds of order rows under any interleaving, any gateway replies and any crashes.
 */
module InterleavingProofs {
  import opened Domain
  import opened Store
  import opened Behaviour
  import opened Interleaving

  // ---- The invariant ----

  predicate AttemptsFit(o: OrderRow) {
    match o.status
    case Draft => o.attempts == 0
    case Confirmed => o.attempts == 0
    case PaymentPending => o.attempts <= 2
    case PaymentFailed => 1 <= o.attempts <= 2
    case Paid => o.attempts <= 2
    case Cancelled => o.attempts <= 3
  }

  ghost predicate HasPayment(payments: map<Id, PaymentRow>, o: Id) {
    exists p :: p in payments && payments[p].orderId == o
  }

  ghost predicate TablesOk(s: Sys) {
    && (forall o :: o in s.orders ==> s.orders[o].id == o && o < s.nextId && AttemptsFit(s.orders[o]))
    && (forall p :: p in s.payments ==> s.payments[p].id == p && p < s.nextId && s.payments[p].orderId in s.orders)
    && (forall p :: p in s.payments ==> s.orders[s.payments[p].orderId].status !in {Draft, Confirmed})
  }

  /** A version number fixes the contents: a snapshot of the current version is the current row. */
  predicate SnapOk(orders: map<Id, OrderRow>, snap: OrderRow) {
    && snap.id in orders && snap.version <= orders[snap.id].version
    && (snap.version == orders[snap.id].version ==> snap == orders[snap.id])
  }

  predicate PayOk(payments: map<Id, PaymentRow>, p: PaymentRow, o: Id) {
    p.id in payments && payments[p.id].orderId == p.orderId == o
  }

  /** What an initiation that remembers the status it left may rely on until it ends. */
  ghost predicate MemoryOk(orders: map<Id, OrderRow>, payments: map<Id, PaymentRow>, o: Id, previous: OrderStatus) {
    && o in orders
    && previous in {Confirmed, PaymentFailed}
    && (previous == Confirmed ==>
         orders[o].status in {PaymentPending, Cancelled} && orders[o].attempts == 0 && !HasPayment(payments, o))
    && (previous == PaymentFailed ==> orders[o].attempts >= 1)
  }

  ghost predicate FlightOk(orders: map<Id, OrderRow>, payments: map<Id, PaymentRow>, flight: Flight) {
    match flight
    case Saving(snap, op) =>
      && SnapOk(orders, snap) && !op.MarkPending?
      && (op.Settle? ==> HasPayment(payments, snap.id))
      && (op.Restore? ==> MemoryOk(orders, payments, snap.id, op.previous))
    case CancelReading(snap, _) => SnapOk(orders, snap)
    case CancelVoiding(snap, _, p) => SnapOk(orders, snap) && PayOk(payments, p, snap.id)
    case InitReading(snap, _) => SnapOk(orders, snap) && snap.status in {Confirmed, PaymentFailed}
    case InitMarking(snap, _, existing) =>
      && SnapOk(orders, snap) && snap.status in {Confirmed, PaymentFailed}
      && (existing.Some? ==> PayOk(payments, existing.value, snap.id))
    case InitAsking(o, _, previous, existing, _) =>
      MemoryOk(orders, payments, o, previous) && (existing.Some? ==> PayOk(payments, existing.value, o))
    case InitFailed(o, previous) => MemoryOk(orders, payments, o, previous)
    case InitPaying(o, _, previous, existing, _, _) =>
      MemoryOk(orders, payments, o, previous) && (existing.Some? ==> PayOk(payments, existing.value, o))
    case CallbackReading(p, _, _) => PayOk(payments, p, p.orderId)
    case CallbackPaying(p, snap, _, _) => SnapOk(orders, snap) && PayOk(payments, p, snap.id)
  }

  /** The order whose CONFIRMED status the flight remembers. */
  function Remembers(flight: Flight): Option<Id> {
    match flight
    case Saving(snap, op) => if op == Restore(Confirmed) then Some(snap.id) else None
    case InitAsking(o, _, previous, _, _) => if previous == Confirmed then Some(o) else None
    case InitFailed(o, previous) => if previous == Confirmed then Some(o) else None
    case InitPaying(o, _, previous, _, _, _) => if previous == Confirmed then Some(o) else None
    case _ => None
  }

  /** At most one flight remembers CONFIRMED for an order. */
  predicate OneMemory(flights: map<FlightId, Flight>) {
    forall f, g :: f in flights && g in flights && f != g ==>
      Remembers(flights[f]) == None || Remembers(flights[f]) != Remembers(flights[g])
  }

  ghost predicate FlightsOk(s: Sys) {
    forall f :: f in s.flights ==> FlightOk(s.orders, s.payments, s.flights[f])
  }

  ghost predicate SysInv(s: Sys) {
    TablesOk(s) && FlightsOk(s) && OneMemory(s.flights)
  }

  // ---- One operation on one row ----

  /** What any operation respects: version, customer, attempts, and the goods once the order is out of DRAFT. */
  predicate RowSucceeds(r: OrderRow, r': OrderRow) {
    && r'.id == r.id && r'.customerId == r.customerId && r'.version == r.version + 1
    && r.attempts <= r'.attempts
    && (r.status != Draft ==> r'.status != Draft && r'.items == r.items && r'.total == r.total)
    && r.status !in {Paid, Cancelled}
  }

  lemma PerformSucceeds(op: DomainOp, r: OrderRow)
    requires Perform(op, r).Ok?
    requires op.Restore? ==> op.previous in {Confirmed, PaymentFailed}
    ensures RowSucceeds(r, Perform(op, r).value)
    ensures op.Restore? || op.Add? || op.Remove? || CanTransition(r.status, Perform(op, r).value.status)
    ensures op.Add? || op.Remove? ==> r.status == Draft == Perform(op, r).value.status
  {
  }

  /** The operations that move an order along its life; edits and the rollback do not. */
  predicate MovesAlong(op: DomainOp) { op.ConfirmAt? || op.CancelFor? || op.MarkPending? || op.Settle? }

  ghost predicate Takes(op: DomainOp, row: OrderRow, to: OrderStatus) {
    Perform(op, row).Ok? && Perform(op, row).value.status == to
  }

  /** The table VALID_TRANSITIONS is exactly what the operations do: each moves along an edge, and each edge is
      taken by one. */
  lemma TableIsWhatOperationsDo(from: OrderStatus, to: OrderStatus)
    ensures CanTransition(from, to) <==>
      exists op: DomainOp, row: OrderRow :: MovesAlong(op) && row.status == from && Takes(op, row, to)
  {
    forall op: DomainOp, row: OrderRow | MovesAlong(op) && row.status == from && Takes(op, row, to)
      ensures CanTransition(from, to)
    {
      PerformSucceeds(op, row);
    }
    if CanTransition(from, to) {
      var (op, row) := EdgeTaken(from, to);
      EdgeIsTaken(from, to);
    }
  }

  function EdgeTaken(from: OrderStatus, to: OrderStatus): (DomainOp, OrderRow) {
    var row := OrderRow(0, "c", from, [OrderItem(1, "p", 1, None)], 0, if from == PaymentFailed then 1 else 0, 1, None);
    var op := match to
      case Confirmed => ConfirmAt(map["p" := 1])
      case PaymentPending => MarkPending
      case Paid => Settle(true)
      case PaymentFailed => Settle(false)
      case _ => CancelFor(None);
    (op, row)
  }

  lemma EdgeIsTaken(from: OrderStatus, to: OrderStatus)
    requires CanTransition(from, to)
    ensures var (op, row) := EdgeTaken(from, to); MovesAlong(op) && row.status == from && Takes(op, row, to)
  {
  }

  lemma AttemptsStayFit(op: DomainOp, r: OrderRow)
    requires Perform(op, r).Ok? && AttemptsFit(r)
    requires op == Restore(Confirmed) ==> r.attempts == 0
    requires op == Restore(PaymentFailed) ==> r.attempts >= 1
    requires op.Restore? ==> op.previous in {Confirmed, PaymentFailed}
    ensures AttemptsFit(Perform(op, r).value)
    ensures r.attempts == 2 && op == Settle(false) ==> Perform(op, r).value.status == Cancelled
  {
  }

  // ---- Steps that only move flights ----

  lemma LandKeeps(s: Sys, f: FlightId)
    requires SysInv(s)
    ensures SysInv(Land(s, f))
  {
  }

  lemma FlyKeeps(s: Sys, f: FlightId, flight: Flight)
    requires SysInv(s) && FlightOk(s.orders, s.payments, flight)
    requires Remembers(flight) == None || (f in s.flights && Remembers(flight) == Remembers(s.flights[f]))
    ensures SysInv(Fly(s, f, flight))
  {
  }

  // ---- Commits of an order row ----

  /** The row a commit replaces is the snapshot it was computed from. */
  lemma CommitReplacesSnapshot(s: Sys, snap: OrderRow, op: DomainOp)
    requires SnapOk(s.orders, snap) && CommitOrder(s, snap, op).Some?
    requires op.Restore? ==> op.previous in {Confirmed, PaymentFailed}
    ensures s.orders[snap.id] == snap && CommitOrder(s, snap, op).value == SaveRow(s, Perform(op, snap).value, op)
    ensures RowSucceeds(snap, Perform(op, snap).value)
  {
  }

  lemma SnapStaysOk(orders: map<Id, OrderRow>, row: OrderRow, snap: OrderRow)
    requires SnapOk(orders, snap) && row.id in orders && row.version == orders[row.id].version + 1
    ensures SnapOk(orders[row.id := row], snap)
  {
  }

  /** The flight may make this commit: it saves, or it marks a payable order. */
  predicate Commits(flight: Flight, snap: OrderRow, op: DomainOp) {
    flight == Saving(snap, op) || (flight.InitMarking? && flight.snap == snap && op == MarkPending)
  }

  lemma CommitKeepsTables(s: Sys, f: FlightId, snap: OrderRow, op: DomainOp)
    requires SysInv(s) && f in s.flights && Commits(s.flights[f], snap, op)
    requires CommitOrder(s, snap, op).Some?
    ensures TablesOk(CommitOrder(s, snap, op).value)
  {
    CommitReplacesSnapshot(s, snap, op);
    AttemptsStayFit(op, snap);
    var row := Perform(op, snap).value;
    if row.status in {Draft, Confirmed} {
      assert !HasPayment(s.payments, snap.id);
    }
  }

  /** Memories of other flights outlive the commit. */
  lemma MemoryStaysOk(s: Sys, f: FlightId, snap: OrderRow, op: DomainOp, o: Id, previous: OrderStatus)
    requires SysInv(s) && f in s.flights && Commits(s.flights[f], snap, op)
    requires CommitOrder(s, snap, op).Some?
    requires MemoryOk(s.orders, s.payments, o, previous)
    requires op == Restore(Confirmed) && snap.id == o ==> previous != Confirmed
    ensures MemoryOk(s.orders[snap.id := Perform(op, snap).value], s.payments, o, previous)
  {
    CommitReplacesSnapshot(s, snap, op);
  }

  lemma OtherFlightStaysOk(s: Sys, f: FlightId, snap: OrderRow, op: DomainOp, g: FlightId)
    requires SysInv(s) && f in s.flights && Commits(s.flights[f], snap, op)
    requires CommitOrder(s, snap, op).Some?
    requires g in s.flights && g != f
    ensures FlightOk(s.orders[snap.id := Perform(op, snap).value], s.payments, s.flights[g])
  {
    CommitReplacesSnapshot(s, snap, op);
    var row := Perform(op, snap).value;
    var flight := s.flights[g];
    assert FlightOk(s.orders, s.payments, flight);
    assert op == Restore(Confirmed) ==> Remembers(s.flights[f]) == Some(snap.id);
    match flight
    case Saving(snap', op') =>
      SnapStaysOk(s.orders, row, snap');
      if op'.Restore? { MemoryStaysOk(s, f, snap, op, snap'.id, op'.previous); }
    case CancelReading(snap', _) => SnapStaysOk(s.orders, row, snap');
    case CancelVoiding(snap', _, _) => SnapStaysOk(s.orders, row, snap');
    case InitReading(snap', _) => SnapStaysOk(s.orders, row, snap');
    case InitMarking(snap', _, _) => SnapStaysOk(s.orders, row, snap');
    case InitAsking(o, _, previous, _, _) => MemoryStaysOk(s, f, snap, op, o, previous);
    case InitFailed(o, previous) => MemoryStaysOk(s, f, snap, op, o, previous);
    case InitPaying(o, _, previous, _, _, _) => MemoryStaysOk(s, f, snap, op, o, previous);
    case CallbackReading(_, _, _) =>
    case CallbackPaying(_, snap', _, _) => SnapStaysOk(s.orders, row, snap');
  }

  /** A commit that ends its flight. */
  lemma SavingKeeps(s: Sys, f: FlightId, snap: OrderRow, op: DomainOp)
    requires SysInv(s) && f in s.flights && s.flights[f] == Saving(snap, op)
    requires CommitOrder(s, snap, op).Some?
    ensures SysInv(Land(CommitOrder(s, snap, op).value, f))
  {
    CommitReplacesSnapshot(s, snap, op);
    CommitKeepsTables(s, f, snap, op);
    forall g | g in s.flights && g != f
      ensures FlightOk(s.orders[snap.id := Perform(op, snap).value], s.payments, s.flights[g])
    {
      OtherFlightStaysOk(s, f, snap, op, g);
    }
  }

  lemma NobodyRemembers(s: Sys, o: Id)
    requires FlightsOk(s) && o in s.orders && s.orders[o].status == Confirmed
    ensures forall g :: g in s.flights ==> Remembers(s.flights[g]) != Some(o)
  {
    forall g | g in s.flights ensures Remembers(s.flights[g]) != Some(o) {
      assert FlightOk(s.orders, s.payments, s.flights[g]);
    }
  }

  lemma MarkedFlightOk(s: Sys, snap: OrderRow, key: Option<string>, existing: Option<PaymentRow>)
    requires TablesOk(s) && FlightOk(s.orders, s.payments, InitMarking(snap, key, existing))
    requires CommitOrder(s, snap, MarkPending).Some?
    ensures FlightOk(s.orders[snap.id := Perform(MarkPending, snap).value], s.payments,
                     InitAsking(snap.id, key, snap.status, existing, snap.total))
  {
    CommitReplacesSnapshot(s, snap, MarkPending);
    assert AttemptsFit(s.orders[snap.id]);
  }

  lemma MarkingKeepsFlights(s: Sys, f: FlightId, snap: OrderRow, key: Option<string>, existing: Option<PaymentRow>)
    requires SysInv(s) && f in s.flights && s.flights[f] == InitMarking(snap, key, existing)
    requires CommitOrder(s, snap, MarkPending).Some?
    ensures var asking := InitAsking(snap.id, key, snap.status, existing, snap.total);
      FlightsOk(Fly(SaveRow(s, Perform(MarkPending, snap).value, MarkPending), f, asking))
  {
    CommitReplacesSnapshot(s, snap, MarkPending);
    forall g | g in s.flights && g != f
      ensures FlightOk(s.orders[snap.id := Perform(MarkPending, snap).value], s.payments, s.flights[g])
    {
      OtherFlightStaysOk(s, f, snap, MarkPending, g);
    }
    MarkedFlightOk(s, snap, key, existing);
  }

  /** Nobody remembers CONFIRMED of an order that is CONFIRMED, so the flight that now does is the only one. */
  lemma MarkingKeepsMemory(s: Sys, f: FlightId, snap: OrderRow, key: Option<string>, existing: Option<PaymentRow>)
    requires FlightsOk(s) && OneMemory(s.flights) && snap.id in s.orders && s.orders[snap.id] == snap
    requires snap.status in {Confirmed, PaymentFailed}
    ensures OneMemory(s.flights[f := InitAsking(snap.id, key, snap.status, existing, snap.total)])
  {
    if snap.status == Confirmed {
      NobodyRemembers(s, snap.id);
    }
  }

  lemma MarkingKeeps(s: Sys, f: FlightId, snap: OrderRow, key: Option<string>, existing: Option<PaymentRow>)
    requires SysInv(s) && f in s.flights && s.flights[f] == InitMarking(snap, key, existing)
    requires CommitOrder(s, snap, MarkPending).Some?
    ensures var asking := InitAsking(snap.id, key, snap.status, existing, snap.total);
      SysInv(Fly(CommitOrder(s, snap, MarkPending).value, f, asking))
  {
    CommitReplacesSnapshot(s, snap, MarkPending);
    CommitKeepsTables(s, f, snap, MarkPending);
    MarkingKeepsFlights(s, f, snap, key, existing);
    MarkingKeepsMemory(s, f, snap, key, existing);
  }

  // ---- Commits of a payment row ----

  /** Overwriting a row changes neither its order nor which orders have a payment. */
  lemma OverwriteKeeps(s: Sys, p: PaymentRow)
    requires SysInv(s) && p.id in s.payments
    ensures SavePaymentRow(s, p).Some? && SysInv(SavePaymentRow(s, p).value)
    ensures SavePaymentRow(s, p).value.orders == s.orders
  {
    var after := SavePaymentRow(s, p).value;
    forall o ensures HasPayment(after.payments, o) <==> HasPayment(s.payments, o) {
      SameOwners(s.payments, after.payments, o);
    }
    forall f | f in s.flights ensures FlightOk(after.orders, after.payments, s.flights[f]) {
      assert FlightOk(s.orders, s.payments, s.flights[f]);
    }
  }

  lemma SameOwners(payments: map<Id, PaymentRow>, payments': map<Id, PaymentRow>, o: Id)
    requires payments'.Keys == payments.Keys
    requires forall p :: p in payments ==> payments'[p].orderId == payments[p].orderId
    ensures HasPayment(payments', o) <==> HasPayment(payments, o)
  {
  }

  lemma OneMoreOwner(payments: map<Id, PaymentRow>, p: PaymentRow)
    requires p.id !in payments
    ensures forall o :: HasPayment(payments[p.id := p], o) <==> HasPayment(payments, o) || o == p.orderId
  {
    var after := payments[p.id := p];
    assert after[p.id].orderId == p.orderId;
    forall o | HasPayment(payments, o) ensures HasPayment(after, o) {
      var q :| q in payments && payments[q].orderId == o;
      assert after[q].orderId == o;
    }
  }

  /** A first payment: its order is out of DRAFT and CONFIRMED, and no other flight remembers CONFIRMED of it. */
  lemma InsertKeeps(s: Sys, f: FlightId, p: PaymentRow)
    requires SysInv(s) && f in s.flights && s.flights[f].InitPaying? && s.flights[f].orderId == p.orderId
    requires p.id == s.nextId
    ensures SysInv(Land(s.(payments := s.payments[p.id := p], nextId := s.nextId + 1), f))
  {
    var after, o := s.payments[p.id := p], p.orderId;
    assert FlightOk(s.orders, s.payments, s.flights[f]);
    assert AttemptsFit(s.orders[o]);
    assert p.id !in s.payments;
    OneMoreOwner(s.payments, p);
    forall g | g in s.flights && g != f ensures FlightOk(s.orders, after, s.flights[g]) {
      assert FlightOk(s.orders, s.payments, s.flights[g]);
      assert Remembers(s.flights[g]) != Some(o);
    }
  }

  lemma PayingKeeps(s: Sys, f: FlightId, o: Id, key: Option<string>, previous: OrderStatus,
                    existing: Option<PaymentRow>,
                    amount: nat, externalId: string)
    requires SysInv(s) && f in s.flights && s.flights[f] == InitPaying(o, key, previous, existing, amount, externalId)
    requires PayFor(s, o, key, existing, amount, externalId).Some?
    ensures SysInv(Land(PayFor(s, o, key, existing, amount, externalId).value, f))
  {
    assert FlightOk(s.orders, s.payments, s.flights[f]);
    if existing.Some? && existing.value.status == Rejected {
      var p := existing.value.(status := Pending, externalReference := Some(externalId));
      OverwriteKeeps(s, p);
      LandKeeps(SavePaymentRow(s, p).value, f);
    } else {
      assert s.nextId !in s.payments;
      InsertKeeps(s, f, PaymentRow(s.nextId, o, amount, Pending, Some(externalId), key));
    }
  }

  // ---- Every step ----

  lemma PaymentOfIsOk(s: Sys, o: Id)
    requires TablesOk(s)
    ensures PaymentOf(s.payments, o).Some? ==> PayOk(s.payments, PaymentOf(s.payments, o).value, o)
  {
  }

  lemma CancelKeeps(s: Sys, f: FlightId, gateway: GatewayReply)
    requires SysInv(s) && f in s.flights && (s.flights[f].CancelReading? || s.flights[f].CancelVoiding?)
    ensures SysInv(AdvanceFlight(s, f, s.flights[f], gateway))
  {
    var flight := s.flights[f];
    assert FlightOk(s.orders, s.payments, flight);
    match flight
    case CancelReading(snap, reason) =>
      PaymentOfIsOk(s, snap.id);
      var p := PaymentOf(s.payments, snap.id);
      if p.Some? { FlyKeeps(s, f, CancelVoiding(snap, reason, p.value)); }
      FlyKeeps(s, f, Saving(snap, CancelFor(reason)));
    case CancelVoiding(snap, reason, p) =>
      OverwriteKeeps(s, p.(status := Void));
      FlyKeeps(SavePaymentRow(s, p.(status := Void)).value, f, Saving(snap, CancelFor(reason)));
  }

  lemma InitiateKeeps(s: Sys, f: FlightId, gateway: GatewayReply)
    requires SysInv(s) && f in s.flights
    requires s.flights[f].InitReading? || s.flights[f].InitMarking? || s.flights[f].InitAsking?
          || s.flights[f].InitFailed? || s.flights[f].InitPaying?
    ensures SysInv(AdvanceFlight(s, f, s.flights[f], gateway))
  {
    var flight := s.flights[f];
    assert FlightOk(s.orders, s.payments, flight);
    LandKeeps(s, f);
    match flight
    case InitReading(snap, key) =>
      PaymentOfIsOk(s, snap.id);
      FlyKeeps(s, f, InitMarking(snap, key, PaymentOf(s.payments, snap.id)));
    case InitMarking(snap, key, existing) =>
      if CommitOrder(s, snap, MarkPending).Some? { MarkingKeeps(s, f, snap, key, existing); }
    case InitAsking(o, key, previous, existing, amount) =>
      if gateway.Accepted? { FlyKeeps(s, f, InitPaying(o, key, previous, existing, amount, gateway.externalId)); }
      FlyKeeps(s, f, InitFailed(o, previous));
    case InitFailed(o, previous) =>
      FlyKeeps(s, f, Saving(s.orders[o], Restore(previous)));
    case InitPaying(o, key, previous, existing, amount, externalId) =>
      if PayFor(s, o, key, existing, amount, externalId).Some? {
        PayingKeeps(s, f, o, key, previous, existing, amount, externalId);
      }
  }

  lemma CallbackKeeps(s: Sys, f: FlightId, gateway: GatewayReply)
    requires SysInv(s) && f in s.flights && (s.flights[f].CallbackReading? || s.flights[f].CallbackPaying?)
    ensures SysInv(AdvanceFlight(s, f, s.flights[f], gateway))
  {
    var flight := s.flights[f];
    assert FlightOk(s.orders, s.payments, flight);
    match flight
    case CallbackReading(p, approved, txn) =>
      LandKeeps(s, f);
      FlyKeeps(s, f, CallbackPaying(p, s.orders[p.orderId], approved, txn));
    case CallbackPaying(p, snap, approved, txn) =>
      var settled := SettledPayment(p, approved, txn);
      OverwriteKeeps(s, settled);
      var after := SavePaymentRow(s, settled).value;
      assert after.payments[p.id].orderId == snap.id;
      FlyKeeps(after, f, Saving(snap, Settle(approved)));
  }

  lemma AdvanceKeeps(s: Sys, f: FlightId, gateway: GatewayReply)
    requires SysInv(s) && f in s.flights
    ensures SysInv(AdvanceFlight(s, f, s.flights[f], gateway))
  {
    match s.flights[f]
    case Saving(snap, op) =>
      LandKeeps(s, f);
      if CommitOrder(s, snap, op).Some? { SavingKeeps(s, f, snap, op); }
    case CancelReading(_, _) => CancelKeeps(s, f, gateway);
    case CancelVoiding(_, _, _) => CancelKeeps(s, f, gateway);
    case CallbackReading(_, _, _) => CallbackKeeps(s, f, gateway);
    case CallbackPaying(_, _, _, _) => CallbackKeeps(s, f, gateway);
    case _ => InitiateKeeps(s, f, gateway);
  }

  lemma BeginKeeps(s: Sys, f: FlightId, call: Call)
    requires SysInv(s) && f !in s.flights
    ensures SysInv(BeginCall(s, f, call))
  {
    match call
    case Edit(o, op) => if o in s.orders && IsEdit(op) { FlyKeeps(s, f, Saving(s.orders[o], op)); }
    case CancelCall(o, reason) => if o in s.orders { FlyKeeps(s, f, CancelReading(s.orders[o], reason)); }
    case InitiateCall(o, key) =>
      if o in s.orders && s.orders[o].status in {Confirmed, PaymentFailed} {
        FlyKeeps(s, f, InitReading(s.orders[o], key));
      }
    case CallbackCall(p, approved, txn) =>
      if p in s.payments { FlyKeeps(s, f, CallbackReading(s.payments[p], approved, txn)); }
  }

  lemma CreateKeepsSys(s: Sys, customerId: string)
    requires SysInv(s)
    ensures SysInv(Do(s, Create(customerId)))
  {
    var after := Do(s, Create(customerId));
    forall f | f in s.flights ensures FlightOk(after.orders, after.payments, s.flights[f]) {
      assert FlightOk(s.orders, s.payments, s.flights[f]);
    }
  }

  lemma DoKeeps(s: Sys, step: Step)
    requires SysInv(s)
    ensures SysInv(Do(s, step))
  {
    match step
    case Create(customerId) => CreateKeepsSys(s, customerId);
    case Begin(f, call) => if f !in s.flights { BeginKeeps(s, f, call); }
    case Advance(f, gateway) => if f in s.flights { AdvanceKeeps(s, f, gateway); }
    case Stop(f) => LandKeeps(s, f);
    case Draw =>
  }

  lemma {:induction false} EveryInterleaving(steps: seq<Step>)
    ensures SysInv(RunSteps(START, steps))
  {
    if steps != [] {
      EveryInterleaving(steps[..|steps| - 1]);
      DoKeeps(RunSteps(START, steps[..|steps| - 1]), steps[|steps| - 1]);
    }
  }
}
