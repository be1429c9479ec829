/**
 What can still be said of payments when use cases interleave: there is one per order, it is
 for the order's total, and no verdict is recorded on an order without one.
 */
module InterleavedPayments {
  import opened Domain
  import opened Store
  import opened Behaviour
  import opened Interleaving
  import opened InterleavingProofs
  import opened Linearization

  /** The amount an initiation in flight will write. */
  ghost predicate FlightAmountOk(orders: map<Id, OrderRow>, flight: Flight) {
    match flight
    case InitAsking(o, _, _, _, amount) => o in orders && amount == orders[o].total
    case InitPaying(o, _, _, _, amount, _) => o in orders && amount == orders[o].total
    case _ => true
  }

  ghost predicate PaymentsOk(s: Sys) {
    && (forall p :: p in s.payments ==>
         s.payments[p].orderId in s.orders && s.payments[p].amount == s.orders[s.payments[p].orderId].total)
    && (forall p, q :: p in s.payments && q in s.payments && s.payments[p].orderId == s.payments[q].orderId ==> p == q)
    && (forall f :: f in s.flights ==> FlightAmountOk(s.orders, s.flights[f]))
    && (forall o :: o in s.orders ==> VerdictHasPayment(s.orders[o], s.payments))
  }

  /** A recorded verdict came through a payment row. */
  ghost predicate VerdictHasPayment(o: OrderRow, payments: map<Id, PaymentRow>) {
    o.attempts > 0 || o.status in {PaymentFailed, Paid} ==> HasPayment(payments, o.id)
  }

  /** What a step can do to payment rows: overwrite statuses and references, or insert the flight's first payment. */
  ghost predicate SameButStatus(payments: map<Id, PaymentRow>, payments': map<Id, PaymentRow>) {
    && payments'.Keys == payments.Keys
    && forall p :: p in payments ==>
         payments'[p]
           == payments[p].(status := payments'[p].status, externalReference := payments'[p].externalReference)
  }

  ghost predicate Inserted(s: Sys, s': Sys, o: Id, amount: nat) {
    && s.nextId !in s.payments && PaymentOf(s.payments, o).None?
    && exists p: PaymentRow :: p.orderId == o && p.amount == amount && s'.payments == s.payments[s.nextId := p]
  }

  lemma OverwriteIsStatusOnly(s: Sys, p: PaymentRow)
    requires p.id in s.payments
    ensures SavePaymentRow(s, p).Some? && SameButStatus(s.payments, SavePaymentRow(s, p).value.payments)
  {
  }

  lemma PayingWrites(s: Sys, f: FlightId, o: Id, key: Option<string>, existing: Option<PaymentRow>, amount: nat,
                     externalId: string)
    requires s.nextId !in s.payments
    requires existing.Some? ==> existing.value.id in s.payments
    ensures var r := PayFor(s, o, key, existing, amount, externalId);
      r.Some? ==> SameButStatus(s.payments, r.value.payments) || Inserted(s, r.value, o, amount)
  {
    if existing.Some? && existing.value.status == Rejected {
      OverwriteIsStatusOnly(s, existing.value.(status := Pending, externalReference := Some(externalId)));
    } else {
      var p := PaymentRow(s.nextId, o, amount, Pending, Some(externalId), key);
      assert p.orderId == o && p.amount == amount;
    }
  }

  /** Between two commits of an order row. */
  lemma OtherAdvanceWrites(s: Sys, f: FlightId, gateway: GatewayReply)
    requires SysInv(s) && f in s.flights && Committing(s, Advance(f, gateway)).None?
    ensures var s' := AdvanceFlight(s, f, s.flights[f], gateway);
      || SameButStatus(s.payments, s'.payments)
      || (s.flights[f].InitPaying? && Inserted(s, s', s.flights[f].orderId, s.flights[f].amount))
  {
    assert FlightOk(s.orders, s.payments, s.flights[f]);
    match s.flights[f]
    case CancelVoiding(_, _, p) => OverwriteIsStatusOnly(s, p.(status := Void));
    case CallbackPaying(p, _, approved, txn) => OverwriteIsStatusOnly(s, SettledPayment(p, approved, txn));
    case InitPaying(o, key, _, existing, amount, externalId) =>
      PayingWrites(s, f, o, key, existing, amount, externalId);
    case _ =>
  }

  lemma SaveMovesNoFlight(s: Sys, p: PaymentRow)
    ensures SavePaymentRow(s, p).Some? ==> SavePaymentRow(s, p).value.flights == s.flights
  {
  }

  lemma CommitMovesNoFlight(s: Sys, snap: OrderRow, op: DomainOp)
    ensures CommitOrder(s, snap, op).Some? ==> CommitOrder(s, snap, op).value.flights == s.flights
  {
  }

  lemma PayingMovesNoFlight(s: Sys, o: Id, key: Option<string>, existing: Option<PaymentRow>, amount: nat,
                            externalId: string)
    ensures PayFor(s, o, key, existing, amount, externalId).Some? ==>
      PayFor(s, o, key, existing, amount, externalId).value.flights == s.flights
  {
  }

  predicate OnlyMoves(f: FlightId, flights: map<FlightId, Flight>, flights': map<FlightId, Flight>) {
    flights' == flights || flights' == flights - {f} || (f in flights' && flights' == flights[f := flights'[f]])
  }

  /** A flight's step moves no other flight. */
  lemma OthersFlyOn(s: Sys, f: FlightId, gateway: GatewayReply)
    requires f in s.flights
    ensures OnlyMoves(f, s.flights, AdvanceFlight(s, f, s.flights[f], gateway).flights)
  {
    match s.flights[f]
    case Saving(snap, op) => CommitMovesNoFlight(s, snap, op);
    case InitMarking(snap, _, _) => CommitMovesNoFlight(s, snap, MarkPending);
    case CancelVoiding(_, _, p) => SaveMovesNoFlight(s, p.(status := Void));
    case CallbackPaying(p, _, approved, txn) => SaveMovesNoFlight(s, SettledPayment(p, approved, txn));
    case InitPaying(o, key, _, existing, amount, externalId) =>
      PayingMovesNoFlight(s, o, key, existing, amount, externalId);
    case _ =>
  }

  lemma OtherAdvanceFlights(s: Sys, f: FlightId, gateway: GatewayReply)
    requires PaymentsOk(s) && f in s.flights && Committing(s, Advance(f, gateway)).None?
    ensures var s' := AdvanceFlight(s, f, s.flights[f], gateway);
      forall g :: g in s'.flights ==> FlightAmountOk(s.orders, s'.flights[g])
  {
    OthersFlyOn(s, f, gateway);
    assert FlightAmountOk(s.orders, s.flights[f]);
  }

  lemma StatusOnlyKeeps(s: Sys, s': Sys)
    requires PaymentsOk(s) && s'.orders == s.orders && SameButStatus(s.payments, s'.payments)
    requires forall f :: f in s'.flights ==> FlightAmountOk(s.orders, s'.flights[f])
    ensures PaymentsOk(s')
  {
    forall o | o in s.orders ensures VerdictHasPayment(s.orders[o], s'.payments) {
      assert VerdictHasPayment(s.orders[o], s.payments);
      SameOwners(s.payments, s'.payments, s.orders[o].id);
    }
  }

  lemma InsertedKeeps(s: Sys, s': Sys, o: Id)
    requires PaymentsOk(s) && s'.orders == s.orders && o in s.orders && Inserted(s, s', o, s.orders[o].total)
    requires forall f :: f in s'.flights ==> FlightAmountOk(s.orders, s'.flights[f])
    ensures PaymentsOk(s')
  {
    var p: PaymentRow :| p.orderId == o && p.amount == s.orders[o].total && s'.payments == s.payments[s.nextId := p];
    forall x | x in s.orders ensures VerdictHasPayment(s.orders[x], s'.payments) {
      assert VerdictHasPayment(s.orders[x], s.payments);
      if HasPayment(s.payments, s.orders[x].id) {
        var q :| q in s.payments && s.payments[q].orderId == s.orders[x].id;
        assert s'.payments[q].orderId == s.orders[x].id;
      }
    }
  }

  lemma OtherAdvanceKeeps(s: Sys, f: FlightId, gateway: GatewayReply)
    requires SysInv(s) && PaymentsOk(s) && f in s.flights && Committing(s, Advance(f, gateway)).None?
    ensures PaymentsOk(AdvanceFlight(s, f, s.flights[f], gateway))
  {
    var s' := AdvanceFlight(s, f, s.flights[f], gateway);
    OtherAdvancesWriteNoRow(s, f, gateway);
    OtherAdvanceWrites(s, f, gateway);
    OtherAdvanceFlights(s, f, gateway);
    if SameButStatus(s.payments, s'.payments) {
      StatusOnlyKeeps(s, s');
    } else {
      assert FlightAmountOk(s.orders, s.flights[f]);
      InsertedKeeps(s, s', s.flights[f].orderId);
    }
  }

  /** A commit ends its flight, or sends it to ask for the amount of the row it marked. */
  lemma CommitFlights(s: Sys, step: Step)
    requires Committing(s, step).Some?
    ensures var s', flight := Do(s, step), s.flights[step.f];
      && s'.payments == s.payments
      && (|| s'.flights == s.flights - {step.f}
          || (flight.InitMarking? && s'.flights == s.flights[step.f :=
               InitAsking(flight.snap.id, flight.key, flight.snap.status, flight.existing, flight.snap.total)]))
  {
  }

  /** A flight that knows an amount works on an order that is out of DRAFT, so the total stays. */
  lemma AmountStays(s: Sys, e: LogEntry, row: OrderRow, flight: Flight)
    requires TablesOk(s) && FlightOk(s.orders, s.payments, flight) && FlightAmountOk(s.orders, flight)
    requires e.orderId in s.orders && RowSucceeds(s.orders[e.orderId], row)
    ensures FlightAmountOk(s.orders[e.orderId := row], flight)
  {
    assert AttemptsFit(s.orders[e.orderId]);
  }

  lemma CommitKeepsFlights(s: Sys, step: Step)
    requires SysInv(s) && PaymentsOk(s) && Committing(s, step).Some?
    ensures var s' := Do(s, step); forall g :: g in s'.flights ==> FlightAmountOk(s'.orders, s'.flights[g])
  {
    CommitIsOnCurrentRow(s, step);
    CommitFlights(s, step);
    var s' := Do(s, step);
    var e := Committing(s, step).value;
    forall g | g in s'.flights && g != step.f ensures FlightAmountOk(s'.orders, s'.flights[g]) {
      assert s'.flights[g] == s.flights[g];
      AmountStays(s, e, s'.orders[e.orderId], s.flights[g]);
    }
    if step.f in s'.flights {
      assert FlightOk(s.orders, s.payments, s.flights[step.f]);
    }
  }

  lemma CommitKeepsVerdict(s: Sys, step: Step)
    requires SysInv(s) && PaymentsOk(s) && Committing(s, step).Some?
    ensures var e, s' := Committing(s, step).value, Do(s, step);
      e.orderId in s'.orders && VerdictHasPayment(s'.orders[e.orderId], s.payments)
  {
    CommitIsOnCurrentRow(s, step);
    var e := Committing(s, step).value;
    assert VerdictHasPayment(s.orders[e.orderId], s.payments);
    assert FlightOk(s.orders, s.payments, s.flights[step.f]);
  }

  lemma CommitKeepsPayments(s: Sys, step: Step)
    requires SysInv(s) && PaymentsOk(s) && Committing(s, step).Some?
    ensures PaymentsOk(Do(s, step))
  {
    CommitIsOnCurrentRow(s, step);
    CommitFlights(s, step);
    CommitKeepsFlights(s, step);
    CommitKeepsVerdict(s, step);
  }

  lemma CreateKeepsPayments(s: Sys, customerId: string)
    requires SysInv(s) && PaymentsOk(s)
    ensures PaymentsOk(Do(s, Create(customerId)))
  {
    var s' := Do(s, Create(customerId));
    forall f | f in s'.flights ensures FlightAmountOk(s'.orders, s'.flights[f]) {
      assert FlightAmountOk(s.orders, s.flights[f]);
    }
  }

  lemma BeginKeepsPayments(s: Sys, f: FlightId, call: Call)
    requires PaymentsOk(s)
    ensures PaymentsOk(BeginCall(s, f, call))
  {
    var s' := BeginCall(s, f, call);
    forall g | g in s'.flights ensures FlightAmountOk(s'.orders, s'.flights[g]) {
      assert g != f ==> FlightAmountOk(s.orders, s.flights[g]);
    }
    StatusOnlyKeeps(s, s');
  }

  lemma StepKeepsPayments(s: Sys, step: Step)
    requires SysInv(s) && PaymentsOk(s)
    ensures PaymentsOk(Do(s, step))
  {
    if Committing(s, step).Some? {
      CommitKeepsPayments(s, step);
    } else {
      match step
      case Create(customerId) => CreateKeepsPayments(s, customerId);
      case Begin(f, call) => if f !in s.flights { BeginKeepsPayments(s, f, call); }
      case Advance(f, gateway) => if f in s.flights { OtherAdvanceKeeps(s, f, gateway); }
      case Stop(f) => StatusOnlyKeeps(s, Land(s, f));
      case Draw =>
    }
  }

  lemma {:induction false} EveryInterleavingKeepsPayments(steps: seq<Step>)
    ensures PaymentsOk(RunSteps(START, steps))
  {
    if steps != [] {
      EveryInterleaving(steps[..|steps| - 1]);
      EveryInterleavingKeepsPayments(steps[..|steps| - 1]);
      StepKeepsPayments(RunSteps(START, steps[..|steps| - 1]), steps[|steps| - 1]);
    }
  }

  /** Any interleaving: a payment is for its order's total, no order has two, and a verdict needs one. */
  lemma {:induction false} PaymentsMatchTotals(steps: seq<Step>, p: Id, q: Id, o: Id)
    requires var s := RunSteps(START, steps); p in s.payments && q in s.payments && o in s.orders
    ensures var s := RunSteps(START, steps);
      && s.payments[p].orderId in s.orders && s.payments[p].amount == s.orders[s.payments[p].orderId].total
      && (s.payments[p].orderId == s.payments[q].orderId ==> p == q)
      && (s.orders[o].attempts > 0 || s.orders[o].status in {PaymentFailed, Paid} ==> PaymentOf(s.payments, o).Some?)
  {
    EveryInterleaving(steps);
    EveryInterleavingKeepsPayments(steps);
    var s := RunSteps(START, steps);
    assert VerdictHasPayment(s.orders[o], s.payments);
  }

  // ---- Keys ----

  ghost predicate KeysOk(payments: map<Id, PaymentRow>) {
    forall p, q | p in payments && q in payments && payments[p].idempotencyKey.Some? ::
      payments[p].idempotencyKey == payments[q].idempotencyKey ==> p == q
  }

  lemma SaveKeepsKeys(s: Sys, p: PaymentRow)
    requires KeysOk(s.payments)
    ensures SavePaymentRow(s, p).Some? ==> KeysOk(SavePaymentRow(s, p).value.payments)
  {
  }

  lemma PayingKeepsKeys(s: Sys, o: Id, key: Option<string>, existing: Option<PaymentRow>, amount: nat,
                        externalId: string)
    requires KeysOk(s.payments)
    ensures var r := PayFor(s, o, key, existing, amount, externalId); r.Some? ==> KeysOk(r.value.payments)
  {
    if existing.Some? && existing.value.status == Rejected {
      SaveKeepsKeys(s, existing.value.(status := Pending, externalReference := Some(externalId)));
    } else {
      SaveKeepsKeys(s.(nextId := s.nextId + 1), PaymentRow(s.nextId, o, amount, Pending, Some(externalId), key));
    }
  }

  lemma CommitPaysNothing(s: Sys, snap: OrderRow, op: DomainOp)
    ensures CommitOrder(s, snap, op).Some? ==> CommitOrder(s, snap, op).value.payments == s.payments
  {
  }

  lemma AdvanceKeepsKeys(s: Sys, f: FlightId, gateway: GatewayReply)
    requires KeysOk(s.payments) && f in s.flights
    ensures KeysOk(AdvanceFlight(s, f, s.flights[f], gateway).payments)
  {
    match s.flights[f]
    case Saving(snap, op) => CommitPaysNothing(s, snap, op);
    case InitMarking(snap, _, _) => CommitPaysNothing(s, snap, MarkPending);
    case CancelVoiding(_, _, p) => SaveKeepsKeys(s, p.(status := Void));
    case CallbackPaying(p, _, approved, txn) => SaveKeepsKeys(s, SettledPayment(p, approved, txn));
    case InitPaying(o, key, _, existing, amount, externalId) =>
      PayingKeepsKeys(s, o, key, existing, amount, externalId);
    case _ =>
  }

  /** Any interleaving: no two payments are under one key. */
  lemma {:induction false} KeysAreUnique(steps: seq<Step>)
    ensures KeysOk(RunSteps(START, steps).payments)
  {
    if steps != [] {
      var s, step := RunSteps(START, steps[..|steps| - 1]), steps[|steps| - 1];
      KeysAreUnique(steps[..|steps| - 1]);
      if step.Advance? && step.f in s.flights {
        AdvanceKeepsKeys(s, step.f, step.gateway);
      }
    }
  }

  // ---- Guards ----

  predicate NotOpen(existing: Option<PaymentRow>) {
    existing.Some? ==> existing.value.status in {Rejected, Void}
  }

  /** What the snapshots of a flight must have shown for it to get where it is. */
  predicate LetIn(flight: Flight) {
    match flight
    case Saving(snap, op) => op.Settle? || op.Restore? ==> snap.status == PaymentPending
    case CancelReading(_, _) => true
    case CancelVoiding(_, _, p) => p.status == Pending
    case InitReading(snap, _) => snap.status in {Confirmed, PaymentFailed}
    case InitMarking(snap, _, existing) => snap.status in {Confirmed, PaymentFailed} && NotOpen(existing)
    case InitAsking(_, _, previous, existing, _) => previous in {Confirmed, PaymentFailed} && NotOpen(existing)
    case InitFailed(_, previous) => previous in {Confirmed, PaymentFailed}
    case InitPaying(_, _, previous, existing, _, _) => previous in {Confirmed, PaymentFailed} && NotOpen(existing)
    case CallbackReading(p, _, _) => p.status == Pending
    case CallbackPaying(p, snap, _, _) => p.status == Pending && snap.status == PaymentPending
  }

  ghost predicate AllLetIn(flights: map<FlightId, Flight>) {
    forall f :: f in flights ==> LetIn(flights[f])
  }

  lemma AdvanceLetsIn(s: Sys, f: FlightId, gateway: GatewayReply)
    requires f in s.flights && LetIn(s.flights[f])
    ensures var flights := AdvanceFlight(s, f, s.flights[f], gateway).flights;
      OnlyMoves(f, s.flights, flights) && (f in flights ==> LetIn(flights[f]))
  {
    OthersFlyOn(s, f, gateway);
    match s.flights[f]
    case Saving(snap, op) => CommitMovesNoFlight(s, snap, op);
    case InitReading(snap, _) =>
      if PaymentOf(s.payments, snap.id).Some? {
        OpenIff(PaymentOf(s.payments, snap.id).value.status);
      }
    case InitMarking(snap, _, _) => CommitMovesNoFlight(s, snap, MarkPending);
    case CancelVoiding(_, _, p) => SaveMovesNoFlight(s, p.(status := Void));
    case CallbackPaying(p, _, approved, txn) => SaveMovesNoFlight(s, SettledPayment(p, approved, txn));
    case InitPaying(o, key, _, existing, amount, externalId) =>
      PayingMovesNoFlight(s, o, key, existing, amount, externalId);
    case _ =>
  }

  lemma OpenIff(status: PaymentStatus)
    ensures status in {Pending, Approved} <==> status !in {Rejected, Void}
  {
    match status
    case Pending =>
    case Approved =>
    case Rejected =>
    case Void =>
  }

  lemma StepLetsIn(s: Sys, step: Step)
    requires AllLetIn(s.flights)
    ensures AllLetIn(Do(s, step).flights)
  {
    if step.Advance? && step.f in s.flights {
      AdvanceLetsIn(s, step.f, step.gateway);
    }
  }

  /** Any interleaving: no use case gets past a guard. An order is marked only by an initiation that saw it payable and
      its payment not open, a verdict is written only after a PENDING payment and a PAYMENT_PENDING order were seen, and
      only a PENDING payment is voided. */
  lemma {:induction false} GuardsHold(steps: seq<Step>)
    ensures AllLetIn(RunSteps(START, steps).flights)
  {
    if steps != [] {
      GuardsHold(steps[..|steps| - 1]);
      StepLetsIn(RunSteps(START, steps[..|steps| - 1]), steps[|steps| - 1]);
    }
  }
}
