/**
 States of an order that no interleaving leads out of to PAID, whatever the replies and the crashes.
 */
module DeadEnds {
  import opened Domain
  import opened Behaviour
  import opened Interleaving
  import opened InterleavingProofs
  import opened Linearization
  import opened InterleavedPayments

  // ---- Payment rows of one order ----

  ghost predicate SamePaymentsOf(payments: map<Id, PaymentRow>, payments': map<Id, PaymentRow>, o: Id) {
    && (forall p :: p in payments && payments[p].orderId == o ==> p in payments' && payments'[p] == payments[p])
    && (forall p :: p in payments' && payments'[p].orderId == o ==> p in payments && payments'[p] == payments[p])
  }

  /** The flight is on its way to a payment row of the order. */
  predicate PaysFor(flight: Flight, o: Id) {
    match flight
    case Saving(_, _) => false
    case CancelReading(_, _) => false
    case CancelVoiding(snap, _, _) => snap.id == o
    case InitReading(snap, _) => snap.id == o
    case InitMarking(snap, _, _) => snap.id == o
    case InitAsking(x, _, _, _, _) => x == o
    case InitFailed(x, _) => x == o
    case InitPaying(x, _, _, _, _, _) => x == o
    case CallbackReading(p, _, _) => p.orderId == o
    case CallbackPaying(_, snap, _, _) => snap.id == o
  }

  /** The part of TablesOk that is needed here: rows carry their keys, and the next id is new. */
  ghost predicate OwnIds(s: Sys) {
    s.nextId !in s.payments && forall x :: x in s.orders ==> s.orders[x].id == x
  }

  lemma OverwriteElsewhere(s: Sys, p: PaymentRow, o: Id)
    requires p.id in s.payments && s.payments[p.id].orderId != o
    ensures SavePaymentRow(s, p).Some? && SamePaymentsOf(s.payments, SavePaymentRow(s, p).value.payments, o)
  {
  }

  lemma PayingElsewhere(s: Sys, x: Id, key: Option<string>, existing: Option<PaymentRow>, amount: nat,
                        externalId: string, o: Id)
    requires s.nextId !in s.payments && x != o
    requires existing.Some? ==> existing.value.id in s.payments && s.payments[existing.value.id].orderId != o
    ensures var r := PayFor(s, x, key, existing, amount, externalId);
      r.Some? ==> SamePaymentsOf(s.payments, r.value.payments, o)
  {
    if existing.Some? && existing.value.status == Rejected {
      OverwriteElsewhere(s, existing.value.(status := Pending, externalReference := Some(externalId)), o);
    }
  }

  /** Only flights on their way to a payment row of the order write one. */
  lemma OthersPayElsewhere(s: Sys, f: FlightId, gateway: GatewayReply, o: Id)
    requires OwnIds(s) && f in s.flights && FlightOk(s.orders, s.payments, s.flights[f]) && !PaysFor(s.flights[f], o)
    ensures SamePaymentsOf(s.payments, AdvanceFlight(s, f, s.flights[f], gateway).payments, o)
  {
    match s.flights[f]
    case Saving(snap, op) => CommitPaysNothing(s, snap, op);
    case InitMarking(snap, _, _) => CommitPaysNothing(s, snap, MarkPending);
    case CancelVoiding(_, _, p) => OverwriteElsewhere(s, p.(status := Void), o);
    case CallbackPaying(p, _, approved, txn) => OverwriteElsewhere(s, SettledPayment(p, approved, txn), o);
    case InitPaying(x, key, _, existing, amount, externalId) =>
      PayingElsewhere(s, x, key, existing, amount, externalId, o);
    case _ =>
  }

  // ---- Orders that nothing can settle any more ----

  /** The flight neither pays for the order nor settles or restores it. */
  predicate Harmless(flight: Flight, o: Id) {
    && !PaysFor(flight, o)
    && (flight.Saving? && flight.snap.id == o ==> !flight.op.Restore? && !flight.op.Settle?)
  }

  /** Marked or final, with no payment row PENDING, and nobody is left to settle, restore or pay. */
  ghost predicate Closed(s: Sys, o: Id) {
    && o in s.orders && s.orders[o].status in {PaymentPending, Paid, Cancelled}
    && (forall p :: p in s.payments && s.payments[p].orderId == o ==> s.payments[p].status != Pending)
    && forall f :: f in s.flights ==> Harmless(s.flights[f], o)
  }

  /** All that can become of such an order: nothing, or it is cancelled. */
  ghost predicate OnlyCancelled(s: Sys, s': Sys, o: Id) {
    && o in s.orders && o in s'.orders
    && SamePaymentsOf(s.payments, s'.payments, o)
    && (s'.orders[o] == s.orders[o]
        || (s.orders[o].status == PaymentPending
            && s'.orders[o] == Bump(s.orders[o]).(status := Cancelled, reason := s'.orders[o].reason)))
  }

  lemma ClosedFlight(s: Sys, f: FlightId, gateway: GatewayReply, o: Id)
    requires OwnIds(s) && Closed(s, o) && f in s.flights && FlightOk(s.orders, s.payments, s.flights[f])
    requires Committing(s, Advance(f, gateway)).None?
    ensures var s' := AdvanceFlight(s, f, s.flights[f], gateway); f in s'.flights ==> Harmless(s'.flights[f], o)
  {
    assert Harmless(s.flights[f], o);
    match s.flights[f]
    case CancelVoiding(_, _, p) => SaveMovesNoFlight(s, p.(status := Void));
    case CallbackPaying(p, _, approved, txn) => SaveMovesNoFlight(s, SettledPayment(p, approved, txn));
    case InitPaying(x, key, _, existing, amount, externalId) =>
      PayingMovesNoFlight(s, x, key, existing, amount, externalId);
    case _ =>
  }

  lemma ClosedFlights(s: Sys, f: FlightId, gateway: GatewayReply, o: Id)
    requires OwnIds(s) && Closed(s, o) && f in s.flights && FlightOk(s.orders, s.payments, s.flights[f])
    requires Committing(s, Advance(f, gateway)).None?
    ensures var s' := AdvanceFlight(s, f, s.flights[f], gateway);
      forall g :: g in s'.flights ==> Harmless(s'.flights[g], o)
  {
    OthersFlyOn(s, f, gateway);
    ClosedFlight(s, f, gateway, o);
  }

  lemma ClosedFlightStays(s: Sys, f: FlightId, gateway: GatewayReply, o: Id)
    requires SysInv(s) && Closed(s, o) && f in s.flights && Committing(s, Advance(f, gateway)).None?
    ensures var s' := AdvanceFlight(s, f, s.flights[f], gateway); Closed(s', o) && OnlyCancelled(s, s', o)
  {
    OtherAdvancesWriteNoRow(s, f, gateway);
    assert OwnIds(s) && FlightOk(s.orders, s.payments, s.flights[f]);
    OthersPayElsewhere(s, f, gateway, o);
    ClosedFlights(s, f, gateway, o);
  }

  lemma ClosedRowStays(row: OrderRow, op: DomainOp)
    requires row.status in {PaymentPending, Paid, Cancelled} && Perform(op, row).Ok? && !op.Restore? && !op.Settle?
    ensures row.status == PaymentPending && op.CancelFor?
    ensures Perform(op, row).value == Bump(row).(status := Cancelled, reason := op.reason)
  {
  }

  lemma ClosedCommitStays(s: Sys, step: Step, o: Id)
    requires SysInv(s) && Closed(s, o) && Committing(s, step).Some?
    ensures Closed(Do(s, step), o) && OnlyCancelled(s, Do(s, step), o)
  {
    CommitIsOnCurrentRow(s, step);
    CommitFlights(s, step);
    assert Harmless(s.flights[step.f], o);
    var e := Committing(s, step).value;
    if e.orderId == o {
      ClosedRowStays(s.orders[o], e.op);
    }
  }

  lemma ClosedBeginStays(s: Sys, f: FlightId, call: Call, o: Id)
    requires OwnIds(s) && Closed(s, o)
    ensures Closed(BeginCall(s, f, call), o) && OnlyCancelled(s, BeginCall(s, f, call), o)
  {
    var s' := BeginCall(s, f, call);
    assert f in s'.flights && s' != s ==> Harmless(s'.flights[f], o);
  }

  lemma ClosedStepStays(s: Sys, step: Step, o: Id)
    requires SysInv(s) && Closed(s, o)
    ensures Closed(Do(s, step), o) && OnlyCancelled(s, Do(s, step), o)
  {
    if Committing(s, step).Some? {
      ClosedCommitStays(s, step, o);
    } else if step.Advance? && step.f in s.flights {
      ClosedFlightStays(s, step.f, step.gateway, o);
    } else if step.Begin? {
      ClosedBeginStays(s, step.f, step.call, o);
    }
  }

  /** Whatever is run from there, with any replies and crashes: no payment row of the order changes, and the order
      stays as it is or, if it is PAYMENT_PENDING, is cancelled. */
  lemma {:induction false} ClosedOrdersStay(s: Sys, steps: seq<Step>, o: Id)
    requires SysInv(s) && Closed(s, o)
    ensures OnlyCancelled(s, RunSteps(s, steps), o)
    ensures Closed(RunSteps(s, steps), o) && SysInv(RunSteps(s, steps))
  {
    if steps != [] {
      var init := steps[..|steps| - 1];
      ClosedOrdersStay(s, init, o);
      DoKeeps(RunSteps(s, init), steps[|steps| - 1]);
      ClosedStepStays(RunSteps(s, init), steps[|steps| - 1], o);
    }
  }

  // ---- Orders whose payment is used up ----

  /** The payment row read is one that no initiation reopens. */
  predicate NotReopened(existing: Option<PaymentRow>) { existing.Some? && existing.value.status != Rejected }

  /** The flight carries no verdict on the order and would not reopen its payment. */
  predicate Blunt(flight: Flight, o: Id) {
    match flight
    case Saving(snap, op) => snap.id == o ==> !op.Settle?
    case CancelReading(_, _) => true
    case CancelVoiding(snap, _, _) => snap.id != o
    case InitReading(_, _) => true
    case InitMarking(snap, _, existing) => snap.id == o ==> NotReopened(existing)
    case InitAsking(x, _, _, existing, _) => x == o ==> NotReopened(existing)
    case InitFailed(_, _) => true
    case InitPaying(x, _, _, existing, _, _) => x == o ==> NotReopened(existing)
    case CallbackReading(p, _, _) => p.orderId != o
    case CallbackPaying(_, snap, _, _) => snap.id != o
  }

  /** APPROVED or VOID already, while the order is not PAID. */
  ghost predicate Spent(s: Sys, o: Id) {
    && o in s.orders && s.orders[o].status in {PaymentPending, PaymentFailed, Cancelled}
    && HasPayment(s.payments, o)
    && (forall p :: p in s.payments && s.payments[p].orderId == o ==> s.payments[p].status in {Approved, Void})
    && forall f :: f in s.flights ==> Blunt(s.flights[f], o)
  }

  lemma SpentFlight(s: Sys, f: FlightId, gateway: GatewayReply, o: Id)
    requires OwnIds(s) && Spent(s, o) && f in s.flights && FlightOk(s.orders, s.payments, s.flights[f])
    requires Committing(s, Advance(f, gateway)).None?
    ensures var s' := AdvanceFlight(s, f, s.flights[f], gateway); f in s'.flights ==> Blunt(s'.flights[f], o)
  {
    assert Blunt(s.flights[f], o);
    match s.flights[f]
    case CancelVoiding(_, _, p) => SaveMovesNoFlight(s, p.(status := Void));
    case CallbackPaying(p, _, approved, txn) => SaveMovesNoFlight(s, SettledPayment(p, approved, txn));
    case InitPaying(x, key, _, existing, amount, externalId) =>
      PayingMovesNoFlight(s, x, key, existing, amount, externalId);
    case _ =>
  }

  lemma SpentFlights(s: Sys, f: FlightId, gateway: GatewayReply, o: Id)
    requires OwnIds(s) && Spent(s, o) && f in s.flights && FlightOk(s.orders, s.payments, s.flights[f])
    requires Committing(s, Advance(f, gateway)).None?
    ensures var s' := AdvanceFlight(s, f, s.flights[f], gateway);
      forall g :: g in s'.flights ==> Blunt(s'.flights[g], o)
  {
    OthersFlyOn(s, f, gateway);
    SpentFlight(s, f, gateway, o);
  }

  /** A second payment of the order is refused, and the first is not reopened. */
  lemma SpentPaysNothing(s: Sys, f: FlightId, gateway: GatewayReply, o: Id)
    requires OwnIds(s) && Spent(s, o)
    requires f in s.flights && FlightOk(s.orders, s.payments, s.flights[f])
    requires Committing(s, Advance(f, gateway)).None?
    ensures SamePaymentsOf(s.payments, AdvanceFlight(s, f, s.flights[f], gateway).payments, o)
  {
    assert Blunt(s.flights[f], o);
    if !PaysFor(s.flights[f], o) {
      OthersPayElsewhere(s, f, gateway, o);
    }
  }

  lemma SamePaymentsSpent(s: Sys, s': Sys, o: Id)
    requires Spent(s, o) && SamePaymentsOf(s.payments, s'.payments, o)
    ensures HasPayment(s'.payments, o)
    ensures forall p :: p in s'.payments && s'.payments[p].orderId == o ==> s'.payments[p].status in {Approved, Void}
  {
    var p :| p in s.payments && s.payments[p].orderId == o;
    assert s'.payments[p].orderId == o;
  }

  lemma SpentFlightStays(s: Sys, f: FlightId, gateway: GatewayReply, o: Id)
    requires OwnIds(s) && Spent(s, o)
    requires f in s.flights && FlightOk(s.orders, s.payments, s.flights[f])
    requires Committing(s, Advance(f, gateway)).None?
    ensures Spent(AdvanceFlight(s, f, s.flights[f], gateway), o)
  {
    OtherAdvancesWriteNoRow(s, f, gateway);
    SpentPaysNothing(s, f, gateway, o);
    SamePaymentsSpent(s, AdvanceFlight(s, f, s.flights[f], gateway), o);
    SpentFlights(s, f, gateway, o);
  }

  lemma SpentCommitStays(s: Sys, step: Step, o: Id)
    requires SysInv(s) && Spent(s, o) && Committing(s, step).Some?
    ensures Spent(Do(s, step), o)
  {
    CommitIsOnCurrentRow(s, step);
    CommitFlights(s, step);
    assert Blunt(s.flights[step.f], o) && FlightOk(s.orders, s.payments, s.flights[step.f]);
    assert Committing(s, step).value.op.Restore? ==> s.flights[step.f].Saving?;
  }

  lemma SpentBeginStays(s: Sys, f: FlightId, call: Call, o: Id)
    requires OwnIds(s) && Spent(s, o)
    ensures Spent(BeginCall(s, f, call), o)
  {
    var s' := BeginCall(s, f, call);
    assert f in s'.flights && s' != s ==> Blunt(s'.flights[f], o);
  }

  lemma SpentStepStays(s: Sys, step: Step, o: Id)
    requires SysInv(s) && Spent(s, o)
    ensures Spent(Do(s, step), o)
  {
    if Committing(s, step).Some? {
      SpentCommitStays(s, step, o);
    } else if step.Advance? && step.f in s.flights {
      assert OwnIds(s) && FlightOk(s.orders, s.payments, s.flights[step.f]);
      SpentFlightStays(s, step.f, step.gateway, o);
    } else if step.Begin? {
      SpentBeginStays(s, step.f, step.call, o);
    }
  }

  lemma {:induction false} SpentOrdersAreNeverPaid(s: Sys, steps: seq<Step>, o: Id)
    requires SysInv(s) && Spent(s, o)
    ensures Spent(RunSteps(s, steps), o) && SysInv(RunSteps(s, steps))
  {
    if steps != [] {
      var init := steps[..|steps| - 1];
      SpentOrdersAreNeverPaid(s, init, o);
      DoKeeps(RunSteps(s, init), steps[|steps| - 1]);
      SpentStepStays(RunSteps(s, init), steps[|steps| - 1], o);
    }
  }
}
