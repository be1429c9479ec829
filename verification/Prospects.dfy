/**
 What can still become of an order, told by its two rows while nothing is in flight: exactly when it can still be
 paid, and exactly when its rows can still come to disagree. Each answer is for all interleavings, gateway replies and
 crashes; the runs that show what is possible need no crash.
 */
module Prospects {
  import opened Domain
  import opened Store
  import opened Behaviour
  import opened Invariant
  import opened Interleaving
  import opened InterleavingProofs
  import opened Linearization
  import opened InterleavedPayments
  import opened DeadEnds
  import opened SerialAsInterleaving
  import Limits

  /** Nothing is in flight, and order and payment rows are as every interleaving keeps them. */
  ghost predicate Quiet(s: Sys, o: Id) {
    SysInv(s) && PaymentsOk(s) && s.flights == map[] && o in s.orders
  }

  lemma {:induction false} RunStaysSound(s: Sys, steps: seq<Step>, o: Id)
    requires SysInv(s) && PaymentsOk(s) && o in s.orders
    ensures var s' := RunSteps(s, steps); SysInv(s') && PaymentsOk(s') && o in s'.orders
  {
    if steps != [] {
      var mid, step := RunSteps(s, steps[..|steps| - 1]), steps[|steps| - 1];
      RunStaysSound(s, steps[..|steps| - 1], o);
      DoKeeps(mid, step);
      StepKeepsPayments(mid, step);
      OneStepLater(mid, step, o);
    }
  }

  lemma ReachesQuiet(s: Sys, s': Sys, o: Id)
    requires Quiet(s, o) && MayReach(s, s') && s'.flights == map[]
    ensures Quiet(s', o)
  {
    var steps :| RunSteps(s, steps) == s';
    RunStaysSound(s, steps, o);
  }

  lemma ReachesIsMayReach(s: Sys, s': Sys)
    requires Reaches(s, s')
    ensures MayReach(s, s')
  {
  }

  /** The order has a payment row with the status; there is at most one row. */
  ghost predicate PaymentIs(s: Sys, o: Id, status: PaymentStatus) {
    exists p :: p in s.payments && s.payments[p].orderId == o && s.payments[p].status == status
  }

  lemma ThePayment(s: Sys, o: Id, status: PaymentStatus) returns (p: PaymentRow)
    requires Quiet(s, o) && PaymentIs(s, o, status)
    ensures p.id in s.payments && s.payments[p.id] == p && p.orderId == o && p.status == status
    ensures forall q :: q in s.payments && s.payments[q].orderId == o ==> q == p.id
    ensures PaymentOf(s.payments, o) == Some(p)
  {
    var k :| k in s.payments && s.payments[k].orderId == o && s.payments[k].status == status;
    p := s.payments[k];
  }

  // ---- A cancellation overtakes a callback ----

  /** A callback up to its own save of the order: the payment is APPROVED already. */
  lemma ApproveUpToSave(s: Sys, o: OrderRow, p: PaymentRow) returns (s': Sys)
    requires s.flights == map[] && Current(s, o) && o.status == PaymentPending
    requires p.id in s.payments && s.payments[p.id] == p && p.orderId == o.id && p.status == Pending
    ensures Reaches(s, s') && Alone(s', Saving(o, Settle(true))) && s'.orders == s.orders
    ensures s'.payments == s.payments[p.id := p.(status := Approved, externalReference := Some("t"))]
  {
    var begin := Begin(0, CallbackCall(p.id, true, "t"));
    Stays(s);
    Then(s, s, begin);
    var s1 := Do(s, begin);
    assert Alone(s1, CallbackReading(p, true, "t")) && SameTables(s, s1);
    Then(s, s1, GO);
    var s2 := Do(s1, GO);
    assert Alone(s2, CallbackPaying(p, o, true, "t")) && SameTables(s, s2);
    PayAlone(s2, p, o, true, "t");
    Then(s, s2, GO);
    s' := Do(s2, GO);
  }

  lemma LateSaveIsRefused(s: Sys, snap: OrderRow, op: DomainOp)
    requires Alone(s, Saving(snap, op)) && snap.id in s.orders && s.orders[snap.id].version > snap.version
    requires Perform(op, snap).Ok? && Perform(op, snap).value.id == snap.id
    requires Perform(op, snap).value.version == snap.version + 1
    ensures SameTables(s, Do(s, GO)) && Do(s, GO).flights == map[]
  {
  }

  /** From any quiet state with an order awaiting its verdict: the callback commits APPROVED, the cancellation
      overtakes it, and the callback's own save of the order is refused. */
  lemma RaceSplitsRows(s: Sys, o: OrderRow, p: PaymentRow) returns (s': Sys)
    requires s.flights == map[] && Current(s, o) && o.status == PaymentPending
    requires p.id in s.payments && s.payments[p.id] == p && p.orderId == o.id && p.status == Pending
    requires forall q :: q in s.payments && s.payments[q].orderId == o.id ==> q == p.id
    ensures Reaches(s, s') && s'.flights == map[]
    ensures s'.orders == s.orders[o.id := Bump(o).(status := Cancelled, reason := None)]
    ensures s'.payments == s.payments[p.id := p.(status := Approved, externalReference := Some("t"))]
  {
    var s1 := ApproveUpToSave(s, o, p);
    assert s1.payments[p.id].orderId == o.id;
    var s2 := Overtake(s1, o, Saving(o, Settle(true)));
    ReachesOn(s, s1, s2);
    LateSaveIsRefused(s2, o, Settle(true));
    Then(s, s2, GO);
    s' := Do(s2, GO);
  }

  /** A whole cancellation while flight 0 waits; it finds no payment to void. */
  lemma Overtake(s: Sys, o: OrderRow, waiting: Flight) returns (s': Sys)
    requires Alone(s, waiting) && Current(s, o) && o.status == PaymentPending
    requires var p := PaymentOf(s.payments, o.id); p.Some? ==> p.value.status != Pending
    ensures Reaches(s, s') && Alone(s', waiting) && s'.payments == s.payments && s'.nextId == s.nextId
    ensures s'.orders == s.orders[o.id := Bump(o).(status := Cancelled, reason := None)]
  {
    var begin, go := Begin(1, CancelCall(o.id, None)), Advance(1, GatewayError);
    Stays(s);
    Then(s, s, begin);
    var s1 := Do(s, begin);
    assert s1.flights == map[0 := waiting, 1 := CancelReading(o, None)] && SameTables(s, s1);
    Then(s, s1, go);
    var s2 := Do(s1, go);
    assert s2.flights == map[0 := waiting, 1 := Saving(o, CancelFor(None))] && SameTables(s, s2);
    CancelBeside(s2, o, waiting);
    Then(s, s2, go);
    s' := Do(s2, go);
  }

  lemma CancelBeside(s: Sys, o: OrderRow, waiting: Flight)
    requires s.flights == map[0 := waiting, 1 := Saving(o, CancelFor(None))] && Current(s, o)
    requires o.status == PaymentPending
    ensures var s' := Do(s, Advance(1, GatewayError));
      && s'.orders == s.orders[o.id := Bump(o).(status := Cancelled, reason := None)]
      && Alone(s', waiting) && s'.payments == s.payments && s'.nextId == s.nextId
  {
  }

  // ---- The way to a verdict ----

  /** An item, if there is none yet. */
  lemma DraftGetsItem(s: Sys, o: Id) returns (s': Sys)
    requires Quiet(s, o) && s.orders[o].status == Draft
    ensures Reaches(s, s') && Quiet(s', o) && s'.orders[o].status == Draft && s'.orders[o].items != []
  {
    if s.orders[o].items == [] {
      s' := EditAlone(s, s.orders[o], Add("p", 1, 0));
      ReachesIsMayReach(s, s');
      ReachesQuiet(s, s', o);
    } else {
      Stays(s);
      s' := s;
    }
  }

  /** Prices for all products of the order. */
  lemma DraftIsConfirmed(s: Sys, o: Id) returns (s': Sys)
    requires Quiet(s, o) && s.orders[o].status == Draft && s.orders[o].items != []
    ensures Reaches(s, s') && Quiet(s', o) && s'.orders[o].status == Confirmed
  {
    var items := s.orders[o].items;
    var prices := map i | 0 <= i < |items| :: items[i].productId := 1;
    assert AllPriced(items, prices);
    NoFaultIffAllPriced(items, prices);
    s' := EditAlone(s, s.orders[o], ConfirmAt(prices));
    ReachesIsMayReach(s, s');
    ReachesQuiet(s, s', o);
  }

  /** An accepted initiation. */
  lemma PayableIsMarked(s: Sys, o: Id) returns (s': Sys)
    requires Quiet(s, o)
    requires s.orders[o].status == Confirmed || (s.orders[o].status == PaymentFailed && PaymentIs(s, o, Rejected))
    ensures Reaches(s, s') && Quiet(s', o) && s'.orders[o].status == PaymentPending && PaymentIs(s', o, Pending)
    ensures s'.orders[o].attempts == s.orders[o].attempts
  {
    if s.orders[o].status == PaymentFailed {
      var rejected := ThePayment(s, o, Rejected);
    } else {
      assert PaymentOf(s.payments, o).None?;
    }
    var db := Db(s.orders, s.payments, map[], map[], [], s.nextId);
    s' := AcceptedAlone(s, db, s.orders[o], None, "x");
    var p := OpenedPayment(db, MarkPaymentPending(Bump(s.orders[o])).value, None, "x");
    assert p.id in s'.payments && s'.payments[p.id].orderId == o && s'.payments[p.id].status == Pending;
    ReachesIsMayReach(s, s');
    ReachesQuiet(s, s', o);
  }

  /** The order can be brought to await a verdict. */
  ghost predicate CanAwait(s: Sys, o: Id)
    requires o in s.orders
  {
    || s.orders[o].status in {Draft, Confirmed}
    || (s.orders[o].status == PaymentPending && PaymentIs(s, o, Pending))
    || (s.orders[o].status == PaymentFailed && PaymentIs(s, o, Rejected))
  }

  lemma ToVerdict(s: Sys, o: Id) returns (s': Sys)
    requires Quiet(s, o) && CanAwait(s, o)
    ensures Reaches(s, s') && Quiet(s', o) && s'.orders[o].status == PaymentPending && PaymentIs(s', o, Pending)
  {
    Stays(s);
    s' := s;
    if s.orders[o].status == Draft {
      var full := DraftGetsItem(s, o);
      s' := DraftIsConfirmed(full, o);
      ReachesOn(s, full, s');
    }
    if s'.orders[o].status != PaymentPending {
      var marked := PayableIsMarked(s', o);
      ReachesOn(s, s', marked);
      s' := marked;
    }
  }

  // ---- A callback that outlives its payment ----

  /** A callback reads the payment PENDING; a cancellation voids the payment and does not get to its save. */
  lemma VoidUnderCallback(s: Sys, o: OrderRow, p: PaymentRow) returns (s': Sys)
    requires s.flights == map[] && Current(s, o)
    requires p.id in s.payments && s.payments[p.id] == p && p.status == Pending
    requires PaymentOf(s.payments, o.id) == Some(p)
    ensures Reaches(s, s') && s'.orders == s.orders && s'.payments == s.payments[p.id := p.(status := Void)]
    ensures s'.flights == map[0 := CallbackReading(p, true, "t"), 1 := Saving(o, CancelFor(None))]
  {
    var go := Advance(1, GatewayError);
    Stays(s);
    Then(s, s, Begin(0, CallbackCall(p.id, true, "t")));
    var s1 := Do(s, Begin(0, CallbackCall(p.id, true, "t")));
    assert Alone(s1, CallbackReading(p, true, "t")) && SameTables(s, s1);
    Then(s, s1, Begin(1, CancelCall(o.id, None)));
    var s2 := Do(s1, Begin(1, CancelCall(o.id, None)));
    assert s2.flights == map[0 := CallbackReading(p, true, "t"), 1 := CancelReading(o, None)] && SameTables(s, s2);
    Then(s, s2, go);
    var s3 := Do(s2, go);
    assert s3.flights == map[0 := CallbackReading(p, true, "t"), 1 := CancelVoiding(o, None, p)] && SameTables(s, s3);
    Then(s, s3, go);
    s' := Do(s3, go);
  }

  lemma MarkBeside(s: Sys, o: OrderRow, p: PaymentRow)
    requires 0 in s.flights && 2 in s.flights && s.flights[2] == InitMarking(o, None, Some(p))
    requires Current(s, o) && o.status == PaymentFailed
    ensures var s' := Do(s, Advance(2, GatewayError));
      && s'.orders == s.orders[o.id := Bump(o).(status := PaymentPending)] && s'.payments == s.payments
      && 0 in s'.flights && s'.flights[0] == s.flights[0]
  {
  }

  /** An initiation of a failed order, up to the save that marks it, beside whatever else is in flight. */
  lemma AboutToMark(s: Sys, f: FlightId, o: OrderRow, p: PaymentRow) returns (s': Sys)
    requires f !in s.flights && Current(s, o) && o.status == PaymentFailed
    requires PaymentOf(s.payments, o.id) == Some(p) && p.status in {Rejected, Void}
    ensures Reaches(s, s') && SameTables(s, s') && s'.flights == s.flights[f := InitMarking(o, None, Some(p))]
  {
    var begin, go := Begin(f, InitiateCall(o.id, None)), Advance(f, GatewayError);
    Stays(s);
    Then(s, s, begin);
    var s1 := Do(s, begin);
    assert s1.flights == s.flights[f := InitReading(o, None)] && SameTables(s, s1);
    Then(s, s1, go);
    s' := Do(s1, go);
  }

  /** An initiation finds the payment VOID and marks the order. */
  lemma MarkUnderCallback(s: Sys, o: OrderRow, p: PaymentRow) returns (s': Sys)
    requires 0 in s.flights && 2 !in s.flights && Current(s, o) && o.status == PaymentFailed
    requires PaymentOf(s.payments, o.id) == Some(p) && p.status == Void
    ensures Reaches(s, s') && s'.orders == s.orders[o.id := Bump(o).(status := PaymentPending)]
    ensures s'.payments == s.payments
    ensures 0 in s'.flights && s'.flights[0] == s.flights[0]
  {
    var s1 := AboutToMark(s, 2, o, p);
    MarkBeside(s1, o, p);
    Then(s, s1, Advance(2, GatewayError));
    s' := Do(s1, Advance(2, GatewayError));
  }

  /** The row that a payment save leaves: status and reference are overwritten. */
  ghost function Overwritten(payments: map<Id, PaymentRow>, p: PaymentRow): map<Id, PaymentRow>
    requires p.id in payments
  {
    payments[p.id := payments[p.id].(status := p.status, externalReference := p.externalReference)]
  }

  /** A callback that has read the payment, whatever became of that since, meets an order that takes its verdict. */
  lemma SettleFrom(s: Sys, f: FlightId, o: OrderRow, p: PaymentRow, approved: bool) returns (s': Sys)
    requires f in s.flights && s.flights[f] == CallbackReading(p, approved, "t")
    requires Current(s, o) && o.status == PaymentPending && p.orderId == o.id && p.id in s.payments
    ensures Reaches(s, s') && s'.orders == s.orders[o.id := Verdict(Bump(o), approved).value]
    ensures s'.flights == s.flights - {f} && s'.nextId == s.nextId
    ensures s'.payments == Overwritten(s.payments, SettledPayment(p, approved, "t"))
  {
    var go := Advance(f, GatewayError);
    Stays(s);
    Then(s, s, go);
    var s1 := Do(s, go);
    assert s1.flights == s.flights[f := CallbackPaying(p, o, approved, "t")] && SameTables(s, s1);
    Then(s, s1, go);
    PayFrom(s1, f, o, p, approved);
    var s2 := Do(s1, go);
    SaveFrom(s2, f, o, approved);
    Then(s, s2, go);
    s' := Do(s2, go);
  }

  lemma PayFrom(s: Sys, f: FlightId, o: OrderRow, p: PaymentRow, approved: bool)
    requires f in s.flights && s.flights[f] == CallbackPaying(p, o, approved, "t") && p.id in s.payments
    ensures var s' := Do(s, Advance(f, GatewayError));
      && s'.orders == s.orders && s'.flights == s.flights[f := Saving(o, Settle(approved))] && s'.nextId == s.nextId
      && s'.payments == Overwritten(s.payments, SettledPayment(p, approved, "t"))
  {
  }

  lemma SaveFrom(s: Sys, f: FlightId, o: OrderRow, approved: bool)
    requires f in s.flights && s.flights[f] == Saving(o, Settle(approved))
    requires Current(s, o) && o.status == PaymentPending
    ensures var s' := Do(s, Advance(f, GatewayError));
      && s'.orders == s.orders[o.id := Verdict(Bump(o), approved).value] && s'.flights == s.flights - {f}
      && s'.payments == s.payments && s'.nextId == s.nextId
  {
  }

  lemma OpenFailedIsPaid(s: Sys, o: Id) returns (s': Sys)
    requires Quiet(s, o) && s.orders[o].status == PaymentFailed && PaymentIs(s, o, Pending)
    ensures Reaches(s, s') && o in s'.orders && s'.orders[o].status == Paid
  {
    var row := s.orders[o];
    var p := ThePayment(s, o, Pending);
    var s1 := VoidUnderCallback(s, row, p);
    assert s1.payments[p.id].orderId == o;
    assert PaymentOf(s1.payments, o) == Some(p.(status := Void));
    var s2 := MarkUnderCallback(s1, row, p.(status := Void));
    ReachesOn(s, s1, s2);
    s' := SettleFrom(s2, 0, Bump(row).(status := PaymentPending), p, true);
    ReachesOn(s, s2, s');
  }

  // ---- Exactly when an order can still be paid ----

  ghost predicate PaidIn(s: Sys, o: Id) { o in s.orders && s.orders[o].status == Paid }

  /** Read off the two rows. PAYMENT_FAILED with a PENDING payment is no serial state; a callback that started in time
      can still settle it. */
  ghost predicate StillPayable(s: Sys, o: Id)
    requires o in s.orders
  {
    match s.orders[o].status
    case Draft => true
    case Confirmed => true
    case PaymentPending => PaymentIs(s, o, Pending)
    case PaymentFailed => PaymentIs(s, o, Rejected) || PaymentIs(s, o, Pending)
    case Paid => true
    case Cancelled => false
  }

  lemma PayableIsPaid(s: Sys, o: Id) returns (s': Sys)
    requires Quiet(s, o) && StillPayable(s, o)
    ensures Reaches(s, s') && PaidIn(s', o)
  {
    if s.orders[o].status == Paid {
      Stays(s);
      s' := s;
    } else if CanAwait(s, o) {
      var waiting := ToVerdict(s, o);
      var p := ThePayment(waiting, o, Pending);
      s' := CallbackAlone(waiting, p, waiting.orders[o], true, "t");
      ReachesOn(s, waiting, s');
    } else {
      s' := OpenFailedIsPaid(s, o);
    }
  }

  lemma NotPayableIsNeverPaid(s: Sys, o: Id, steps: seq<Step>)
    requires Quiet(s, o) && !StillPayable(s, o)
    ensures !PaidIn(RunSteps(s, steps), o)
  {
    if s.orders[o].status == PaymentFailed {
      assert VerdictHasPayment(s.orders[o], s.payments);
      SpentOrdersAreNeverPaid(s, steps, o);
    } else if s.orders[o].status == Cancelled {
      RowsOnlyMoveOn(s, steps);
    } else {
      ClosedOrdersStay(s, steps, o);
    }
  }

  /** From any quiet state: some interleaving pays the order, exactly if its two rows allow it. */
  lemma CanBePaidIff(s: Sys, o: Id)
    requires Quiet(s, o)
    ensures (exists s' :: MayReach(s, s') && PaidIn(s', o)) <==> StillPayable(s, o)
    ensures StillPayable(s, o) ==> exists s' :: Reaches(s, s') && PaidIn(s', o)
  {
    if StillPayable(s, o) {
      var s' := PayableIsPaid(s, o);
      ReachesIsMayReach(s, s');
    } else {
      forall s' | MayReach(s, s') ensures !PaidIn(s', o) {
        var steps :| RunSteps(s, steps) == s';
        NotPayableIsNeverPaid(s, o, steps);
      }
    }
  }

  // ---- Exactly when the two rows can come to disagree ----

  ghost predicate RowsCoupled(s: Sys, o: Id)
    requires o in s.orders
  {
    Coupled(LifeOfRows(s.orders[o], PaymentOf(s.payments, o)))
  }

  /** Nothing is in flight any more, and the rows disagree. */
  ghost predicate SplitIn(s: Sys, o: Id) {
    s.flights == map[] && o in s.orders && !RowsCoupled(s, o)
  }

  lemma CoupledCanAwait(s: Sys, o: Id)
    requires o in s.orders && RowsCoupled(s, o) && s.orders[o].status !in {Paid, Cancelled}
    ensures CanAwait(s, o)
  {
    if s.orders[o].status in {PaymentPending, PaymentFailed} {
      var p :| p in s.payments && s.payments[p] == PaymentOf(s.payments, o).value;
      assert s.payments[p].orderId == o;
    }
  }

  lemma WaitingOrderSplits(s: Sys, o: Id) returns (s': Sys)
    requires Quiet(s, o) && s.orders[o].status == PaymentPending && PaymentIs(s, o, Pending)
    ensures Reaches(s, s') && SplitIn(s', o)
  {
    var p := ThePayment(s, o, Pending);
    s' := RaceSplitsRows(s, s.orders[o], p);
    assert s'.payments[p.id].orderId == o && s'.payments[p.id].status == Approved;
    assert PaymentOf(s'.payments, o) == Some(s'.payments[p.id]);
  }

  lemma LiveOrdersSplit(s: Sys, o: Id) returns (s': Sys)
    requires Quiet(s, o) && RowsCoupled(s, o) && s.orders[o].status !in {Paid, Cancelled}
    ensures Reaches(s, s') && SplitIn(s', o)
  {
    CoupledCanAwait(s, o);
    var waiting := ToVerdict(s, o);
    s' := WaitingOrderSplits(waiting, o);
    ReachesOn(s, waiting, s');
  }

  lemma SamePaymentOf(s: Sys, s': Sys, o: Id)
    requires PaymentsOk(s') && SamePaymentsOf(s.payments, s'.payments, o)
    ensures PaymentOf(s'.payments, o) == PaymentOf(s.payments, o)
  {
    if PaymentOf(s.payments, o).Some? {
      var p :| p in s.payments && s.payments[p] == PaymentOf(s.payments, o).value;
      assert s'.payments[p] == s.payments[p];
    }
  }

  /** No interleaving, no reply and no crash changes the rows of an order that is PAID or CANCELLED. */
  lemma FinalRowsStay(s: Sys, o: Id, steps: seq<Step>)
    requires Quiet(s, o) && RowsCoupled(s, o) && s.orders[o].status in {Paid, Cancelled}
    ensures var s' := RunSteps(s, steps);
      o in s'.orders && s'.orders[o] == s.orders[o] && PaymentOf(s'.payments, o) == PaymentOf(s.payments, o)
  {
    forall p | p in s.payments && s.payments[p].orderId == o ensures s.payments[p].status != Pending {
      assert PaymentOf(s.payments, o) == Some(s.payments[p]);
    }
    ClosedOrdersStay(s, steps, o);
    RunStaysSound(s, steps, o);
    SamePaymentOf(s, RunSteps(s, steps), o);
  }

  /** From any quiet state in which the rows agree: some interleaving ends with rows that disagree, exactly if the
      order is not final. */
  lemma RowsCanSplitIff(s: Sys, o: Id)
    requires Quiet(s, o) && RowsCoupled(s, o)
    ensures (exists s' :: MayReach(s, s') && SplitIn(s', o)) <==> s.orders[o].status !in {Paid, Cancelled}
    ensures s.orders[o].status !in {Paid, Cancelled} ==> exists s' :: Reaches(s, s') && SplitIn(s', o)
  {
    if s.orders[o].status !in {Paid, Cancelled} {
      var s' := LiveOrdersSplit(s, o);
      ReachesIsMayReach(s, s');
    } else {
      forall s' | MayReach(s, s') ensures !SplitIn(s', o) {
        var steps :| RunSteps(s, steps) == s';
        FinalRowsStay(s, o, steps);
      }
    }
  }

  /** So the coupling of serial runs is not an invariant of interleavings: the same, from the very start. */
  lemma CouplingIsSerialOnly() returns (s: Sys)
    ensures Reaches(START, s) && s.flights == map[]
    ensures 0 in s.orders && s.orders[0].status == Cancelled
    ensures PaymentOf(s.payments, 0).Some? && PaymentOf(s.payments, 0).value.status == Approved
    ensures !Coupled(LifeOfRows(s.orders[0], PaymentOf(s.payments, 0)))
  {
    var commands := Limits.PendingRun();
    var quiet := SerialRunsAreInterleavings(commands);
    s := RaceSplitsRows(quiet, quiet.orders[0], quiet.payments[3]);
    ReachesOn(START, quiet, s);
    assert s.payments == map[3 := PaymentRow(3, 0, 500, Approved, Some("t"), Some("first"))];
    assert s.payments[3].orderId == 0;
  }

  // ---- Crashes that strand an order ----

  /** From any quiet state with a payable order, paid for the first time or again: the initiation dies after its first
      save. */
  lemma CrashStrands(s: Sys, o: Id) returns (s': Sys)
    requires Quiet(s, o) && s.orders[o].status in {Confirmed, PaymentFailed}
    requires !PaymentIs(s, o, Pending) && !PaymentIs(s, o, Approved)
    ensures CrashReaches(s, s') && Quiet(s', o) && Closed(s', o)
    ensures s'.orders[o].status == PaymentPending && s'.payments == s.payments
  {
    var s1 := AskAlone(s, s.orders[o], None);
    ThenMaybe(s, s1, Stop(0));
    s' := Do(s1, Stop(0));
    ReachesQuiet(s, s', o);
  }

  /** From any quiet state with an order awaiting its verdict: the callback dies between its two saves. */
  lemma CrashBetweenSavesStrands(s: Sys, o: Id) returns (s': Sys)
    requires Quiet(s, o) && s.orders[o].status == PaymentPending && PaymentIs(s, o, Pending)
    ensures CrashReaches(s, s') && Quiet(s', o) && Closed(s', o)
    ensures s'.orders == s.orders && PaymentIs(s', o, Approved)
  {
    var p := ThePayment(s, o, Pending);
    var s1 := ApproveUpToSave(s, s.orders[o], p);
    ThenMaybe(s, s1, Stop(0));
    s' := Do(s1, Stop(0));
    ReachesQuiet(s, s', o);
    assert s'.payments[p.id].orderId == o;
  }

  /** Reached by one crash, and with no way on but a cancellation. */
  ghost predicate StrandedFromStart(s: Sys) {
    && CrashReaches(START, s) && Quiet(s, 0) && s.orders[0].status == PaymentPending
    && forall steps :: OnlyCancelled(s, RunSteps(s, steps), 0)
  }

  lemma SerialRunIsQuiet(commands: seq<Command>) returns (s: Sys)
    requires 0 in Run(EMPTY, commands).orders
    ensures Reaches(START, s) && Matches(s, Run(EMPTY, commands)) && Quiet(s, 0)
  {
    s := SerialRunsAreInterleavings(commands);
    var steps :| CrashFree(steps) && RunSteps(START, steps) == s;
    EveryInterleaving(steps);
    EveryInterleavingKeepsPayments(steps);
  }

  lemma ClosedIsStranded(quiet: Sys, s: Sys)
    requires Reaches(START, quiet) && CrashReaches(quiet, s)
    requires Quiet(s, 0) && Closed(s, 0) && s.orders[0].status == PaymentPending
    ensures StrandedFromStart(s)
  {
    CrashReachesOn(START, quiet, s);
    forall steps ensures OnlyCancelled(s, RunSteps(s, steps), 0) {
      ClosedOrdersStay(s, steps, 0);
    }
  }

  lemma FirstInitiationStrands() returns (s: Sys)
    ensures StrandedFromStart(s) && PaymentOf(s.payments, 0).None?
  {
    var commands := Limits.ConfirmedRun();
    var quiet := SerialRunIsQuiet(commands);
    s := CrashStrands(quiet, 0);
    ClosedIsStranded(quiet, s);
  }

  lemma RetryStrands() returns (s: Sys)
    ensures StrandedFromStart(s) && PaymentIs(s, 0, Rejected)
  {
    var commands := Limits.RejectedRun();
    var quiet := SerialRunIsQuiet(commands);
    s := CrashStrands(quiet, 0);
    assert s.payments[3].orderId == 0;
    ClosedIsStranded(quiet, s);
  }

  lemma CallbackStrands() returns (s: Sys)
    ensures StrandedFromStart(s) && PaymentIs(s, 0, Approved)
  {
    var commands := Limits.PendingRun();
    var quiet := SerialRunIsQuiet(commands);
    assert quiet.payments[3].orderId == 0;
    s := CrashBetweenSavesStrands(quiet, 0);
    ClosedIsStranded(quiet, s);
  }

  /** It happens, in three ways: in a first initiation, in a repeated one, and in a callback. */
  lemma StrandedOrdersAreReachable() returns (first: Sys, again: Sys, settled: Sys)
    ensures StrandedFromStart(first) && PaymentOf(first.payments, 0).None?
    ensures StrandedFromStart(again) && PaymentIs(again, 0, Rejected)
    ensures StrandedFromStart(settled) && PaymentIs(settled, 0, Approved)
  {
    first := FirstInitiationStrands();
    again := RetryStrands();
    settled := CallbackStrands();
  }
}
