/**
 How far order and payment rows can come apart: from an order in DRAFT, exactly which pairs of statuses an
 interleaving can leave behind when nothing is in flight any more. Serial runs leave eight of the twenty.
 */
module Disagreements {
  import opened Domain
  import opened Store
  import opened Behaviour
  import opened Interleaving
  import opened InterleavingProofs
  import opened InterleavedPayments
  import opened SerialAsInterleaving
  import opened Prospects

  /** All that interleavings keep of the pair: no payment before an initiation, and a verdict only with one. */
  predicate Allowed(status: OrderStatus, payment: Option<PaymentStatus>) {
    && (status in {Draft, Confirmed} ==> payment.None?)
    && (status in {PaymentFailed, Paid} ==> payment.Some?)
  }

  function StatusOf(p: Option<PaymentRow>): Option<PaymentStatus> {
    if p.Some? then Some(p.value.status) else None
  }

  /** Nothing is in flight, and the order has these statuses. */
  ghost predicate Shows(s: Sys, o: Id, status: OrderStatus, payment: Option<PaymentStatus>) {
    s.flights == map[] && o in s.orders && s.orders[o].status == status && StatusOf(PaymentOf(s.payments, o)) == payment
  }

  lemma QuietShows(s: Sys, o: Id, payment: PaymentStatus)
    requires Quiet(s, o) && PaymentIs(s, o, payment)
    ensures Shows(s, o, s.orders[o].status, Some(payment))
  {
    var p := ThePayment(s, o, payment);
  }

  lemma OnlyAllowed(s: Sys, o: Id)
    requires Quiet(s, o)
    ensures Allowed(s.orders[o].status, StatusOf(PaymentOf(s.payments, o)))
  {
    assert VerdictHasPayment(s.orders[o], s.payments);
  }

  /** A run from a quiet state ends quiet, with the payment it wrote. */
  lemma EndsWith(s: Sys, s': Sys, o: Id, p: Id)
    requires Quiet(s, o) && Reaches(s, s') && s'.flights == map[]
    requires p in s'.payments && s'.payments[p].orderId == o
    ensures Quiet(s', o) && Shows(s', o, s'.orders[o].status, Some(s'.payments[p].status))
  {
    ReachesIsMayReach(s, s');
    ReachesQuiet(s, s', o);
    assert PaymentIs(s', o, s'.payments[p].status);
    QuietShows(s', o, s'.payments[p].status);
  }

  // ---- Where the runs start ----

  lemma ToConfirmed(s: Sys, o: Id) returns (s': Sys)
    requires Quiet(s, o) && s.orders[o].status == Draft
    ensures Reaches(s, s') && Quiet(s', o) && s'.orders[o].status == Confirmed
  {
    var full := DraftGetsItem(s, o);
    s' := DraftIsConfirmed(full, o);
    ReachesOn(s, full, s');
  }

  /** Awaiting the first verdict. */
  ghost predicate Waits(s: Sys, o: Id) {
    Quiet(s, o) && s.orders[o].status == PaymentPending && s.orders[o].attempts == 0 && PaymentIs(s, o, Pending)
  }

  lemma ToWaiting(s: Sys, o: Id) returns (s': Sys)
    requires Quiet(s, o) && s.orders[o].status == Draft
    ensures Reaches(s, s') && Waits(s', o)
  {
    var confirmed := ToConfirmed(s, o);
    assert AttemptsFit(confirmed.orders[o]);
    s' := PayableIsMarked(confirmed, o);
    ReachesOn(s, confirmed, s');
  }

  lemma Settled(s: Sys, o: Id, approved: bool) returns (s': Sys)
    requires Waits(s, o)
    ensures Reaches(s, s') && Quiet(s', o) && PaymentIs(s', o, if approved then Approved else Rejected)
    ensures s'.orders[o].status == if approved then Paid else PaymentFailed
  {
    var p := ThePayment(s, o, Pending);
    s' := CallbackAlone(s, p, s.orders[o], approved, "t");
    assert s'.payments[p.id].orderId == o;
    EndsWith(s, s', o, p.id);
  }

  lemma CancelledFrom(s: Sys, o: Id) returns (s': Sys)
    requires Quiet(s, o) && s.orders[o].status in CANCELLABLE_ORDER_STATUSES
    ensures Reaches(s, s') && s'.flights == map[] && o in s'.orders && s'.orders[o].status == Cancelled
    ensures var p := PaymentOf(s.payments, o);
      s'.payments ==
        if p.Some? && p.value.status == Pending then s.payments[p.value.id := p.value.(status := Void)]
        else s.payments
  {
    s' := CancelAlone(s, s.orders[o], None);
  }

  // ---- Late writes of a payment row ----

  lemma PauseAtReading(s: Sys, p: PaymentRow, approved: bool) returns (s': Sys)
    requires s.flights == map[] && p.id in s.payments && s.payments[p.id] == p && p.status == Pending
    ensures Reaches(s, s') && Alone(s', CallbackReading(p, approved, "t")) && SameTables(s, s')
  {
    var begin := Begin(0, CallbackCall(p.id, approved, "t"));
    Stays(s);
    Then(s, s, begin);
    s' := Do(s, begin);
  }

  lemma PauseAtPaying(s: Sys, o: OrderRow, p: PaymentRow, approved: bool) returns (s': Sys)
    requires s.flights == map[] && Current(s, o) && o.status == PaymentPending && p.orderId == o.id
    requires p.id in s.payments && s.payments[p.id] == p && p.status == Pending
    ensures Reaches(s, s') && Alone(s', CallbackPaying(p, o, approved, "t")) && SameTables(s, s')
  {
    var s1 := PauseAtReading(s, p, approved);
    Then(s, s1, GO);
    s' := Do(s1, GO);
  }

  lemma PauseAtVoiding(s: Sys, o: OrderRow, p: PaymentRow) returns (s': Sys)
    requires s.flights == map[] && Current(s, o) && PaymentOf(s.payments, o.id) == Some(p) && p.status == Pending
    ensures Reaches(s, s') && Alone(s', CancelVoiding(o, None, p)) && SameTables(s, s')
  {
    var begin := Begin(0, CancelCall(o.id, None));
    Stays(s);
    Then(s, s, begin);
    var s1 := Do(s, begin);
    assert Alone(s1, CancelReading(o, None)) && SameTables(s, s1);
    Then(s, s1, GO);
    s' := Do(s1, GO);
  }

  /** A whole callback while flight 0 waits. */
  lemma SettleBeside(s: Sys, waiting: Flight, o: OrderRow, p: PaymentRow, approved: bool) returns (s': Sys)
    requires Alone(s, waiting) && Current(s, o) && o.status == PaymentPending && p.orderId == o.id
    requires p.id in s.payments && s.payments[p.id] == p && p.status == Pending
    ensures Reaches(s, s') && s'.orders == s.orders[o.id := Verdict(Bump(o), approved).value]
    ensures Alone(s', waiting) && s'.nextId == s.nextId
    ensures s'.payments == s.payments[p.id := SettledPayment(p, approved, "t")]
  {
    var begin := Begin(1, CallbackCall(p.id, approved, "t"));
    Stays(s);
    Then(s, s, begin);
    var s1 := Do(s, begin);
    assert s1.flights == map[0 := waiting, 1 := CallbackReading(p, approved, "t")] && SameTables(s, s1);
    s' := SettleFrom(s1, 1, o, p, approved);
    ReachesOn(s, s1, s');
    assert s'.flights == map[0 := waiting];
  }

  /** The payment row is overwritten all the same; the order has moved on, so the save of it is refused. */
  lemma LateVerdict(s: Sys, p: PaymentRow, snap: OrderRow, approved: bool) returns (s': Sys)
    requires Alone(s, CallbackPaying(p, snap, approved, "t")) && p.id in s.payments && snap.status == PaymentPending
    requires snap.id in s.orders && s.orders[snap.id].version > snap.version
    ensures Reaches(s, s') && s'.flights == map[] && s'.orders == s.orders
    ensures s'.payments == Overwritten(s.payments, SettledPayment(p, approved, "t"))
  {
    Stays(s);
    Then(s, s, GO);
    PayFrom(s, 0, snap, p, approved);
    var s1 := Do(s, GO);
    assert Alone(s1, Saving(snap, Settle(approved)));
    LateSaveIsRefused(s1, snap, Settle(approved));
    Then(s, s1, GO);
    s' := Do(s1, GO);
  }

  lemma LateVoid(s: Sys, p: PaymentRow, snap: OrderRow) returns (s': Sys)
    requires Alone(s, CancelVoiding(snap, None, p)) && p.id in s.payments && snap.status == PaymentPending
    requires snap.id in s.orders && s.orders[snap.id].version > snap.version
    ensures Reaches(s, s') && s'.flights == map[] && s'.orders == s.orders
    ensures s'.payments == Overwritten(s.payments, p.(status := Void))
  {
    Stays(s);
    Then(s, s, GO);
    var s1 := Do(s, GO);
    assert Alone(s1, Saving(snap, CancelFor(None))) && s1.orders == s.orders;
    assert s1.payments == Overwritten(s.payments, p.(status := Void));
    LateSaveIsRefused(s1, snap, CancelFor(None));
    Then(s, s1, GO);
    s' := Do(s1, GO);
  }

  /** Two callbacks with different verdicts: one settles the order, the other the payment. */
  lemma CrossedVerdicts(s: Sys, o: Id, first: bool, late: bool) returns (s': Sys)
    requires Waits(s, o)
    ensures Reaches(s, s')
    ensures Shows(s', o, if first then Paid else PaymentFailed, Some(if late then Approved else Rejected))
  {
    var row := s.orders[o];
    var p := ThePayment(s, o, Pending);
    var s1 := PauseAtPaying(s, row, p, late);
    var s2 := SettleBeside(s1, CallbackPaying(p, row, late, "t"), row, p, first);
    ReachesOn(s, s1, s2);
    s' := LateVerdict(s2, p, row, late);
    ReachesOn(s, s2, s');
    EndsWith(s, s', o, p.id);
  }

  /** A cancellation read the payment PENDING and voids it after the verdict. */
  lemma CrossedVoid(s: Sys, o: Id, first: bool) returns (s': Sys)
    requires Waits(s, o)
    ensures Reaches(s, s') && Shows(s', o, if first then Paid else PaymentFailed, Some(Void))
  {
    var row := s.orders[o];
    var p := ThePayment(s, o, Pending);
    var s1 := PauseAtVoiding(s, row, p);
    var s2 := SettleBeside(s1, CancelVoiding(row, None, p), row, p, first);
    ReachesOn(s, s1, s2);
    s' := LateVoid(s2, p, row);
    ReachesOn(s, s2, s');
    EndsWith(s, s', o, p.id);
  }

  // ---- Late openings of a payment ----

  /** An accepted first initiation, up to its payment save. */
  lemma PauseAtFirstPayment(s: Sys, o: OrderRow) returns (s': Sys)
    requires s.flights == map[] && Current(s, o) && o.status == Confirmed && PaymentOf(s.payments, o.id).None?
    ensures Reaches(s, s') && Alone(s', InitPaying(o.id, None, Confirmed, None, o.total, "x"))
    ensures s'.orders == s.orders[o.id := Bump(o).(status := PaymentPending)]
    ensures s'.payments == s.payments && s'.nextId == s.nextId
  {
    var accepted := Advance(0, Accepted("x"));
    var s1 := AskAlone(s, o, None);
    Then(s, s1, accepted);
    s' := Do(s1, accepted);
  }

  /** The order is cancelled between the mark and the first payment row. */
  lemma CancelledBeforePayment(s: Sys, o: Id) returns (s': Sys)
    requires Quiet(s, o) && s.orders[o].status == Confirmed
    ensures Reaches(s, s') && Shows(s', o, Cancelled, Some(Pending))
  {
    var row, accepted := s.orders[o], Advance(0, Accepted("x"));
    assert PaymentOf(s.payments, o).None?;
    var s1 := PauseAtFirstPayment(s, row);
    var s2 := Overtake(s1, Bump(row).(status := PaymentPending), InitPaying(o, None, Confirmed, None, row.total, "x"));
    ReachesOn(s, s1, s2);
    var db := Db(s2.orders, s2.payments, map[], map[], [], s2.nextId);
    PaidFor(s2, db, row, None, "x");
    Then(s, s2, accepted);
    s' := Do(s2, accepted);
    EndsWith(s, s', o, OpenedPayment(db, row, None, "x").id);
  }

  /** An initiation of a failed order, up to its payment save, while flight 0 waits. */
  lemma InitiateBeside(s: Sys, waiting: Flight, o: OrderRow, p: PaymentRow) returns (s': Sys)
    requires Alone(s, waiting) && Current(s, o) && o.status == PaymentFailed
    requires PaymentOf(s.payments, o.id) == Some(p) && p.status == Rejected
    ensures Reaches(s, s') && s'.orders == s.orders[o.id := Bump(o).(status := PaymentPending)]
    ensures s'.payments == s.payments && s'.nextId == s.nextId
    ensures s'.flights == map[0 := waiting, 1 := InitPaying(o.id, None, PaymentFailed, Some(p), o.total, "y")]
  {
    var s1 := AboutToMark(s, 1, o, p);
    InitMarks(s1, waiting, o, p);
    Then(s, s1, Advance(1, GatewayError));
    var s2 := Do(s1, Advance(1, GatewayError));
    Then(s, s2, Advance(1, Accepted("y")));
    s' := Do(s2, Advance(1, Accepted("y")));
  }

  lemma InitMarks(s: Sys, waiting: Flight, o: OrderRow, p: PaymentRow)
    requires s.flights == map[0 := waiting, 1 := InitMarking(o, None, Some(p))] && Current(s, o)
    requires o.status == PaymentFailed
    ensures var s' := Do(s, Advance(1, GatewayError));
      && s'.orders == s.orders[o.id := Bump(o).(status := PaymentPending)]
      && s'.payments == s.payments && s'.nextId == s.nextId
      && s'.flights == map[0 := waiting, 1 := InitAsking(o.id, None, PaymentFailed, Some(p), o.total)]
  {
  }

  lemma Reopens(s: Sys, o: Id, p: PaymentRow, amount: nat)
    requires s.flights == map[1 := InitPaying(o, None, PaymentFailed, Some(p), amount, "y")]
    requires p.id in s.payments && p.status == Rejected
    ensures var s' := Do(s, Advance(1, GatewayError));
      && s'.flights == map[] && s'.orders == s.orders
      && s'.payments == Overwritten(s.payments, p.(status := Pending, externalReference := Some("y")))
  {
  }

  /** One callback has read the payment PENDING; another rejects it. */
  lemma RejectedUnderCallback(s: Sys, o: Id, p: PaymentRow, approved: bool) returns (s': Sys)
    requires Waits(s, o) && p.id in s.payments && s.payments[p.id] == p && p.orderId == o && p.status == Pending
    ensures Reaches(s, s') && Alone(s', CallbackReading(p, approved, "t"))
    ensures s'.payments == s.payments[p.id := p.(status := Rejected)]
    ensures o in s'.orders && Current(s', s'.orders[o]) && s'.orders[o].id == o
    ensures s'.orders[o].status == PaymentFailed && s'.orders[o].attempts == 1
  {
    var row := s.orders[o];
    var s1 := PauseAtReading(s, p, approved);
    s' := SettleBeside(s1, CallbackReading(p, approved, "t"), row, p, false);
    ReachesOn(s, s1, s');
  }

  lemma SecondRemains(first: Flight, second: Flight)
    ensures map[0 := first, 1 := second] - {0} == map[1 := second]
  {
  }

  /** The order is marked again, and the first callback settles it. */
  lemma SettledOnceMore(s: Sys, row: OrderRow, p: PaymentRow, rejected: PaymentRow, approved: bool) returns (s': Sys)
    requires Alone(s, CallbackReading(p, approved, "t")) && p.orderId == row.id && p.id in s.payments
    requires Current(s, row) && row.status == PaymentFailed
    requires PaymentOf(s.payments, row.id) == Some(rejected) && rejected.status == Rejected
    ensures Reaches(s, s')
    ensures s'.flights == map[1 := InitPaying(row.id, None, PaymentFailed, Some(rejected), row.total, "y")]
    ensures row.id in s'.orders
    ensures Ok(s'.orders[row.id]) == Verdict(Bump(Bump(row).(status := PaymentPending)), approved)
    ensures s'.payments == Overwritten(s.payments, SettledPayment(p, approved, "t"))
  {
    var pending := Bump(row).(status := PaymentPending);
    var s1 := InitiateBeside(s, CallbackReading(p, approved, "t"), row, rejected);
    s' := SettleFrom(s1, 0, pending, p, approved);
    ReachesOn(s, s1, s');
    SecondRemains(CallbackReading(p, approved, "t"), s1.flights[1]);
  }

  /** Only then is the payment reopened. */
  lemma ReopenedAtLast(s: Sys, o: Id, rejected: PaymentRow, amount: nat) returns (s': Sys)
    requires s.flights == map[1 := InitPaying(o, None, PaymentFailed, Some(rejected), amount, "y")]
    requires rejected.id in s.payments && rejected.status == Rejected
    ensures Reaches(s, s') && s'.flights == map[] && s'.orders == s.orders
    ensures rejected.id in s'.payments && s'.payments[rejected.id].status == Pending
    ensures s'.payments[rejected.id].orderId == s.payments[rejected.id].orderId
  {
    Reopens(s, o, rejected, amount);
    Stays(s);
    Then(s, s, Advance(1, GatewayError));
    s' := Do(s, Advance(1, GatewayError));
  }

  /** A callback of the previous round settles the order after it was marked again and before its payment is
      reopened. */
  lemma SettledBeforeReopening(s: Sys, o: Id, approved: bool) returns (s': Sys)
    requires Waits(s, o)
    ensures Reaches(s, s') && Shows(s', o, if approved then Paid else PaymentFailed, Some(Pending))
  {
    var p := ThePayment(s, o, Pending);
    var s1 := RejectedUnderCallback(s, o, p, approved);
    var rejected := p.(status := Rejected);
    assert s1.payments[p.id].orderId == o;
    assert PaymentOf(s1.payments, o) == Some(rejected);
    var s2 := SettledOnceMore(s1, s1.orders[o], p, rejected, approved);
    ReachesOn(s, s1, s2);
    s' := ReopenedAtLast(s2, o, rejected, s1.orders[o].total);
    ReachesOn(s, s2, s');
    EndsWith(s, s', o, p.id);
  }

  // ---- Crashes ----

  lemma DiesAfterVoid(s: Sys, o: Id) returns (s': Sys)
    requires Waits(s, o)
    ensures CrashReaches(s, s') && Shows(s', o, PaymentPending, Some(Void))
  {
    var p := ThePayment(s, o, Pending);
    var s1 := PauseAtVoiding(s, s.orders[o], p);
    VoidAlone(s1, s.orders[o], None, p);
    Then(s, s1, GO);
    var s2 := Do(s1, GO);
    ThenMaybe(s, s2, Stop(0));
    s' := Do(s2, Stop(0));
    ReachesQuiet(s, s', o);
    assert s'.payments[p.id].orderId == o;
    QuietShows(s', o, Void);
  }

  // ---- Every allowed pair is left behind by some run ----

  lemma MarkedWithoutPayment(s: Sys, o: Id) returns (s': Sys)
    requires Quiet(s, o) && s.orders[o].status == Confirmed
    ensures CrashReaches(s, s') && Shows(s', o, PaymentPending, None)
  {
    s' := CrashStrands(s, o);
  }

  lemma MarkedWithRejected(s: Sys, o: Id) returns (s': Sys)
    requires Waits(s, o)
    ensures MayReach(s, s') && Shows(s', o, PaymentPending, Some(Rejected))
  {
    var failed := Settled(s, o, false);
    var p := ThePayment(failed, o, Rejected);
    s' := CrashStrands(failed, o);
    CrashReachesOn(s, failed, s');
    assert PaymentIs(s', o, Rejected);
    QuietShows(s', o, Rejected);
  }

  lemma PendingPairs(s: Sys, o: Id, payment: Option<PaymentStatus>) returns (s': Sys)
    requires Quiet(s, o) && s.orders[o].status == Draft
    ensures MayReach(s, s') && Shows(s', o, PaymentPending, payment)
  {
    if payment.None? {
      var confirmed := ToConfirmed(s, o);
      s' := MarkedWithoutPayment(confirmed, o);
      CrashReachesOn(s, confirmed, s');
    } else {
      var waiting := ToWaiting(s, o);
      s' := WaitingPairs(waiting, o, payment.value);
      MayReachOn(s, waiting, s');
    }
  }

  lemma WaitingPairs(s: Sys, o: Id, payment: PaymentStatus) returns (s': Sys)
    requires Waits(s, o)
    ensures MayReach(s, s') && Shows(s', o, PaymentPending, Some(payment))
  {
    Stays(s);
    match payment
    case Pending =>
      s' := s;
      ReachesIsMayReach(s, s);
      QuietShows(s, o, Pending);
    case Approved =>
      s' := CrashBetweenSavesStrands(s, o);
      CrashReachesOn(s, s, s');
      QuietShows(s', o, Approved);
    case Rejected => s' := MarkedWithRejected(s, o);
    case Void =>
      s' := DiesAfterVoid(s, o);
      CrashReachesOn(s, s, s');
  }

  /** PAID or PAYMENT_FAILED, with any payment. */
  lemma VerdictPairs(s: Sys, o: Id, approved: bool, payment: PaymentStatus) returns (s': Sys)
    requires Quiet(s, o) && s.orders[o].status == Draft
    ensures Reaches(s, s') && Shows(s', o, if approved then Paid else PaymentFailed, Some(payment))
  {
    var waiting := ToWaiting(s, o);
    match payment {
      case Pending => s' := SettledBeforeReopening(waiting, o, approved);
      case Approved => s' := CrossedVerdicts(waiting, o, approved, true);
      case Rejected => s' := CrossedVerdicts(waiting, o, approved, false);
      case Void => s' := CrossedVoid(waiting, o, approved);
    }
    ReachesOn(s, waiting, s');
  }

  lemma CancelledApproved(s: Sys, o: Id) returns (s': Sys)
    requires Waits(s, o)
    ensures Reaches(s, s') && Shows(s', o, Cancelled, Some(Approved))
  {
    var p := ThePayment(s, o, Pending);
    s' := RaceSplitsRows(s, s.orders[o], p);
    EndsWith(s, s', o, p.id);
  }

  lemma CancelledRejected(s: Sys, o: Id) returns (s': Sys)
    requires Waits(s, o)
    ensures Reaches(s, s') && Shows(s', o, Cancelled, Some(Rejected))
  {
    var failed := Settled(s, o, false);
    var p := ThePayment(failed, o, Rejected);
    s' := CancelledFrom(failed, o);
    EndsWith(failed, s', o, p.id);
    ReachesOn(s, failed, s');
  }

  lemma CancelledVoid(s: Sys, o: Id) returns (s': Sys)
    requires Waits(s, o)
    ensures Reaches(s, s') && Shows(s', o, Cancelled, Some(Void))
  {
    var p := ThePayment(s, o, Pending);
    s' := CancelledFrom(s, o);
    EndsWith(s, s', o, p.id);
  }

  lemma WaitingCancelled(s: Sys, o: Id, payment: PaymentStatus) returns (s': Sys)
    requires Waits(s, o) && payment != Pending
    ensures Reaches(s, s') && Shows(s', o, Cancelled, Some(payment))
  {
    match payment
    case Approved => s' := CancelledApproved(s, o);
    case Rejected => s' := CancelledRejected(s, o);
    case Void => s' := CancelledVoid(s, o);
  }

  lemma CancelledPairs(s: Sys, o: Id, payment: Option<PaymentStatus>) returns (s': Sys)
    requires Quiet(s, o) && s.orders[o].status == Draft
    ensures Reaches(s, s') && Shows(s', o, Cancelled, payment)
  {
    if payment.None? {
      s' := CancelledFrom(s, o);
      assert PaymentOf(s.payments, o).None?;
    } else if payment == Some(Pending) {
      var confirmed := ToConfirmed(s, o);
      s' := CancelledBeforePayment(confirmed, o);
      ReachesOn(s, confirmed, s');
    } else {
      var waiting := ToWaiting(s, o);
      s' := WaitingCancelled(waiting, o, payment.value);
      ReachesOn(s, waiting, s');
    }
  }

  lemma UnpaidPairs(s: Sys, o: Id, status: OrderStatus) returns (s': Sys)
    requires Quiet(s, o) && s.orders[o].status == Draft && status in {Draft, Confirmed}
    ensures Reaches(s, s') && Shows(s', o, status, None)
  {
    Stays(s);
    s' := s;
    if status == Confirmed {
      s' := ToConfirmed(s, o);
    }
    OnlyAllowed(s', o);
  }

  lemma PairIsReached(s: Sys, o: Id, status: OrderStatus, payment: Option<PaymentStatus>) returns (s': Sys)
    requires Quiet(s, o) && s.orders[o].status == Draft && Allowed(status, payment)
    ensures MayReach(s, s') && Shows(s', o, status, payment)
  {
    match status
    case Draft => s' := UnpaidPairs(s, o, Draft); ReachesIsMayReach(s, s');
    case Confirmed => s' := UnpaidPairs(s, o, Confirmed); ReachesIsMayReach(s, s');
    case PaymentPending => s' := PendingPairs(s, o, payment);
    case PaymentFailed => s' := VerdictPairs(s, o, false, payment.value); ReachesIsMayReach(s, s');
    case Paid => s' := VerdictPairs(s, o, true, payment.value); ReachesIsMayReach(s, s');
    case Cancelled => s' := CancelledPairs(s, o, payment); ReachesIsMayReach(s, s');
  }

  /** From an order in DRAFT: a pair of statuses can be left behind exactly if it is allowed. */
  lemma PairsIff(s: Sys, o: Id, status: OrderStatus, payment: Option<PaymentStatus>)
    requires Quiet(s, o) && s.orders[o].status == Draft
    ensures (exists s' :: MayReach(s, s') && Shows(s', o, status, payment)) <==> Allowed(status, payment)
  {
    if Allowed(status, payment) {
      var s' := PairIsReached(s, o, status, payment);
    } else {
      forall s' | MayReach(s, s') ensures !Shows(s', o, status, payment) {
        if Shows(s', o, status, payment) {
          ReachesQuiet(s, s', o);
          OnlyAllowed(s', o);
        }
      }
    }
  }
}
