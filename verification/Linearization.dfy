/**
 Any interleaving of the use cases is, on each order row, a serial run of exactly the
 operations that were committed; and what follows for versions, statuses, attempts and prices.
 */
module Linearization {
  import opened Domain
  import opened Behaviour
  import opened Interleaving
  import opened InterleavingProofs

  /** The commit to an order row that the step makes, if it makes one. */
  ghost function Committing(s: Sys, step: Step): Option<LogEntry> {
    if !step.Advance? || step.f !in s.flights then None
    else match s.flights[step.f]
      case Saving(snap, op) => if CommitOrder(s, snap, op).Some? then Some(LogEntry(snap.id, op)) else None
      case InitMarking(snap, _, _) =>
        if CommitOrder(s, snap, MarkPending).Some? then Some(LogEntry(snap.id, MarkPending))
        else None
      case _ => None
  }

  /** The status a rollback gives back: the one held before is told by the rejections recorded. */
  function StatusBefore(o: OrderRow): OrderStatus {
    if o.attempts == 0 then Confirmed else PaymentFailed
  }

  /** A committed write is the operation applied to exactly the row it replaces. */
  lemma CommitIsOnCurrentRow(s: Sys, step: Step)
    requires SysInv(s) && Committing(s, step).Some?
    ensures var e, s' := Committing(s, step).value, Do(s, step);
      && e.orderId in s.orders && Perform(e.op, s.orders[e.orderId]).Ok?
      && s'.orders == s.orders[e.orderId := Perform(e.op, s.orders[e.orderId]).value]
      && s'.log == s.log + [e]
      && RowSucceeds(s.orders[e.orderId], s'.orders[e.orderId])
      && (e.op.Restore? ==> e.op.previous == StatusBefore(s.orders[e.orderId]))
  {
    var flight := s.flights[step.f];
    assert FlightOk(s.orders, s.payments, flight);
    var e := Committing(s, step).value;
    CommitReplacesSnapshot(s, flight.snap, e.op);
  }

  lemma PaymentsAreNoRows(s: Sys, p: PaymentRow)
    ensures SavePaymentRow(s, p).Some? ==>
      SavePaymentRow(s, p).value.orders == s.orders && SavePaymentRow(s, p).value.log == s.log
  {
  }

  /** Steps between two commits leave order rows alone. */
  lemma OtherAdvancesWriteNoRow(s: Sys, f: FlightId, gateway: GatewayReply)
    requires f in s.flights && Committing(s, Advance(f, gateway)).None?
    ensures var s' := AdvanceFlight(s, f, s.flights[f], gateway); s'.log == s.log && s'.orders == s.orders
  {
    match s.flights[f]
    case CancelVoiding(_, _, p) => PaymentsAreNoRows(s, p.(status := Void));
    case CallbackPaying(p, _, approved, txn) => PaymentsAreNoRows(s, SettledPayment(p, approved, txn));
    case _ =>
  }

  lemma OtherStepsWriteNoRow(s: Sys, step: Step)
    requires SysInv(s) && Committing(s, step).None?
    ensures var s' := Do(s, step);
      && s'.log == s.log
      && forall o :: o in s.orders ==> o in s'.orders && s'.orders[o] == s.orders[o]
  {
    if step.Advance? && step.f in s.flights {
      OtherAdvancesWriteNoRow(s, step.f, step.gateway);
    }
  }

  // ---- The log is the history of every row ----

  ghost predicate LogOk(s: Sys) {
    && (forall i :: 0 <= i < |s.log| ==> s.log[i].orderId in s.orders)
    && (forall o :: o in s.orders ==> HistoryOk(s, o))
  }

  ghost predicate HistoryOk(s: Sys, o: Id)
    requires o in s.orders
  {
    && Serial(NewOrder(o, s.orders[o].customerId), OpsOf(s.log, o)) == Ok(s.orders[o])
    && s.orders[o].version == 1 + |OpsOf(s.log, o)|
  }

  lemma OpsOfAppend(log: seq<LogEntry>, e: LogEntry, o: Id)
    ensures OpsOf(log + [e], o) == OpsOf(log, o) + if e.orderId == o then [e.op] else []
  {
  }

  lemma {:induction false} NoOps(log: seq<LogEntry>, o: Id)
    requires forall i :: 0 <= i < |log| ==> log[i].orderId != o
    ensures OpsOf(log, o) == []
  {
    if log != [] {
      NoOps(log[..|log| - 1], o);
    }
  }

  lemma SerialAppend(row: OrderRow, ops: seq<DomainOp>, op: DomainOp)
    requires Serial(row, ops).Ok?
    ensures Serial(row, ops + [op]) == Perform(op, Serial(row, ops).value)
  {
  }

  lemma HistoryGrows(s: Sys, s': Sys, e: LogEntry, o: Id)
    requires o in s.orders && e.orderId in s.orders && HistoryOk(s, o)
    requires Perform(e.op, s.orders[e.orderId]).Ok?
    requires RowSucceeds(s.orders[e.orderId], Perform(e.op, s.orders[e.orderId]).value)
    requires s'.orders == s.orders[e.orderId := Perform(e.op, s.orders[e.orderId]).value] && s'.log == s.log + [e]
    ensures HistoryOk(s', o)
  {
    OpsOfAppend(s.log, e, o);
    if o == e.orderId {
      SerialAppend(NewOrder(o, s.orders[o].customerId), OpsOf(s.log, o), e.op);
    } else {
      assert OpsOf(s'.log, o) == OpsOf(s.log, o);
    }
  }

  lemma CommitKeepsLog(s: Sys, step: Step)
    requires SysInv(s) && LogOk(s) && Committing(s, step).Some?
    ensures LogOk(Do(s, step))
  {
    CommitIsOnCurrentRow(s, step);
    var s', e := Do(s, step), Committing(s, step).value;
    forall o | o in s'.orders ensures HistoryOk(s', o) {
      HistoryGrows(s, s', e, o);
    }
  }

  lemma OtherStepsKeepLog(s: Sys, step: Step)
    requires SysInv(s) && LogOk(s) && Committing(s, step).None?
    ensures LogOk(Do(s, step))
  {
    OtherStepsWriteNoRow(s, step);
    var s' := Do(s, step);
    forall o | o in s'.orders ensures HistoryOk(s', o) {
      if o in s.orders {
        assert HistoryOk(s, o);
      } else {
        BornRow(s, step, o);
        NoOps(s.log, o);
      }
    }
  }

  lemma StepKeepsLog(s: Sys, step: Step)
    requires SysInv(s) && LogOk(s)
    ensures LogOk(Do(s, step))
  {
    if Committing(s, step).Some? {
      CommitKeepsLog(s, step);
    } else {
      OtherStepsKeepLog(s, step);
    }
  }

  lemma BornRow(s: Sys, step: Step, o: Id)
    requires SysInv(s) && o in Do(s, step).orders && o !in s.orders
    ensures step.Create? && Do(s, step).orders[o] == NewOrder(o, step.customerId)
  {
    if Committing(s, step).Some? {
      CommitIsOnCurrentRow(s, step);
    }
  }

  /** Any interleaving: the row is what a serial run of just its committed operations makes of a new order. None is
      lost, none is applied twice, and the version counts them. */
  lemma {:induction false} RowsAreSerialHistories(steps: seq<Step>)
    ensures LogOk(RunSteps(START, steps))
  {
    if steps != [] {
      RowsAreSerialHistories(steps[..|steps| - 1]);
      EveryInterleaving(steps[..|steps| - 1]);
      StepKeepsLog(RunSteps(START, steps[..|steps| - 1]), steps[|steps| - 1]);
    }
  }

  // ---- Between two states of one run ----

  /** What can become of a row over any stretch of any interleaving. */
  predicate Later(r: OrderRow, r': OrderRow) {
    && r'.id == r.id && r'.customerId == r.customerId
    && r.version <= r'.version
    && (r.version == r'.version ==> r' == r)
    && r.attempts <= r'.attempts
    && (r.status != Draft ==> r'.status != Draft && r'.items == r.items && r'.total == r.total)
    && (r.status in {Paid, Cancelled} ==> r' == r)
  }

  lemma {:induction false} RowsOnlyMoveOn(s: Sys, steps: seq<Step>)
    requires SysInv(s)
    ensures SysInv(RunSteps(s, steps))
    ensures forall o :: o in s.orders ==>
      o in RunSteps(s, steps).orders && Later(s.orders[o], RunSteps(s, steps).orders[o])
  {
    if steps != [] {
      var mid, step := RunSteps(s, steps[..|steps| - 1]), steps[|steps| - 1];
      RowsOnlyMoveOn(s, steps[..|steps| - 1]);
      DoKeeps(mid, step);
      forall o | o in s.orders ensures o in Do(mid, step).orders && Later(s.orders[o], Do(mid, step).orders[o]) {
        OneStepLater(mid, step, o);
      }
    }
  }

  lemma OneStepLater(s: Sys, step: Step, o: Id)
    requires SysInv(s) && o in s.orders
    ensures o in Do(s, step).orders && Later(s.orders[o], Do(s, step).orders[o])
  {
    if Committing(s, step).Some? {
      CommitIsOnCurrentRow(s, step);
    } else {
      OtherStepsWriteNoRow(s, step);
    }
  }

  /** A version number fixes the row's contents for ever: wherever in a run it is seen again, so is the row. */
  lemma {:induction false} VersionFixesContents(steps: seq<Step>, more: seq<Step>, o: Id)
    requires o in RunSteps(START, steps).orders
    ensures var s, s' := RunSteps(START, steps), RunSteps(RunSteps(START, steps), more);
      && o in s'.orders && s.orders[o].version <= s'.orders[o].version
      && (s.orders[o].version == s'.orders[o].version <==> s'.orders[o] == s.orders[o])
  {
    EveryInterleaving(steps);
    RowsOnlyMoveOn(RunSteps(START, steps), more);
  }

  /** A committed status change stays in DRAFT, follows the table, or is the rollback to the status held before. */
  lemma {:induction false} StatusChangesAreLawful(steps: seq<Step>, step: Step, o: Id)
    requires o in RunSteps(START, steps).orders
    ensures var s := RunSteps(START, steps); var s' := Do(s, step);
      o in s'.orders && var r, r' := s.orders[o], s'.orders[o];
      r' != r ==>
        && r.status !in {Paid, Cancelled} && r'.version == r.version + 1
        && (|| (r.status == Draft && r'.status == Draft)
            || CanTransition(r.status, r'.status)
            || (r.status == PaymentPending && r'.status == StatusBefore(r) && r' == Bump(r).(status := r'.status)))
  {
    var s := RunSteps(START, steps);
    EveryInterleaving(steps);
    if Committing(s, step).Some? {
      CommitIsOnCurrentRow(s, step);
      var e := Committing(s, step).value;
      PerformSucceeds(e.op, s.orders[e.orderId]);
    } else {
      OtherStepsWriteNoRow(s, step);
    }
  }

  /** Rejections are never forgotten and stop at three, which cancels; once there is one, the order is never
      CONFIRMED again. */
  lemma {:induction false} RejectionsAreNeverForgotten(steps: seq<Step>, more: seq<Step>, o: Id)
    requires o in RunSteps(START, steps).orders
    ensures var s, s' := RunSteps(START, steps), RunSteps(RunSteps(START, steps), more);
      && o in s'.orders && s.orders[o].attempts <= s'.orders[o].attempts <= 3
      && (s'.orders[o].attempts == 3 ==> s'.orders[o].status == Cancelled)
      && (s.orders[o].attempts > 0 ==> s'.orders[o].status !in {Draft, Confirmed})
  {
    EveryInterleaving(steps);
    RowsOnlyMoveOn(RunSteps(START, steps), more);
    assert AttemptsFit(RunSteps(RunSteps(START, steps), more).orders[o]);
  }

  /** Out of DRAFT the goods and the total are frozen; PAID and CANCELLED rows are never written again. */
  lemma {:induction false} GoodsAreFrozen(steps: seq<Step>, more: seq<Step>, o: Id)
    requires o in RunSteps(START, steps).orders && RunSteps(START, steps).orders[o].status != Draft
    ensures var r, s' := RunSteps(START, steps).orders[o], RunSteps(RunSteps(START, steps), more);
      && o in s'.orders && s'.orders[o].items == r.items && s'.orders[o].total == r.total
      && s'.orders[o].status != Draft
      && (r.status in {Paid, Cancelled} ==> s'.orders[o] == r)
  {
    EveryInterleaving(steps);
    RowsOnlyMoveOn(RunSteps(START, steps), more);
  }
}
