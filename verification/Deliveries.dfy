/**
 Callbacks delivered under an idempotency key, among everything else that runs: the key is looked up before the
 callback and recorded after the order is saved, so between the two the same delivery is let in again.
 */
module Deliveries {
  import opened Domain
  import opened Behaviour
  import opened Interleaving
  import opened InterleavingProofs
  import opened Linearization
  import opened InterleavedPayments
  import opened SerialAsInterleaving
  import opened Prospects

  /** A verdict that was committed to an order by a delivery. */
  datatype Effect = Effect(key: string, orderId: Id, approved: bool)

  datatype Delivery = Delivery(key: string, paymentId: Id, approved: bool, transactionId: string)

  /** `looked` holds deliveries that did not find their key recorded and have not read the payment yet, `flying` the
      keys of those whose callback is under way, `settled` the keys of those that have saved the order and not recorded
      the key yet. `effects` is a history variable. */
  datatype Desk = Desk(sys: Sys, looked: map<FlightId, Delivery>, flying: map<FlightId, string>,
                       settled: multiset<string>, recorded: set<string>, effects: multiset<Effect>)

  /** `Die` is a delivery that ends after its order save and before its record. */
  datatype Move = Look(f: FlightId, delivery: Delivery) | Deliver(f: FlightId) | Record(key: string) | Die(key: string)
    | Other(step: Step)

  /** The effect of a step that commits a delivery's verdict. */
  ghost function EffectOf(d: Desk, step: Step): Option<Effect> {
    if step.Advance? && step.f in d.flying && Committing(d.sys, step).Some? && Committing(d.sys, step).value.op.Settle?
    then
      var e := Committing(d.sys, step).value;
      Some(Effect(d.flying[step.f], e.orderId, e.op.approved))
    else None
  }

  function Still(flying: map<FlightId, string>, flights: map<FlightId, Flight>): map<FlightId, string> {
    map f | f in flying && f in flights :: flying[f]
  }

  ghost function Make(d: Desk, m: Move): Desk {
    match m
    case Look(f, delivery) => if delivery.key in d.recorded then d else d.(looked := d.looked[f := delivery])
    case Deliver(f) => if f in d.looked && f !in d.sys.flights then Start(d, f, d.looked[f]) else d
    case Record(key) =>
      if key in d.settled then d.(settled := d.settled - multiset{key}, recorded := d.recorded + {key}) else d
    case Die(key) => d.(settled := d.settled - multiset{key})
    case Other(step) =>
      var d' := d.(sys := Do(d.sys, step), flying := Still(d.flying, Do(d.sys, step).flights));
      match EffectOf(d, step)
      case None => d'
      case Some(e) => d'.(settled := d.settled + multiset{e.key}, effects := d.effects + multiset{e})
  }

  /** The callback reads the payment; if that is not PENDING the delivery is over. */
  ghost function Start(d: Desk, f: FlightId, delivery: Delivery): Desk {
    var begin := Begin(f, CallbackCall(delivery.paymentId, delivery.approved, delivery.transactionId));
    var sys' := Do(d.sys, begin);
    d.(sys := sys', looked := d.looked - {f},
       flying := if f in sys'.flights then d.flying[f := delivery.key] else d.flying)
  }

  ghost function After(d: Desk, moves: seq<Move>): Desk {
    if moves == [] then d else Make(After(d, moves[..|moves| - 1]), moves[|moves| - 1])
  }

  // ---- How often one delivery can take effect ----

  /** What the effects since `start` have done to the order's row. */
  ghost predicate Counted(start: Desk, d: Desk, o: Id) {
    && SysInv(d.sys) && o in start.sys.orders && o in d.sys.orders
    && (forall key :: d.effects[Effect(key, o, false)] + start.sys.orders[o].attempts
                   <= start.effects[Effect(key, o, false)] + d.sys.orders[o].attempts)
    && (forall key :: d.effects[Effect(key, o, true)]
                   <= start.effects[Effect(key, o, true)] + if d.sys.orders[o].status == Paid then 1 else 0)
  }

  /** A verdict that takes effect: a rejection is counted in the row, an approval is final. */
  lemma EffectOnRow(d: Desk, step: Step)
    requires SysInv(d.sys) && EffectOf(d, step).Some?
    ensures var e, orders := EffectOf(d, step).value, d.sys.orders;
      && e.orderId in orders && orders[e.orderId].status == PaymentPending
      && Ok(Do(d.sys, step).orders[e.orderId]) == Verdict(Bump(orders[e.orderId]), e.approved)
      && Do(d.sys, step).orders == orders[e.orderId := Do(d.sys, step).orders[e.orderId]]
  {
    CommitIsOnCurrentRow(d.sys, step);
  }

  lemma EffectCounts(start: Desk, d: Desk, step: Step, o: Id)
    requires Counted(start, d, o) && EffectOf(d, step).Some?
    ensures Counted(start, Make(d, Other(step)), o)
  {
    DoKeeps(d.sys, step);
    EffectOnRow(d, step);
  }

  lemma OtherCounts(start: Desk, d: Desk, step: Step, o: Id)
    requires Counted(start, d, o) && EffectOf(d, step).None?
    ensures Counted(start, Make(d, Other(step)), o)
  {
    DoKeeps(d.sys, step);
    OneStepLater(d.sys, step, o);
  }

  lemma MakeCounts(start: Desk, d: Desk, m: Move, o: Id)
    requires Counted(start, d, o)
    ensures Counted(start, Make(d, m), o)
  {
    match m
    case Deliver(f) =>
      if f in d.looked && f !in d.sys.flights {
        var delivery := d.looked[f];
        var begin := Begin(f, CallbackCall(delivery.paymentId, delivery.approved, delivery.transactionId));
        DoKeeps(d.sys, begin);
        OneStepLater(d.sys, begin, o);
      }
    case Other(step) =>
      if EffectOf(d, step).Some? {
        EffectCounts(start, d, step, o);
      } else {
        OtherCounts(start, d, step, o);
      }
    case _ =>
  }

  lemma {:induction false} RunCounts(d: Desk, moves: seq<Move>, o: Id)
    requires SysInv(d.sys) && o in d.sys.orders
    ensures Counted(d, After(d, moves), o)
  {
    if moves != [] {
      RunCounts(d, moves[..|moves| - 1], o);
      MakeCounts(d, After(d, moves[..|moves| - 1]), moves[|moves| - 1], o);
    }
  }

  /** Nothing is under way, no effect has been counted yet, and the order awaits its verdict. */
  ghost predicate Awaits(d: Desk, o: Id) {
    && Quiet(d.sys, o) && d.looked == map[] && d.flying == map[] && d.effects == multiset{}
    && d.sys.orders[o].status == PaymentPending && PaymentIs(d.sys, o, Pending)
  }

  lemma AtMostOnce(d: Desk, moves: seq<Move>, o: Id, key: string, approved: bool)
    requires Awaits(d, o) && (approved || d.sys.orders[o].attempts == 2)
    ensures After(d, moves).effects[Effect(key, o, approved)] <= 1
  {
    RunCounts(d, moves, o);
    assert AttemptsFit(After(d, moves).sys.orders[o]);
  }

  // ---- A delivery that takes effect twice ----

  ghost predicate Leads(d: Desk, d': Desk) {
    exists moves :: After(d, moves) == d'
  }

  lemma LeadsOn(d: Desk, mid: Desk, m: Move)
    requires Leads(d, mid)
    ensures Leads(d, Make(mid, m))
  {
    var moves :| After(d, moves) == mid;
    assert (moves + [m])[..|moves|] == moves;
    assert After(d, moves + [m]) == Make(mid, m);
  }

  /** While no delivery is under way, everything else runs as it does without keys. */
  lemma {:induction false} OthersRun(d: Desk, steps: seq<Step>)
    requires d.flying == map[]
    ensures Leads(d, d.(sys := RunSteps(d.sys, steps)))
  {
    if steps == [] {
      assert After(d, []) == d;
    } else {
      var init, step := steps[..|steps| - 1], steps[|steps| - 1];
      OthersRun(d, init);
      LeadsOn(d, d.(sys := RunSteps(d.sys, init)), Other(step));
    }
  }

  lemma OthersLead(start: Desk, d: Desk, sys': Sys)
    requires Leads(start, d) && d.flying == map[] && Reaches(d.sys, sys')
    ensures Leads(start, d.(sys := sys'))
  {
    var steps :| CrashFree(steps) && RunSteps(d.sys, steps) == sys';
    OthersRun(d, steps);
    LeadsAgain(start, d, d.(sys := sys'));
  }

  lemma {:induction false} AfterAfter(d: Desk, a: seq<Move>, b: seq<Move>)
    ensures After(d, a + b) == After(After(d, a), b)
  {
    if b == [] {
      assert a + b == a;
    } else {
      AfterAfter(d, a, b[..|b| - 1]);
      assert (a + b)[..|a + b| - 1] == a + b[..|b| - 1];
    }
  }

  lemma LeadsAgain(a: Desk, b: Desk, c: Desk)
    requires Leads(a, b) && Leads(b, c)
    ensures Leads(a, c)
  {
    var xs :| After(a, xs) == b;
    var ys :| After(b, ys) == c;
    AfterAfter(a, xs, ys);
  }

  /** The delivery up to its save of the order. */
  lemma UpToSave(d: Desk, o: OrderRow, p: PaymentRow, delivery: Delivery) returns (d': Desk)
    requires d.sys.flights == map[] && d.looked == map[] && d.flying == map[] && delivery.key !in d.recorded
    requires Current(d.sys, o) && o.status == PaymentPending && p.orderId == o.id && p.status == Pending
    requires p.id in d.sys.payments && d.sys.payments[p.id] == p
    requires delivery.paymentId == p.id && delivery.transactionId == "t"
    ensures Leads(d, d') && Alone(d'.sys, Saving(o, Settle(delivery.approved))) && d'.sys.orders == d.sys.orders
    ensures d'.sys.payments == d.sys.payments[p.id := SettledPayment(p, delivery.approved, "t")]
    ensures d' == d.(sys := d'.sys, flying := map[0 := delivery.key])
  {
    assert After(d, []) == d;
    LeadsOn(d, d, Look(0, delivery));
    var d1 := Make(d, Look(0, delivery));
    LeadsOn(d, d1, Deliver(0));
    var d2 := Make(d1, Deliver(0));
    Starts(d, d1, d2, p, delivery);
    ReadsOrder(d2, o, p, delivery.approved);
    LeadsOn(d, d2, Other(GO));
    var d3 := Make(d2, Other(GO));
    SavesPayment(d3, o, p, delivery.approved);
    LeadsOn(d, d3, Other(GO));
    d' := Make(d3, Other(GO));
  }

  lemma ReadsOrder(d: Desk, o: OrderRow, p: PaymentRow, approved: bool)
    requires Alone(d.sys, CallbackReading(p, approved, "t")) && d.flying.Keys == {0}
    requires Current(d.sys, o) && o.status == PaymentPending && p.orderId == o.id
    ensures var d' := Make(d, Other(GO));
      && d' == d.(sys := d'.sys) && Alone(d'.sys, CallbackPaying(p, o, approved, "t")) && SameTables(d.sys, d'.sys)
  {
    assert Still(d.flying, Do(d.sys, GO).flights) == d.flying;
  }

  lemma SavesPayment(d: Desk, o: OrderRow, p: PaymentRow, approved: bool)
    requires Alone(d.sys, CallbackPaying(p, o, approved, "t")) && d.flying.Keys == {0}
    requires p.id in d.sys.payments && d.sys.payments[p.id] == p
    ensures var d' := Make(d, Other(GO));
      && d' == d.(sys := d'.sys) && Alone(d'.sys, Saving(o, Settle(approved))) && d'.sys.orders == d.sys.orders
      && d'.sys.payments == d.sys.payments[p.id := SettledPayment(p, approved, "t")]
  {
    PayAlone(d.sys, p, o, approved, "t");
    assert Still(d.flying, Do(d.sys, GO).flights) == d.flying;
  }

  lemma Starts(d: Desk, d1: Desk, d2: Desk, p: PaymentRow, delivery: Delivery)
    requires d.sys.flights == map[] && d.looked == map[] && d.flying == map[] && delivery.key !in d.recorded
    requires p.id in d.sys.payments && d.sys.payments[p.id] == p && p.status == Pending
    requires delivery.paymentId == p.id && delivery.transactionId == "t"
    requires d1 == Make(d, Look(0, delivery)) && d2 == Make(d1, Deliver(0))
    ensures Alone(d2.sys, CallbackReading(p, delivery.approved, "t")) && SameTables(d.sys, d2.sys)
    ensures d2 == d.(sys := d2.sys, flying := map[0 := delivery.key])
  {
  }

  lemma SaveTakesEffect(d: Desk, o: OrderRow, key: string)
    requires Alone(d.sys, Saving(o, Settle(false))) && Current(d.sys, o) && o.status == PaymentPending
    requires d.flying == map[0 := key]
    ensures var d' := Make(d, Other(GO));
      && d'.sys.flights == map[] && d'.sys.payments == d.sys.payments && d'.recorded == d.recorded
      && d'.sys.orders == d.sys.orders[o.id := ApplyPaymentRejected(Bump(o)).value]
      && d'.looked == d.looked && d'.flying == map[] && d'.effects == d.effects + multiset{Effect(key, o.id, false)}
  {
    SaveAlone(d.sys, o, Settle(false), GatewayError);
  }

  /** Nothing of a delivery is under way; the order awaits its verdict, and the key is not recorded. */
  ghost predicate Ready(d: Desk, o: Id, key: string) {
    && Quiet(d.sys, o) && d.looked == map[] && d.flying == map[] && key !in d.recorded
    && d.sys.orders[o].status == PaymentPending && PaymentIs(d.sys, o, Pending)
  }

  /** A rejection under the key, from its delivery to the save of the order; the record is still to come. */
  lemma RejectionTakesEffect(d: Desk, o: Id, key: string) returns (d': Desk)
    requires Ready(d, o, key)
    ensures Leads(d, d') && d'.sys.flights == map[] && d'.looked == map[] && d'.flying == map[]
    ensures d'.recorded == d.recorded && d'.effects == d.effects + multiset{Effect(key, o, false)}
    ensures o in d'.sys.orders && Ok(d'.sys.orders[o]) == ApplyPaymentRejected(Bump(d.sys.orders[o]))
    ensures PaymentIs(d'.sys, o, Rejected) && SysInv(d'.sys) && PaymentsOk(d'.sys)
  {
    var row := d.sys.orders[o];
    var p := ThePayment(d.sys, o, Pending);
    var d1 := UpToSave(d, row, p, Delivery(key, p.id, false, "t"));
    SaveTakesEffect(d1, row, key);
    LeadsOn(d, d1, Other(GO));
    d' := Make(d1, Other(GO));
    assert d'.sys.payments[p.id].orderId == o;
    EveryDeskIsSound(d, d');
  }

  lemma {:induction false} RunIsSound(d: Desk, moves: seq<Move>)
    requires SysInv(d.sys) && PaymentsOk(d.sys)
    ensures SysInv(After(d, moves).sys) && PaymentsOk(After(d, moves).sys)
  {
    if moves != [] {
      RunIsSound(d, moves[..|moves| - 1]);
      MakeIsSound(After(d, moves[..|moves| - 1]), moves[|moves| - 1]);
    }
  }

  lemma MakeIsSound(d: Desk, m: Move)
    requires SysInv(d.sys) && PaymentsOk(d.sys)
    ensures SysInv(Make(d, m).sys) && PaymentsOk(Make(d, m).sys)
  {
    match m
    case Deliver(f) =>
      if f in d.looked && f !in d.sys.flights {
        var delivery := d.looked[f];
        var begin := Begin(f, CallbackCall(delivery.paymentId, delivery.approved, delivery.transactionId));
        DoKeeps(d.sys, begin);
        StepKeepsPayments(d.sys, begin);
      }
    case Other(step) =>
      DoKeeps(d.sys, step);
      StepKeepsPayments(d.sys, step);
    case _ =>
  }

  lemma EveryDeskIsSound(d: Desk, d': Desk)
    requires SysInv(d.sys) && PaymentsOk(d.sys) && Leads(d, d')
    ensures SysInv(d'.sys) && PaymentsOk(d'.sys)
  {
    var moves :| After(d, moves) == d';
    RunIsSound(d, moves);
  }

  /** Rejected, initiated again before the key is recorded, and rejected again by the same delivery. */
  lemma RejectionTwice(d: Desk, o: Id, key: string) returns (d': Desk)
    requires Awaits(d, o) && key !in d.recorded && d.sys.orders[o].attempts <= 1
    ensures Leads(d, d') && d'.effects[Effect(key, o, false)] == 2
  {
    var d1 := RejectionTakesEffect(d, o, key);
    var sys' := PayableIsMarked(d1.sys, o);
    var d2 := d1.(sys := sys');
    OthersLead(d, d1, sys');
    d' := RejectionTakesEffect(d2, o, key);
    LeadsAgain(d, d2, d');
  }

  /** An order that awaits its verdict, a key not recorded: the same verdict under the same key can take effect twice,
      exactly if it is a rejection and the order has room for two more of them. */
  lemma TwiceIff(d: Desk, o: Id, key: string, approved: bool)
    requires Awaits(d, o) && key !in d.recorded
    ensures (exists d' :: Leads(d, d') && d'.effects[Effect(key, o, approved)] >= 2)
       <==> !approved && d.sys.orders[o].attempts <= 1
  {
    if !approved && d.sys.orders[o].attempts <= 1 {
      var d' := RejectionTwice(d, o, key);
    } else {
      assert AttemptsFit(d.sys.orders[o]);
      forall d' | Leads(d, d') ensures d'.effects[Effect(key, o, approved)] <= 1 {
        var moves :| After(d, moves) == d';
        AtMostOnce(d, moves, o, key, approved);
      }
    }
  }

  // ---- What the record prevents ----

  /** The key is recorded, and every delivery that looked it up before that is over. */
  ghost predicate Closed(d: Desk, key: string) {
    && key in d.recorded
    && (forall f :: f in d.looked ==> d.looked[f].key != key)
    && (forall f :: f in d.flying ==> d.flying[f] != key)
  }

  lemma MakeStaysClosed(d: Desk, m: Move, key: string)
    requires Closed(d, key)
    ensures Closed(Make(d, m), key)
    ensures forall o, approved ::
              Make(d, m).effects[Effect(key, o, approved)] == d.effects[Effect(key, o, approved)]
  {
  }

  /** From then on no delivery under the key takes effect, whatever else runs or crashes. */
  lemma {:induction false} RecordedIsFinal(d: Desk, moves: seq<Move>, key: string)
    requires Closed(d, key)
    ensures Closed(After(d, moves), key)
    ensures forall o, approved ::
              After(d, moves).effects[Effect(key, o, approved)] == d.effects[Effect(key, o, approved)]
  {
    if moves != [] {
      RecordedIsFinal(d, moves[..|moves| - 1], key);
      MakeStaysClosed(After(d, moves[..|moves| - 1]), moves[|moves| - 1], key);
    }
  }
}
