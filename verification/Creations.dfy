/**
 CreateOrder as the code performs it: the customer's active orders are counted, then a row is inserted, and no
 constraint of the table stands in between. Everything else runs as in Interleaving.
 */
module Creations {
  import opened Domain
  import opened Store
  import opened Behaviour
  import opened Invariant
  import opened Interleaving
  import opened InterleavingProofs
  import opened Linearization

  /** A creation that found no active order of its customer. Ids are drawn in order, so the orders inserted since it
      asked are those from `since` on. */
  datatype Question = Question(customerId: string, since: Id)

  /** `asked` holds the creations that have not inserted yet. */
  datatype Service = Service(sys: Sys, asked: map<FlightId, Question>)

  const OPENED: Service := Service(START, map[])

  datatype Move = Ask(f: FlightId, customerId: string) | Insert(f: FlightId) | GiveUp(f: FlightId) | Other(step: Step)

  ghost function Make(s: Service, m: Move): Service {
    match m
    case Ask(f, c) =>
      if f in s.asked || HasActiveOrder(s.sys.orders, c, None) then s
      else s.(asked := s.asked[f := Question(c, s.sys.nextId)])
    case Insert(f) =>
      if f in s.asked then Service(Do(s.sys, Create(s.asked[f].customerId)), s.asked - {f})
      else s
    case GiveUp(f) => s.(asked := s.asked - {f})
    case Other(step) => if step.Create? then s else s.(sys := Do(s.sys, step))
  }

  ghost function MakeAll(moves: seq<Move>): Service {
    if moves == [] then OPENED else Make(MakeAll(moves[..|moves| - 1]), moves[|moves| - 1])
  }

  predicate ActiveFor(o: OrderRow, c: string) { IsActive(o) && o.customerId == c }

  ghost predicate OneActiveFor(s: Service, c: string) {
    var orders := s.sys.orders;
    forall a, b :: a in orders && b in orders && ActiveFor(orders[a], c) && ActiveFor(orders[b], c) ==> a == b
  }

  // ---- Exactly which inserts make a second active order ----

  /** An order of the customer that was inserted since the creation asked is active now. */
  ghost predicate Overtaken(s: Service, q: Question) {
    exists o :: o in s.sys.orders && o >= q.since && ActiveFor(s.sys.orders[o], q.customerId)
  }

  /** The move inserts no order of the customer on an answer that has been overtaken. */
  ghost predicate Fresh(s: Service, m: Move, c: string) {
    m.Insert? && m.f in s.asked && s.asked[m.f].customerId == c ==> !Overtaken(s, s.asked[m.f])
  }

  /** Orders that were there when a creation asked are not active for its customer, then or later. */
  ghost predicate QuestionOk(sys: Sys, q: Question) {
    q.since <= sys.nextId && forall o :: o in sys.orders && ActiveFor(sys.orders[o], q.customerId) ==> o >= q.since
  }

  ghost predicate ServiceOk(s: Service) {
    SysInv(s.sys) && forall f :: f in s.asked ==> QuestionOk(s.sys, s.asked[f])
  }

  /** No other step makes an order active or gives it to another customer. */
  lemma NoStepActivates(s: Sys, step: Step, o: Id, c: string)
    requires SysInv(s) && !step.Create? && o in Do(s, step).orders && ActiveFor(Do(s, step).orders[o], c)
    ensures o in s.orders && ActiveFor(s.orders[o], c)
  {
    if o !in s.orders {
      BornRow(s, step, o);
    }
    OneStepLater(s, step, o);
  }

  lemma IdsGrow(s: Sys, step: Step)
    ensures s.nextId <= Do(s, step).nextId
  {
    if step.Advance? && step.f in s.flights {
      AdvanceGrows(s, step.f, step.gateway);
    }
  }

  lemma AdvanceGrows(s: Sys, f: FlightId, gateway: GatewayReply)
    requires f in s.flights
    ensures s.nextId <= AdvanceFlight(s, f, s.flights[f], gateway).nextId
  {
    match s.flights[f]
    case CancelVoiding(_, _, p) => SaveDrawsNothing(s, p.(status := Void));
    case CallbackPaying(p, _, approved, txn) => SaveDrawsNothing(s, SettledPayment(p, approved, txn));
    case _ =>
  }

  lemma SaveDrawsNothing(s: Sys, p: PaymentRow)
    ensures SavePaymentRow(s, p).Some? ==> SavePaymentRow(s, p).value.nextId == s.nextId
  {
  }

  lemma QuestionStaysOk(s: Sys, step: Step, q: Question)
    requires SysInv(s) && QuestionOk(s, q)
    ensures QuestionOk(Do(s, step), q)
  {
    IdsGrow(s, step);
    forall o | o in Do(s, step).orders && ActiveFor(Do(s, step).orders[o], q.customerId) ensures o >= q.since {
      if !step.Create? {
        NoStepActivates(s, step, o, q.customerId);
      }
    }
  }

  lemma QuestionsStayOk(s: Service, step: Step)
    requires ServiceOk(s)
    ensures ServiceOk(s.(sys := Do(s.sys, step)))
  {
    DoKeeps(s.sys, step);
    forall f | f in s.asked ensures QuestionOk(Do(s.sys, step), s.asked[f]) {
      QuestionStaysOk(s.sys, step, s.asked[f]);
    }
  }

  lemma MakeKeepsOk(s: Service, m: Move)
    requires ServiceOk(s)
    ensures ServiceOk(Make(s, m))
  {
    match m
    case Ask(f, c) =>
    case Insert(f) => if f in s.asked { QuestionsStayOk(s, Create(s.asked[f].customerId)); }
    case GiveUp(f) =>
    case Other(step) => if !step.Create? { QuestionsStayOk(s, step); }
  }

  lemma {:induction false} EveryServiceIsOk(moves: seq<Move>)
    ensures ServiceOk(MakeAll(moves))
  {
    if moves != [] {
      EveryServiceIsOk(moves[..|moves| - 1]);
      MakeKeepsOk(MakeAll(moves[..|moves| - 1]), moves[|moves| - 1]);
    }
  }

  lemma OtherKeepsOneActive(s: Service, step: Step, c: string)
    requires SysInv(s.sys) && OneActiveFor(s, c) && !step.Create?
    ensures OneActiveFor(s.(sys := Do(s.sys, step)), c)
  {
    forall o | o in Do(s.sys, step).orders && ActiveFor(Do(s.sys, step).orders[o], c)
      ensures o in s.sys.orders && ActiveFor(s.sys.orders[o], c)
    {
      NoStepActivates(s.sys, step, o, c);
    }
  }

  lemma InsertKeepsOneActiveIff(s: Service, f: FlightId, c: string)
    requires SysInv(s.sys) && OneActiveFor(s, c) && f in s.asked
    ensures OneActiveFor(Make(s, Insert(f)), c)
       <==> (s.asked[f].customerId == c ==> !HasActiveOrder(s.sys.orders, c, None))
  {
    var orders, n, d := s.sys.orders, s.sys.nextId, s.asked[f].customerId;
    assert n !in orders;
    var orders' := orders[n := NewOrder(n, d)];
    assert Make(s, Insert(f)).sys.orders == orders';
    assert ActiveFor(orders'[n], d);
    if d == c && HasActiveOrder(orders, c, None) {
      var o :| o in orders && orders[o].customerId == c && orders[o].status in ACTIVE_ORDER_STATUSES;
      assert ActiveFor(orders'[o], c) && o != n;
    } else {
      forall o | o in orders' && ActiveFor(orders'[o], c) ensures if d == c then o == n else o in orders {
        assert o != n ==> orders'[o] == orders[o];
      }
    }
  }

  /** In a serviceable state the first answer counts for orders inserted since; there are no others. */
  lemma OvertakenIffActive(s: Service, f: FlightId)
    requires ServiceOk(s) && f in s.asked
    ensures Overtaken(s, s.asked[f]) <==> HasActiveOrder(s.sys.orders, s.asked[f].customerId, None)
  {
    var orders, q := s.sys.orders, s.asked[f];
    assert QuestionOk(s.sys, q);
    if HasActiveOrder(orders, q.customerId, None) {
      var o :| o in orders && orders[o].customerId == q.customerId && orders[o].status in ACTIVE_ORDER_STATUSES;
      assert ActiveFor(orders[o], q.customerId);
    }
  }

  lemma MoveKeepsOneActiveIff(s: Service, m: Move, c: string)
    requires ServiceOk(s) && OneActiveFor(s, c)
    ensures OneActiveFor(Make(s, m), c) <==> Fresh(s, m, c)
  {
    match m
    case Ask(f, d) =>
    case Insert(f) =>
      if f in s.asked {
        OvertakenIffActive(s, f);
        InsertKeepsOneActiveIff(s, f, c);
      }
    case GiveUp(f) =>
    case Other(step) => if !step.Create? { OtherKeepsOneActive(s, step, c); }
  }

  ghost predicate AlwaysOneActive(moves: seq<Move>, c: string) {
    forall i :: 0 <= i <= |moves| ==> OneActiveFor(MakeAll(moves[..i]), c)
  }

  ghost predicate AllFresh(moves: seq<Move>, c: string) {
    forall i :: 0 <= i < |moves| ==> Fresh(MakeAll(moves[..i]), moves[i], c)
  }

  lemma MakeOneMore(moves: seq<Move>, m: Move)
    ensures MakeAll(moves + [m]) == Make(MakeAll(moves), m)
  {
    assert (moves + [m])[..|moves|] == moves;
  }

  lemma OneMore(moves: seq<Move>, i: nat)
    requires i < |moves|
    ensures moves[..i + 1] == moves[..i] + [moves[i]]
  {
  }

  lemma MakeNext(moves: seq<Move>, i: nat)
    requires i < |moves|
    ensures MakeAll(moves[..i + 1]) == Make(MakeAll(moves[..i]), moves[i])
  {
    OneMore(moves, i);
    MakeOneMore(moves[..i], moves[i]);
  }

  lemma {:induction false} FreshKeepsOneActive(moves: seq<Move>, c: string, n: nat)
    requires AllFresh(moves, c) && n <= |moves|
    ensures OneActiveFor(MakeAll(moves[..n]), c)
  {
    if n > 0 {
      FreshKeepsOneActive(moves, c, n - 1);
      EveryServiceIsOk(moves[..n - 1]);
      MakeNext(moves, n - 1);
      MoveKeepsOneActiveIff(MakeAll(moves[..n - 1]), moves[n - 1], c);
    }
  }

  /** Any interleaving: the customer has at most one active order at all times, exactly if no creation inserts while an
      order inserted since its own question is active. */
  lemma OneActiveIff(moves: seq<Move>, c: string)
    ensures AlwaysOneActive(moves, c) <==> AllFresh(moves, c)
  {
    if AllFresh(moves, c) {
      forall i | 0 <= i <= |moves| ensures OneActiveFor(MakeAll(moves[..i]), c) {
        FreshKeepsOneActive(moves, c, i);
      }
    }
    if AlwaysOneActive(moves, c) {
      forall i | 0 <= i < |moves| ensures Fresh(MakeAll(moves[..i]), moves[i], c) {
        EveryServiceIsOk(moves[..i]);
        MakeNext(moves, i);
        MoveKeepsOneActiveIff(MakeAll(moves[..i]), moves[i], c);
      }
    }
  }

  // ---- Creations that overlap ----

  /** Two creations for the customer are between their two accesses. */
  ghost predicate Overlap(s: Service, c: string) {
    exists f, g ::
      f in s.asked && g in s.asked && f != g && s.asked[f].customerId == s.asked[g].customerId == c
  }

  ghost predicate NeverOverlap(moves: seq<Move>, c: string) {
    forall i :: 0 <= i <= |moves| ==> !Overlap(MakeAll(moves[..i]), c)
  }

  /** While a creation waits to insert, what it was told still holds. */
  ghost predicate AnswersHold(s: Service, c: string) {
    forall f :: f in s.asked && s.asked[f].customerId == c ==> !HasActiveOrder(s.sys.orders, c, None)
  }

  lemma OtherKeepsAnswers(s: Service, step: Step, c: string)
    requires SysInv(s.sys) && AnswersHold(s, c) && !step.Create?
    ensures AnswersHold(s.(sys := Do(s.sys, step)), c)
  {
    if HasActiveOrder(Do(s.sys, step).orders, c, None) {
      var orders := Do(s.sys, step).orders;
      var o :| o in orders && orders[o].customerId == c && orders[o].status in ACTIVE_ORDER_STATUSES;
      NoStepActivates(s.sys, step, o, c);
    }
  }

  /** An insert breaks what another creation for the same customer was told, and nothing else. */
  lemma MakeKeepsAnswers(s: Service, m: Move, c: string)
    requires SysInv(s.sys) && AnswersHold(s, c) && !Overlap(s, c)
    ensures AnswersHold(Make(s, m), c)
  {
    match m
    case Ask(f, d) =>
    case Insert(f) =>
    case GiveUp(f) =>
    case Other(step) => if !step.Create? { OtherKeepsAnswers(s, step, c); }
  }

  lemma {:induction false} ApartKeepsAnswers(moves: seq<Move>, c: string, n: nat)
    requires NeverOverlap(moves, c) && n <= |moves|
    ensures AnswersHold(MakeAll(moves[..n]), c)
  {
    if n > 0 {
      ApartKeepsAnswers(moves, c, n - 1);
      EveryServiceIsOk(moves[..n - 1]);
      MakeNext(moves, n - 1);
      MakeKeepsAnswers(MakeAll(moves[..n - 1]), moves[n - 1], c);
    }
  }

  /** Creations for the customer that never overlap are all fresh, so at most one order is active. */
  lemma ApartMeansOneActive(moves: seq<Move>, c: string)
    requires NeverOverlap(moves, c)
    ensures AlwaysOneActive(moves, c)
  {
    forall i | 0 <= i < |moves| ensures Fresh(MakeAll(moves[..i]), moves[i], c) {
      var s, m := MakeAll(moves[..i]), moves[i];
      ApartKeepsAnswers(moves, c, i);
      EveryServiceIsOk(moves[..i]);
      if m.Insert? && m.f in s.asked && s.asked[m.f].customerId == c {
        OvertakenIffActive(s, m.f);
      }
    }
    OneActiveIff(moves, c);
  }

  lemma BothInsert(s: Service, f: FlightId, g: FlightId, c: string)
    requires f in s.asked && g in s.asked && f != g && s.asked[f].customerId == s.asked[g].customerId == c
    ensures var a, b := s.sys.nextId, s.sys.nextId + 1;
      Make(Make(s, Insert(f)), Insert(g)).sys.orders == s.sys.orders[a := NewOrder(a, c)][b := NewOrder(b, c)]
  {
  }

  lemma TwoInsertsAreTwoActive(s: Service, f: FlightId, g: FlightId, c: string)
    requires f in s.asked && g in s.asked && f != g && s.asked[f].customerId == s.asked[g].customerId == c
    ensures !OneActiveFor(Make(Make(s, Insert(f)), Insert(g)), c)
  {
    BothInsert(s, f, g, c);
    var s' := Make(Make(s, Insert(f)), Insert(g));
    var a, b := s.sys.nextId, s.sys.nextId + 1;
    assert ActiveFor(s'.sys.orders[a], c) && ActiveFor(s'.sys.orders[b], c);
  }

  lemma InsertKeepsWithAnswers(s: Service, f: FlightId, c: string)
    requires SysInv(s.sys) && OneActiveFor(s, c) && AnswersHold(s, c)
    ensures SysInv(Make(s, Insert(f)).sys) && OneActiveFor(Make(s, Insert(f)), c)
  {
    if f in s.asked {
      InsertKeepsOneActiveIff(s, f, c);
      DoKeeps(s.sys, Create(s.asked[f].customerId));
    }
  }

  /** At most two inserts away from a second active order: exactly if two creations for the customer overlap, or one of
      them waits with an answer that no longer holds. */
  lemma SecondActiveIff(s: Service, c: string)
    requires SysInv(s.sys) && OneActiveFor(s, c)
    ensures Overlap(s, c) || !AnswersHold(s, c)
       <==> exists f, g :: !OneActiveFor(Make(Make(s, Insert(f)), Insert(g)), c)
  {
    if Overlap(s, c) {
      var f, g :| f in s.asked && g in s.asked && f != g && s.asked[f].customerId == s.asked[g].customerId == c;
      TwoInsertsAreTwoActive(s, f, g, c);
    } else if !AnswersHold(s, c) {
      var f :| f in s.asked && s.asked[f].customerId == c && HasActiveOrder(s.sys.orders, c, None);
      InsertKeepsOneActiveIff(s, f, c);
      assert Make(Make(s, Insert(f)), Insert(f)) == Make(s, Insert(f));
    } else {
      forall f, g ensures OneActiveFor(Make(Make(s, Insert(f)), Insert(g)), c) {
        InsertKeepsWithAnswers(s, f, c);
        MakeKeepsAnswers(s, Insert(f), c);
        InsertKeepsWithAnswers(Make(s, Insert(f)), g, c);
      }
    }
  }

  lemma BothAsk(c: string) returns (moves: seq<Move>)
    ensures MakeAll(moves) == Service(START, map[0 := Question(c, 0), 1 := Question(c, 0)])
  {
    MakeOneMore([], Ask(0, c));
    moves := [] + [Ask(0, c)];
    assert MakeAll(moves) == Service(START, map[0 := Question(c, 0)]);
    MakeOneMore(moves, Ask(1, c));
    moves := moves + [Ask(1, c)];
  }

  /** It happens: two creations for one customer ask before either inserts. */
  lemma TwoActiveOrdersAreReachable(c: string) returns (moves: seq<Move>)
    ensures MakeAll(moves).sys.orders == map[0 := NewOrder(0, c), 1 := NewOrder(1, c)]
  {
    var asked := BothAsk(c);
    MakeOneMore(asked, Insert(0));
    MakeOneMore(asked + [Insert(0)], Insert(1));
    moves := asked + [Insert(0)] + [Insert(1)];
    BothInsert(MakeAll(asked), 0, 1, c);
  }
}
