/**
 What an order holds after any serial run: exactly what the edits that were accepted say, taken as updates of a map
 from product to line id and quantity.
 */
module BasketRuns {
  import opened Domain
  import opened Store
  import opened Behaviour
  import opened Invariant
  import Basket
  import SerialRuns

  /** The edit of the order that the command makes, if it is accepted. */
  ghost function EditOf(db: Db, c: Command, o: Id): Option<Basket.Edit> {
    match c
    case DoAddItem(orderId, productId, quantity, product) =>
      if orderId == o && o in db.orders && product.Product? && product.available
         && db.orders[o].status == Draft && quantity > 0
      then Some(Basket.Add(productId, quantity, db.nextId)) else None
    case DoRemoveItem(orderId, itemId) =>
      if orderId == o && o in db.orders && db.orders[o].status == Draft then Some(Basket.Remove(itemId)) else None
    case _ => None
  }

  ghost function AcceptedEdits(commands: seq<Command>, o: Id): seq<Basket.Edit> {
    if commands == [] then []
    else
      var init := commands[..|commands| - 1];
      var edit := EditOf(Run(EMPTY, init), commands[|commands| - 1], o);
      AcceptedEdits(init, o) + if edit.Some? then [edit.value] else []
  }

  ghost function Edited(m: Basket.Entries, edit: Option<Basket.Edit>): Basket.Entries {
    if edit.Some? then Basket.ApplyToEntries(m, edit.value) else m
  }

  /** The order's basket takes the edit, if there is one; an order that appears is empty. */
  ghost predicate Follows(db: Db, db': Db, o: Id, edit: Option<Basket.Edit>) {
    && (o in db.orders ==>
          && o in db'.orders
          && Basket.Contents(db'.orders[o].items) == Edited(Basket.Contents(db.orders[o].items), edit))
    && (o !in db.orders ==> edit.None? && (o in db'.orders ==> db'.orders[o].items == []))
  }

  /** No order appears, and this one's lines stay. */
  ghost predicate SameItems(db: Db, db': Db, o: Id) {
    && db'.orders.Keys == db.orders.Keys
    && (o in db.orders ==> db'.orders[o].items == db.orders[o].items)
  }

  lemma SameItemsFollow(db: Db, db': Db, o: Id)
    requires SameItems(db, db', o)
    ensures Follows(db, db', o, None)
  {
  }

  // ---- One command ----

  lemma CreationEdits(db: Db, customerId: string, customer: CustomerReply, o: Id)
    requires Keyed(db)
    ensures Follows(db, Create(db, customerId, customer).db, o, None)
  {
  }

  lemma AdditionWrites(db: Db, orderId: Id, productId: string, quantity: int, product: CatalogReply, o: Id)
    requires Keyed(db) && o in db.orders
    ensures var db', edit := AddItemToOrder(db, orderId, productId, quantity, product).db,
                             EditOf(db, DoAddItem(orderId, productId, quantity, product), o);
      && o in db'.orders
      && db'.orders[o].items == if edit.Some? then AddLine(db.orders[o].items, productId, quantity, db.nextId)
                                else db.orders[o].items
  {
  }

  lemma AdditionEdits(db: Db, orderId: Id, productId: string, quantity: int, product: CatalogReply, o: Id)
    requires Keyed(db)
    ensures Follows(db, AddItemToOrder(db, orderId, productId, quantity, product).db, o,
                    EditOf(db, DoAddItem(orderId, productId, quantity, product), o))
  {
    if o in db.orders {
      AdditionWrites(db, orderId, productId, quantity, product, o);
      if quantity > 0 {
        Basket.AddLineRefines(db.orders[o].items, productId, quantity, db.nextId);
      }
    }
  }

  lemma RemovingNothing(items: seq<OrderItem>, itemId: Id)
    requires Basket.WellFormed(items) && !HasItem(items, itemId)
    ensures Basket.RemoveEntry(Basket.Contents(items), itemId) == Basket.Contents(items)
  {
    forall p | p in Basket.Contents(items) ensures Basket.Contents(items)[p].0 != itemId {
      Basket.KeysAreProducts(items, p);
    }
  }

  lemma RemovalWrites(db: Db, orderId: Id, itemId: Id, o: Id)
    requires Keyed(db) && o in db.orders
    ensures var db' := RemoveItemFromOrder(db, orderId, itemId).db;
      && o in db'.orders
      && db'.orders[o].items ==
           if orderId == o && db.orders[o].status == Draft && HasItem(db.orders[o].items, itemId)
           then RemoveLine(db.orders[o].items, itemId) else db.orders[o].items
  {
  }

  lemma RemovalEdits(db: Db, orderId: Id, itemId: Id, o: Id)
    requires Keyed(db) && (o in db.orders ==> Basket.WellFormed(db.orders[o].items))
    ensures Follows(db, RemoveItemFromOrder(db, orderId, itemId).db, o, EditOf(db, DoRemoveItem(orderId, itemId), o))
  {
    if o in db.orders {
      RemovalWrites(db, orderId, itemId, o);
      Basket.RemoveLineRefines(db.orders[o].items, itemId);
      if !HasItem(db.orders[o].items, itemId) {
        RemovingNothing(db.orders[o].items, itemId);
      }
    }
  }

  lemma {:induction false} PricesAreNoEntries(items: seq<OrderItem>, prices: map<string, int>)
    requires AllPriced(items, prices)
    ensures Basket.Contents(PriceItems(items, prices)) == Basket.Contents(items)
  {
    if items != [] {
      assert PriceItems(items, prices)[1..] == PriceItems(items[1..], prices);
      PricesAreNoEntries(items[1..], prices);
    }
  }

  lemma SagaWrites(db: Db, orderId: Id, customer: CustomerReply, catalog: nat -> CatalogReply, queue: bool, o: Id)
    requires Keyed(db)
    ensures var r := ConfirmBySaga(db, orderId, customer, catalog, queue);
      && r.db.orders.Keys == db.orders.Keys
      && (o in db.orders && !(o == orderId && r.outcome.Ok?) ==> r.db.orders[o].items == db.orders[o].items)
      && (r.outcome.Ok? ==>
            && orderId in db.orders && AllAvailable(|db.orders[orderId].items|, catalog)
            && AllPriced(db.orders[orderId].items, Fetched(db.orders[orderId].items, catalog))
            && r.db.orders[orderId].items
                 == PriceItems(db.orders[orderId].items, Fetched(db.orders[orderId].items, catalog)))
  {
    if ConfirmBySaga(db, orderId, customer, catalog, queue).outcome.Ok? {
      NoFaultIffAllPriced(db.orders[orderId].items, Fetched(db.orders[orderId].items, catalog));
    }
  }

  lemma SagaEdits(db: Db, orderId: Id, customer: CustomerReply, catalog: nat -> CatalogReply, queue: bool, o: Id)
    requires Keyed(db)
    ensures Follows(db, ConfirmBySaga(db, orderId, customer, catalog, queue).db, o, None)
  {
    SagaWrites(db, orderId, customer, catalog, queue, o);
    if o == orderId && ConfirmBySaga(db, orderId, customer, catalog, queue).outcome.Ok? {
      PricesAreNoEntries(db.orders[o].items, Fetched(db.orders[o].items, catalog));
    }
  }

  lemma ConfirmationEdits(db: Db, orderId: Id, key: Option<string>, customer: CustomerReply,
                          catalog: nat -> CatalogReply, queue: bool, o: Id)
    requires Keyed(db)
    ensures Follows(db, Confirm(db, orderId, key, customer, catalog, queue).db, o, None)
  {
    SagaEdits(db, orderId, customer, catalog, queue, o);
    SameItemsFollow(db, db, o);
  }

  lemma CancellationEdits(db: Db, orderId: Id, reason: Option<string>, queue: bool, o: Id)
    requires Keyed(db)
    ensures Follows(db, CancelWithPayment(db, orderId, reason, queue).db, o, None)
  {
    SameItemsFollow(db, CancelWithPayment(db, orderId, reason, queue).db, o);
  }

  lemma RequestEdits(db: Db, row: OrderRow, key: Option<string>, gateway: GatewayReply, queue: bool, o: Id)
    requires row.id in db.orders && db.orders[row.id] == row && MarkPaymentPending(Bump(row)).Ok?
    ensures SameItems(db, RequestPayment(db, row, key, gateway, queue).db, o)
  {
  }

  lemma InitiationEdits(db: Db, orderId: Id, key: Option<string>, gateway: GatewayReply, queue: bool, o: Id)
    requires Keyed(db)
    ensures Follows(db, Initiate(db, orderId, key, gateway, queue).db, o, None)
  {
    if orderId in db.orders && MarkPaymentPending(Bump(db.orders[orderId])).Ok? {
      RequestEdits(db, db.orders[orderId], key, gateway, queue, o);
    }
    SameItemsFollow(db, Initiate(db, orderId, key, gateway, queue).db, o);
  }

  lemma CallbackEdits(db: Db, paymentId: Id, status: string, transactionId: string, key: Option<string>, queue: bool,
                      o: Id)
    requires Keyed(db)
    ensures Follows(db, Callback(db, paymentId, status, transactionId, key, queue).db, o, None)
  {
    SameItemsFollow(db, Callback(db, paymentId, status, transactionId, key, queue).db, o);
  }

  lemma CommandEdits(db: Db, c: Command, o: Id)
    requires Keyed(db) && (o in db.orders ==> Basket.WellFormed(db.orders[o].items))
    ensures Follows(db, Exec(db, c), o, EditOf(db, c, o))
  {
    match c
    case DoCreate(customerId, customer) => CreationEdits(db, customerId, customer, o);
    case DoAddItem(orderId, p, q, product) => AdditionEdits(db, orderId, p, q, product, o);
    case DoRemoveItem(orderId, itemId) => RemovalEdits(db, orderId, itemId, o);
    case DoConfirm(orderId, k, customer, catalog, queue) =>
      ConfirmationEdits(db, orderId, k, customer, catalog, queue, o);
    case DoCancel(orderId, reason, queue) => CancellationEdits(db, orderId, reason, queue, o);
    case DoInitiate(orderId, k, gateway, queue) => InitiationEdits(db, orderId, k, gateway, queue, o);
    case DoCallback(p, status, txn, k, queue) => CallbackEdits(db, p, status, txn, k, queue, o);
  }

  // ---- Any run ----

  lemma AppliedLast(m: Basket.Entries, edits: seq<Basket.Edit>, e: Basket.Edit)
    ensures Basket.ApplyAllToEntries(m, edits + [e]) == Basket.ApplyToEntries(Basket.ApplyAllToEntries(m, edits), e)
  {
    assert (edits + [e])[..|edits|] == edits;
  }

  ghost predicate Tallies(db: Db, o: Id, edits: seq<Basket.Edit>) {
    if o in db.orders then Basket.Contents(db.orders[o].items) == Basket.ApplyAllToEntries(map[], edits)
    else edits == []
  }

  lemma TalliesOn(db: Db, db': Db, o: Id, edits: seq<Basket.Edit>, edit: Option<Basket.Edit>)
    requires Tallies(db, o, edits) && Follows(db, db', o, edit)
    ensures Tallies(db', o, edits + if edit.Some? then [edit.value] else [])
  {
    if edit.Some? {
      AppliedLast(map[], edits, edit.value);
    } else {
      assert edits + [] == edits;
    }
  }

  lemma {:induction false} RunEdits(commands: seq<Command>, o: Id)
    ensures Tallies(Run(EMPTY, commands), o, AcceptedEdits(commands, o))
  {
    if commands != [] {
      var init, c := commands[..|commands| - 1], commands[|commands| - 1];
      RunEdits(init, o);
      ItemsAreWellFormed(init, o);
      CommandEdits(Run(EMPTY, init), c, o);
      TalliesOn(Run(EMPTY, init), Run(EMPTY, commands), o, AcceptedEdits(init, o), EditOf(Run(EMPTY, init), c, o));
    }
  }

  lemma {:induction false} ItemsAreWellFormed(commands: seq<Command>, o: Id)
    ensures Keyed(Run(EMPTY, commands))
    ensures o in Run(EMPTY, commands).orders ==> Basket.WellFormed(Run(EMPTY, commands).orders[o].items)
  {
    SerialRuns.EveryRun(commands);
    if o in Run(EMPTY, commands).orders {
      assert Good(ViewOf(Run(EMPTY, commands), o));
    }
  }

  lemma {:induction false} QuantityIsEntry(items: seq<OrderItem>, p: string)
    requires Basket.WellFormed(items)
    ensures Basket.QuantityOf(items, p) == if p in Basket.Contents(items) then Basket.Contents(items)[p].1 else 0
  {
    if items != [] {
      var tail := items[1..];
      assert forall i :: 0 <= i < |tail| ==> tail[i] == items[i + 1];
      QuantityIsEntry(tail, p);
      Basket.KeysAreProducts(tail, items[0].productId);
    }
  }

  /** After any use cases in any order, an order holds of each product exactly what its accepted additions and removals
      make of an empty basket; pricing, payment and cancellation change no quantity. */
  lemma {:induction false} EditsRefineMap(commands: seq<Command>, o: Id, p: string)
    requires o in Run(EMPTY, commands).orders
    ensures var items, m := Run(EMPTY, commands).orders[o].items,
                            Basket.ApplyAllToEntries(map[], AcceptedEdits(commands, o));
      && Basket.Contents(items) == m
      && Basket.QuantityOf(items, p) == if p in m then m[p].1 else 0
  {
    RunEdits(commands, o);
    ItemsAreWellFormed(commands, o);
    QuantityIsEntry(Run(EMPTY, commands).orders[o].items, p);
  }
}
