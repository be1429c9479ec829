/** The confirmation saga: validate the customer, fetch every price, persist, publish, with its two compensations. */
module Saga {
  import opened Domain
  import opened Entities
  import opened Store
  import opened Behaviour

  method FetchCatalogPrices(items: seq<OrderItem>, catalog: nat -> CatalogReply) returns (r: Result<map<string, int>>)
    ensures r.Ok? <==> AllAvailable(|items|, catalog)
    ensures r.Ok? ==> r.value == Fetched(items, catalog)
    ensures r.Err? ==> r.error == CatalogValidation
  {
    var prices: map<string, int> := map[];
    for i := 0 to |items|
      invariant AllAvailable(i, catalog)
      invariant prices == Fetched(items[..i], catalog)
    {
      var product := catalog(i);
      if !ProductAvailable(product) {
        assert !AllAvailable(|items|, catalog);
        return Err(CatalogValidation);
      }
      assert items[..i + 1][..i] == items[..i];
      prices := prices[items[i].productId := product.price];
    }
    assert items[..|items|] == items;
    r := Ok(prices);
  }

  /** The version it saves always succeeds the stored one, so the save cannot be refused. */
  method PersistConfirmedOrder(db: Database, order: Order, prices: map<string, int>) returns (r: Result<()>)
    requires order.id in db.orders && db.orders[order.id] == order.Value()
    modifies db`orders, order
    ensures match ConfirmWithPrices(Bump(old(order.Value())), prices)
      case Ok(o) =>
        r.Ok? && order.Value() == o && db.Contents() == old(db.Contents()).(orders := old(db.orders)[o.id := o])
      case Err(e) => r == Err(e) && db.Contents() == old(db.Contents())
  {
    order.BumpVersion();
    r := order.ConfirmWithPrices(prices);
    if r.Ok? {
      r := db.SaveOrder(order);
    }
  }

  predicate OrderOutcome(r: Result<Order>, expected: Result<OrderRow>)
    reads if r.Ok? then {r.value} else {}
  {
    match r
    case Ok(o) => expected == Ok(o.Value())
    case Err(e) => expected == Err(e)
  }

  method Confirm(db: Database, orderId: Id, customer: CustomerReply, catalog: nat -> CatalogReply, queue: bool)
    returns (r: Result<Order>)
    requires orderId in db.orders ==> db.orders[orderId].id == orderId
    modifies db
    ensures db.Contents() == ConfirmBySaga(old(db.Contents()), orderId, customer, catalog, queue).db
    ensures OrderOutcome(r, ConfirmBySaga(old(db.Contents()), orderId, customer, catalog, queue).outcome)
    ensures r.Ok? ==> fresh(r.value)
  {
    var sagaId := db.NewId();
    ghost var drawn := db.Contents();
    var order := db.GetOrder(orderId);
    if order == null {
      return Err(OrderNotFound);
    }
    db.SaveSaga(sagaId, orderId, ValidateCustomer, Running, Empty);
    if !CustomerActive(customer) {
      db.SaveSaga(sagaId, orderId, ValidateCustomer, Failed, Reason("customer_invalid"));
      PutSagaTwice(drawn, sagaId, orderId, ValidateCustomer, Running, Empty, ValidateCustomer, Failed,
        Reason("customer_invalid"));
      return Err(CustomerValidation);
    }
    db.SaveSaga(sagaId, orderId, ValidateCatalog, Running, Empty);
    PutSagaTwice(drawn, sagaId, orderId, ValidateCustomer, Running, Empty, ValidateCatalog, Running, Empty);
    var prices := FetchCatalogPrices(order.items, catalog);
    if prices.Err? {
      db.SaveSaga(sagaId, orderId, ValidateCatalog, Compensated, Action("keep_draft"));
      PutSagaTwice(drawn, sagaId, orderId, ValidateCatalog, Running, Empty, ValidateCatalog, Compensated,
        Action("keep_draft"));
      return Err(CatalogValidation);
    }
    var persisted := PersistConfirmedOrder(db, order, prices.value);
    if persisted.Err? {
      return Err(persisted.error);
    }
    db.SaveSaga(sagaId, orderId, PersistConfirmed, Completed, TotalOf(order.total));
    PutSagaTwice(drawn, sagaId, orderId, ValidateCatalog, Running, Empty, PersistConfirmed, Completed,
      TotalOf(order.total));
    db.Publish(OrderConfirmed, orderId, queue);
    r := Ok(order);
  }
}
