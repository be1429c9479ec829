/**
 Listing a customer's orders page by page. The rows are exactly the customer's; their order is
 whatever the database gives (ties on created_at are not ordered by the code).
 */
module Paging {
  import opened Domain
  import opened Store

  datatype PaginatedResult<T> = PaginatedResult(items: seq<T>, total: int, page: int, size: int) {
    function TotalPages(): int {
      if size <= 0 then 0 else (total + size - 1) / size
    }

    predicate HasNext() { page < TotalPages() }

    predicate HasPrevious() { page > 1 }
  }

  /** SQL OFFSET and LIMIT. */
  function Slice<T>(list: seq<T>, offset: nat, limit: nat): seq<T> {
    if offset >= |list| then []
    else if offset + limit >= |list| then list[offset..]
    else list[offset..offset + limit]
  }

  function FindByCustomer<T>(list: seq<T>, page: int, size: int): PaginatedResult<T>
    requires page >= 1 && size >= 1
  {
    assert (page - 1) * size >= 0;
    PaginatedResult(Slice(list, (page - 1) * size, size), |list|, page, size)
  }

  /** The payments of the listed orders, by order id. */
  function FindByOrderIds(payments: map<Id, PaymentRow>, orders: map<Id, OrderRow>, ids: set<Id>): (r: map<Id,
                          PaymentRow>)
    requires PaymentConstraints(payments, orders)
    ensures forall o :: o in r <==> o in ids && PaymentOf(payments, o).Some?
    ensures forall o :: o in r ==> PaymentOf(payments, o) == Some(r[o])
  {
    map p | p in payments && payments[p].orderId in ids :: payments[p].orderId := payments[p]
  }

  function OrdersOf(orders: map<Id, OrderRow>, customerId: string): set<Id> {
    set o | o in orders && orders[o].customerId == customerId
  }

  /** What WHERE and ORDER BY select: every order of the customer, once, in some order. */
  predicate Listing(orders: map<Id, OrderRow>, customerId: string, list: seq<OrderRow>) {
    && (forall i :: 0 <= i < |list| ==> list[i].id in OrdersOf(orders, customerId) && orders[list[i].id] == list[i])
    && (forall i, j :: 0 <= i < j < |list| ==> list[i].id != list[j].id)
    && (forall o :: o in OrdersOf(orders, customerId) ==> exists i :: 0 <= i < |list| && list[i].id == o)
  }

  ghost function IdsOf(list: seq<OrderRow>): set<Id> { set i | 0 <= i < |list| :: list[i].id }

  lemma {:induction false} DistinctIds(list: seq<OrderRow>)
    requires forall i, j :: 0 <= i < j < |list| ==> list[i].id != list[j].id
    ensures |IdsOf(list)| == |list|
  {
    if list != [] {
      var init, last := list[..|list| - 1], list[|list| - 1];
      DistinctIds(init);
      assert last.id !in IdsOf(init);
      forall x ensures x in IdsOf(list) <==> x in IdsOf(init) + {last.id} {
        if x in IdsOf(init) {
          var i :| 0 <= i < |init| && init[i].id == x;
          assert list[i].id == x;
        }
      }
      assert IdsOf(list) == IdsOf(init) + {last.id};
    }
  }

  /** COUNT agrees with the rows. */
  lemma ListingCounts(orders: map<Id, OrderRow>, customerId: string, list: seq<OrderRow>)
    requires Listing(orders, customerId, list)
    ensures |list| == |OrdersOf(orders, customerId)|
  {
    DistinctIds(list);
    assert IdsOf(list) == OrdersOf(orders, customerId);
  }

  lemma SliceOfList<T>(list: seq<T>, offset: nat, limit: nat)
    ensures forall x :: x in Slice(list, offset, limit) ==> x in list
  {
  }

  lemma PageOfListing(orders: map<Id, OrderRow>, customerId: string, list: seq<OrderRow>, page: int, size: int)
    requires Listing(orders, customerId, list) && page >= 1 && size >= 1
    ensures var r := FindByCustomer(list, page, size);
      && r.total == |OrdersOf(orders, customerId)|
      && forall o :: o in r.items ==> o.id in orders && orders[o.id] == o && o.customerId == customerId
  {
    ListingCounts(orders, customerId, list);
    var offset := (page - 1) * size;
    assert offset >= 0;
    SliceOfList(list, offset, size);
  }

  /** ListOrdersUseCase: sizes are clamped to 1..100 and pages to 1 and up. */
  method ListOrders(db: Database, customerId: string, list: seq<OrderRow>, page: int, size: int)
    returns (result: PaginatedResult<OrderRow>, payments: map<Id, PaymentRow>)
    requires PaymentConstraints(db.payments, db.orders) && Listing(db.orders, customerId, list)
    ensures 1 <= result.size <= 100 && result.page >= 1
    ensures 1 <= size <= 100 ==> result.size == size
    ensures size < 1 ==> result.size == 1
    ensures size > 100 ==> result.size == 100
    ensures page >= 1 ==> result.page == page
    ensures page < 1 ==> result.page == 1
    ensures result == FindByCustomer(list, result.page, result.size)
    ensures result.total == |OrdersOf(db.orders, customerId)|
    ensures forall o :: o in result.items ==> o.id in db.orders && db.orders[o.id] == o && o.customerId == customerId
    ensures forall i :: 0 <= i < |result.items| ==>
      PaymentOf(db.payments, result.items[i].id) ==
        if result.items[i].id in payments then Some(payments[result.items[i].id]) else None
  {
    var atLeastOne := if size < 1 then 1 else size;
    var clamped := if atLeastOne > 100 then 100 else atLeastOne;
    var from := if page < 1 then 1 else page;
    result := FindByCustomer(list, from, clamped);
    PageOfListing(db.orders, customerId, list, from, clamped);
    payments := FindByOrderIds(db.payments, db.orders, set o | o in result.items :: o.id);
  }

  // ---- Arithmetic of pages ----

  lemma PageCount(n: nat, size: nat)
    requires size >= 1
    ensures var pages := (n + size - 1) / size; pages >= 0 && n <= pages * size < n + size
  {
  }

  lemma Scale(a: int, b: int, size: int)
    requires a <= b && size >= 0
    ensures a * size <= b * size
  {
  }

  lemma NextPage(page: int, size: int)
    ensures (page - 1) * size == page * size - size
    ensures (page + 1) * size == page * size + size
  {
  }

  lemma PageOffset(page: int, pages: int, size: int)
    requires size >= 1
    ensures page <= pages ==> page * size <= pages * size
    ensures page < pages ==> page * size + size <= pages * size
    ensures page > pages ==> page * size >= pages * size + size
    ensures (page - 1) * size == page * size - size
  {
    NextPage(page, size);
    NextPage(pages, size);
    if page < pages {
      Scale(page + 1, pages, size);
    } else if page > pages {
      Scale(pages + 1, page, size);
    }
  }

  /** A page from 1 up is empty exactly if it is beyond the last, and full if it is before it. */
  lemma PageIsFilled<T>(list: seq<T>, page: int, size: int)
    requires page >= 1 && size >= 1
    ensures var r := FindByCustomer(list, page, size);
      && (page <= r.TotalPages() <==> r.items != [])
      && (page < r.TotalPages() ==> |r.items| == size)
      && |r.items| <= size
  {
    var pages := (|list| + size - 1) / size;
    PageCount(|list|, size);
    PageOffset(page, pages, size);
    var at, last := page * size, pages * size;
    var offset := (page - 1) * size;
    assert offset == at - size && offset >= 0;
    var items := Slice(list, offset, size);
    assert FindByCustomer(list, page, size).items == items;
    assert page <= pages ==> offset < |list|;
    assert page > pages ==> offset >= |list|;
  }

  /** No page up to the last is empty, only the last may be short, and has_next tells whether the next page has
      anything. */
  lemma PageShape<T>(list: seq<T>, page: int, size: int)
    requires page >= 1 && size >= 1
    ensures var r := FindByCustomer(list, page, size);
      && (1 <= page <= r.TotalPages() <==> r.items != [])
      && (page < r.TotalPages() ==> |r.items| == size)
      && (r.HasNext() <==> FindByCustomer(list, page + 1, size).items != [])
      && (r.items != [] ==> (r.HasPrevious() <==> page != 1 && FindByCustomer(list, page - 1, size).items != []))
  {
    PageIsFilled(list, page, size);
    PageIsFilled(list, page + 1, size);
    if page > 1 {
      PageIsFilled(list, page - 1, size);
    }
  }

  /** The first pages, one after another. */
  ghost function FirstPages<T>(list: seq<T>, size: int, count: nat): seq<T>
    requires size >= 1
  {
    if count == 0 then [] else FirstPages(list, size, count - 1) + FindByCustomer(list, count, size).items
  }

  lemma {:induction false} FirstPagesArePrefix<T>(list: seq<T>, size: int, count: nat)
    requires size >= 1
    ensures count * size >= 0
    ensures FirstPages(list, size, count) == if count * size >= |list| then list else list[..count * size]
  {
    if count > 0 {
      FirstPagesArePrefix(list, size, count - 1);
      PageOffset(count, count, size);
      assert (count - 1) * size == count * size - size;
    }
  }

  /** All pages together are the list: no gap and no repeat. */
  lemma PagesMakeTheList<T>(list: seq<T>, size: int)
    requires size >= 1
    ensures var pages := FindByCustomer(list, 1, size).TotalPages(); pages >= 0 && FirstPages(list, size, pages) == list
  {
    PageCount(|list|, size);
    FirstPagesArePrefix(list, size, (|list| + size - 1) / size);
  }

  ghost predicate OnPage(list: seq<OrderRow>, size: int, page: int, o: Id)
    requires page >= 1 && size >= 1
  {
    exists i :: 0 <= i < |FindByCustomer(list, page, size).items| && FindByCustomer(list, page, size).items[i].id == o
  }

  /** Item i of a page is row (page - 1) * size + i of the list. */
  lemma ItemOfPage(list: seq<OrderRow>, size: int, page: int, i: nat)
    requires page >= 1 && size >= 1
    ensures var items := FindByCustomer(list, page, size).items; var at := (page - 1) * size + i;
      && (i < |items| <==> i < size && 0 <= at < |list|)
      && (i < |items| ==> items[i] == list[at])
  {
    assert (page - 1) * size >= 0;
  }

  lemma PageOfRow(k: nat, i: nat, page: int, size: int)
    requires page >= 1 && size >= 1 && i < size && k == (page - 1) * size + i
    ensures page - 1 == k / size
  {
    var q, r := k / size, k % size;
    assert k == q * size + r;
    if page - 1 < q {
      Scale(page, q, size);
      NextPage(page, size);
    } else if q < page - 1 {
      Scale(q + 1, page - 1, size);
      NextPage(q, size);
    }
  }

  lemma RowIsOnPage(list: seq<OrderRow>, size: int, k: nat) returns (page: int)
    requires size >= 1 && k < |list|
    ensures 1 <= page <= FindByCustomer(list, 1, size).TotalPages() && OnPage(list, size, page, list[k].id)
  {
    page := k / size + 1;
    var i := k % size;
    assert (page - 1) * size + i == k;
    ItemOfPage(list, size, page, i);
    PageIsFilled(list, page, size);
  }

  lemma RowIsOnNoOtherPage(list: seq<OrderRow>, size: int, page: int, other: int, o: Id)
    requires size >= 1 && page >= 1 && other >= 1 && OnPage(list, size, page, o) && OnPage(list, size, other, o)
    requires forall i, j :: 0 <= i < j < |list| ==> list[i].id != list[j].id
    ensures other == page
  {
    var items, others := FindByCustomer(list, page, size).items, FindByCustomer(list, other, size).items;
    var i :| 0 <= i < |items| && items[i].id == o;
    var j :| 0 <= j < |others| && others[j].id == o;
    ItemOfPage(list, size, page, i);
    ItemOfPage(list, size, other, j);
    PageOfRow((page - 1) * size + i, i, page, size);
    PageOfRow((page - 1) * size + i, j, other, size);
  }

  /** Every order of the customer is on exactly one page. */
  lemma EachOrderIsOnOnePage(orders: map<Id, OrderRow>, customerId: string, list: seq<OrderRow>, size: int, o: Id)
    returns (page: int)
    requires Listing(orders, customerId, list) && o in OrdersOf(orders, customerId) && size >= 1
    ensures 1 <= page <= FindByCustomer(list, 1, size).TotalPages() && OnPage(list, size, page, o)
    ensures forall other | other >= 1 :: OnPage(list, size, other, o) ==> other == page
  {
    var k: nat :| k < |list| && list[k].id == o;
    page := RowIsOnPage(list, size, k);
    forall other | other >= 1 && OnPage(list, size, other, o) ensures other == page {
      RowIsOnNoOtherPage(list, size, page, other, o);
    }
  }
}
