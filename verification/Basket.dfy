/**
 An order's item list refines a map from product to (line id, quantity): `add_item` and
 `remove_item` are updates of that map, and the price of a list depends on the map alone,
 so the order in which the database returns the lines does not matter.
 */
module Basket {
  import opened Domain

  type Entries = map<string, (Id, int)>

  /** The abstract basket of a list of lines. */
  ghost function Entry(item: OrderItem): (Id, int) { (item.id, item.quantity) }

  ghost function Contents(items: seq<OrderItem>): Entries {
    if items == [] then map[] else Contents(items[1..])[items[0].productId := Entry(items[0])]
  }

  ghost function AddEntry(m: Entries, productId: string, quantity: Quantity, newId: Id): Entries {
    if productId in m then m[productId := (m[productId].0, m[productId].1 + quantity)]
    else m[productId := (newId, quantity)]
  }

  ghost function RemoveEntry(m: Entries, itemId: Id): Entries {
    map p | p in m && m[p].0 != itemId :: m[p]
  }

  /** Distinct products and distinct line ids; quantities are positive by type. */
  ghost predicate WellFormed(items: seq<OrderItem>) {
    && (forall i, j :: 0 <= i < j < |items| ==> items[i].productId != items[j].productId)
    && (forall i, j :: 0 <= i < j < |items| ==> items[i].id != items[j].id)
  }

  lemma {:induction false} KeysAreProducts(items: seq<OrderItem>, p: string)
    ensures p in Contents(items) <==> exists i :: 0 <= i < |items| && items[i].productId == p
    ensures p in Contents(items) ==>
      exists i :: 0 <= i < |items| && items[i].productId == p && Contents(items)[p] == Entry(items[i])
  {
    if items != [] {
      KeysAreProducts(items[1..], p);
      assert forall i :: 0 <= i < |items[1..]| ==> items[1..][i] == items[i + 1];
      if items[0].productId != p && p in Contents(items[1..]) {
        var i :| 0 <= i < |items[1..]| && items[1..][i].productId == p
                     && Contents(items[1..])[p] == Entry(items[1..][i]);
        assert items[i + 1].productId == p;
      }
    }
  }

  lemma {:induction false} EntryAt(items: seq<OrderItem>, i: nat)
    requires WellFormed(items) && i < |items|
    ensures items[i].productId in Contents(items) && Contents(items)[items[i].productId] == Entry(items[i])
  {
    if i > 0 {
      EntryAt(items[1..], i - 1);
    }
  }

  // ---- add_item ----

  lemma AddEntryElsewhere(m: Entries, p: string, entry: (Id, int), productId: string, quantity: Quantity, newId: Id)
    requires p != productId
    ensures AddEntry(m[p := entry], productId, quantity, newId) == AddEntry(m, productId, quantity, newId)[p := entry]
  {
  }

  lemma {:induction false} AddLineRefines(items: seq<OrderItem>, productId: string, quantity: Quantity, newId: Id)
    ensures Contents(AddLine(items, productId, quantity, newId))
      == AddEntry(Contents(items), productId, quantity, newId)
  {
    if items == [] {
      assert AddLine(items, productId, quantity, newId)[1..] == [];
    } else if items[0].productId == productId {
      assert AddLine(items, productId, quantity, newId)[1..] == items[1..];
    } else {
      assert AddLine(items, productId, quantity, newId)[1..] == AddLine(items[1..], productId, quantity, newId);
      AddLineRefines(items[1..], productId, quantity, newId);
      AddEntryElsewhere(Contents(items[1..]), items[0].productId, Entry(items[0]), productId, quantity, newId);
    }
  }

  /** What `AddLine` leaves in place: every old line keeps id and product, and at most one line, of this product, is
      new. */
  lemma {:induction false} AddLineShape(items: seq<OrderItem>, productId: string, quantity: Quantity, newId: Id)
    ensures var r := AddLine(items, productId, quantity, newId);
      && |items| <= |r| <= |items| + 1
      && (forall i :: 0 <= i < |items| ==>
           r[i].id == items[i].id && r[i].productId == items[i].productId && r[i].unitPrice == items[i].unitPrice)
      && (|r| > |items| ==> r[|items|] == OrderItem(newId, productId, quantity, None))
      && (|r| > |items| <==> forall i :: 0 <= i < |items| ==> items[i].productId != productId)
  {
    if items != [] && items[0].productId != productId {
      AddLineShape(items[1..], productId, quantity, newId);
      assert forall i :: 0 <= i < |items[1..]| ==> items[1..][i] == items[i + 1];
    }
  }

  lemma AddLineKeepsWellFormed(items: seq<OrderItem>, productId: string, quantity: Quantity, newId: Id)
    requires WellFormed(items) && !HasItem(items, newId)
    ensures WellFormed(AddLine(items, productId, quantity, newId))
  {
    AddLineShape(items, productId, quantity, newId);
  }

  // ---- remove_item ----

  lemma {:induction false} RemoveLineAt(items: seq<OrderItem>, k: nat)
    requires k < |items| && forall i :: 0 <= i < k ==> items[i].id != items[k].id
    ensures RemoveLine(items, items[k].id) == items[..k] + items[k + 1..]
  {
    if k > 0 {
      var tail := items[1..];
      RemoveLineAt(tail, k - 1);
      assert items[..k] == [items[0]] + tail[..k - 1];
      assert items[k + 1..] == tail[k..];
    }
  }

  lemma {:induction false} RemoveLineRefines(items: seq<OrderItem>, itemId: Id)
    requires WellFormed(items)
    ensures Contents(RemoveLine(items, itemId)) == RemoveEntry(Contents(items), itemId)
  {
    if items != [] {
      var tail := items[1..];
      assert forall i :: 0 <= i < |tail| ==> tail[i] == items[i + 1];
      RemoveLineRefines(tail, itemId);
      var m := Contents(tail);
      KeysAreProducts(tail, items[0].productId);
      if items[0].id == itemId {
        forall p | p in m ensures m[p].0 != itemId {
          KeysAreProducts(tail, p);
        }
        assert RemoveEntry(Contents(items), itemId) == m;
      } else {
        assert RemoveLine(items, itemId)[1..] == RemoveLine(tail, itemId);
      }
    }
  }

  lemma RemoveLineKeepsWellFormed(items: seq<OrderItem>, itemId: Id)
    requires WellFormed(items)
    ensures WellFormed(RemoveLine(items, itemId))
    ensures !HasItem(RemoveLine(items, itemId), itemId)
    ensures forall i :: 0 <= i < |RemoveLine(items, itemId)| ==> RemoveLine(items, itemId)[i] in items
  {
  }

  // ---- In plain terms ----

  /** How much of a product the lines hold. */
  ghost function QuantityOf(items: seq<OrderItem>, productId: string): nat {
    if items == [] then 0
    else QuantityOf(items[1..], productId) + if items[0].productId == productId then items[0].quantity else 0
  }

  /** The lines hold `quantity` more of the product, and as much as before of any other. */
  ghost predicate MoreOf(items: seq<OrderItem>, items': seq<OrderItem>, productId: string, quantity: int) {
    forall p :: QuantityOf(items', p) == QuantityOf(items, p) + if p == productId then quantity else 0
  }

  /** The old lines are there still, but for quantities; a line is added at the end exactly if the product had none. */
  ghost predicate LinesKept(items: seq<OrderItem>, items': seq<OrderItem>, productId: string) {
    && |items'| == |items| + (if exists i :: 0 <= i < |items| && items[i].productId == productId then 0 else 1)
    && (forall i :: 0 <= i < |items| ==> items'[i] == items[i].(quantity := items'[i].quantity))
  }

  /** One line with the id is cut out, and no other has it. */
  ghost predicate WithoutLine(items: seq<OrderItem>, items': seq<OrderItem>, itemId: Id) {
    && (exists k :: 0 <= k < |items| && items[k].id == itemId && items' == items[..k] + items[k + 1..])
    && !HasItem(items', itemId)
  }

  lemma {:induction false} AddLineQuantity(items: seq<OrderItem>, productId: string, quantity: Quantity, newId: Id,
                                           p: string)
    ensures QuantityOf(AddLine(items, productId, quantity, newId), p)
         == QuantityOf(items, p) + if p == productId then quantity else 0
  {
    var r := AddLine(items, productId, quantity, newId);
    if items == [] {
      assert r[1..] == [];
    } else if items[0].productId == productId {
      assert r[1..] == items[1..];
    } else {
      assert r[1..] == AddLine(items[1..], productId, quantity, newId);
      AddLineQuantity(items[1..], productId, quantity, newId, p);
    }
  }

  lemma AddLineAdds(items: seq<OrderItem>, productId: string, quantity: Quantity, newId: Id)
    ensures MoreOf(items, AddLine(items, productId, quantity, newId), productId, quantity)
    ensures LinesKept(items, AddLine(items, productId, quantity, newId), productId)
  {
    forall p ensures QuantityOf(AddLine(items, productId, quantity, newId), p)
                  == QuantityOf(items, p) + if p == productId then quantity else 0
    {
      AddLineQuantity(items, productId, quantity, newId, p);
    }
    AddLineShape(items, productId, quantity, newId);
  }

  lemma RemoveLineRemoves(items: seq<OrderItem>, itemId: Id)
    requires WellFormed(items) && HasItem(items, itemId)
    ensures WithoutLine(items, RemoveLine(items, itemId), itemId)
  {
    var k :| 0 <= k < |items| && items[k].id == itemId;
    RemoveLineAt(items, k);
    RemoveLineKeepsWellFormed(items, itemId);
  }

  // ---- Any sequence of edits ----

  datatype Edit = Add(productId: string, quantity: Quantity, newId: Id) | Remove(itemId: Id)

  ghost function ApplyToEntries(m: Entries, e: Edit): Entries {
    match e
    case Add(p, q, newId) => AddEntry(m, p, q, newId)
    case Remove(itemId) => RemoveEntry(m, itemId)
  }

  ghost function ApplyAllToEntries(m: Entries, edits: seq<Edit>): Entries {
    if edits == [] then m else ApplyToEntries(ApplyAllToEntries(m, edits[..|edits| - 1]), edits[|edits| - 1])
  }

  // ---- The price depends on the basket alone ----

  lemma {:induction false} TotalOfParts(a: seq<(string, int)>, b: seq<(string, int)>, prices: map<string, int>)
    requires forall i :: 0 <= i < |a| ==> LineOk(a[i], prices)
    requires forall i :: 0 <= i < |b| ==> LineOk(b[i], prices)
    ensures forall i :: 0 <= i < |a + b| ==> LineOk((a + b)[i], prices)
    ensures Total(a + b, prices) == Total(a, prices) + Total(b, prices)
  {
    if b == [] {
      assert a + b == a;
    } else {
      TotalOfParts(a, b[..|b| - 1], prices);
      assert (a + b)[..|a + b| - 1] == a + b[..|b| - 1];
    }
  }

  ghost function ItemsTotal(items: seq<OrderItem>, prices: map<string, int>): nat
    requires AllPriced(items, prices)
  {
    PricedLinesOk(items, prices);
    Total(Lines(items), prices)
  }

  lemma TotalWithoutLine(items: seq<OrderItem>, k: nat, prices: map<string, int>)
    requires k < |items| && AllPriced(items, prices)
    ensures AllPriced(items[..k] + items[k + 1..], prices)
    ensures ItemsTotal(items, prices)
         == ItemsTotal(items[..k] + items[k + 1..], prices) + prices[items[k].productId] * items[k].quantity
  {
    var a, x, b := items[..k], [items[k]], items[k + 1..];
    assert items[k].productId in prices;
    PricedLinesOk(items, prices);
    PricedLinesOk(a, prices);
    PricedLinesOk(x, prices);
    PricedLinesOk(b, prices);
    TotalOfParts(Lines(a), Lines(b), prices);
    TotalOfParts(Lines(a), Lines(x), prices);
    TotalOfParts(Lines(a) + Lines(x), Lines(b), prices);
    assert Lines(a + b) == Lines(a) + Lines(b);
    assert Lines(items) == Lines(a) + Lines(x) + Lines(b);
    assert Lines(x)[..0] == [];
    assert Total(Lines(x), prices) == prices[items[k].productId] * items[k].quantity;
  }

  /** The first line of one list can be taken out of the other, and the rests still agree. */
  lemma MatchHead(a: seq<OrderItem>, b: seq<OrderItem>) returns (k: nat)
    requires WellFormed(a) && WellFormed(b) && Contents(a) == Contents(b) && a != []
    ensures k < |b| && Entry(b[k]) == Entry(a[0]) && b[k].productId == a[0].productId
    ensures WellFormed(b[..k] + b[k + 1..]) && Contents(b[..k] + b[k + 1..]) == Contents(a[1..])
  {
    EntryAt(a, 0);
    KeysAreProducts(b, a[0].productId);
    k :| 0 <= k < |b| && b[k].productId == a[0].productId && Contents(b)[a[0].productId] == Entry(b[k]);
    assert b[k].id == a[0].id;
    RemoveLineAt(b, k);
    assert RemoveLine(a, a[0].id) == a[1..];
    RemoveLineRefines(a, a[0].id);
    RemoveLineRefines(b, a[0].id);
    RemoveLineKeepsWellFormed(b, a[0].id);
  }

  lemma PricedWithLine(items: seq<OrderItem>, k: nat, prices: map<string, int>)
    requires k < |items| && AllPriced(items[..k] + items[k + 1..], prices)
    requires items[k].productId in prices && prices[items[k].productId] >= 0
    ensures AllPriced(items, prices)
  {
    var rest := items[..k] + items[k + 1..];
    forall i | 0 <= i < |items| ensures items[i].productId in prices && prices[items[i].productId] >= 0 {
      if i < k { assert rest[i] == items[i]; } else if i > k { assert rest[i - 1] == items[i]; }
    }
  }

  lemma TotalOfHead(items: seq<OrderItem>, prices: map<string, int>)
    requires items != [] && AllPriced(items, prices)
    ensures AllPriced(items[1..], prices)
    ensures ItemsTotal(items, prices) == ItemsTotal(items[1..], prices) + prices[items[0].productId] * items[0].quantity
  {
    TotalWithoutLine(items, 0, prices);
    assert items[..0] + items[0 + 1..] == items[1..];
  }

  /** Two lists of the same basket, in whatever order, price to the same total. */
  lemma {:induction false} SameBasketSameTotal(a: seq<OrderItem>, b: seq<OrderItem>, prices: map<string, int>)
    requires WellFormed(a) && WellFormed(b) && Contents(a) == Contents(b)
    requires AllPriced(a, prices)
    ensures AllPriced(b, prices) && ItemsTotal(a, prices) == ItemsTotal(b, prices)
  {
    if a == [] {
      if b != [] {
        EntryAt(b, 0);
      }
    } else {
      var k := MatchHead(a, b);
      TotalOfHead(a, prices);
      SameBasketSameTotal(a[1..], b[..k] + b[k + 1..], prices);
      assert a[0].productId in prices;
      PricedWithLine(b, k, prices);
      TotalWithoutLine(b, k, prices);
    }
  }
}
