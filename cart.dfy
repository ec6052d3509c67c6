/**
 * The client cart store: a list of lines, each a product with its quantity. Every operation
 * replaces the list with a new one built from the old; the totals are folds over it.
 */
module Cart {
  import opened Common

  datatype CartItem = CartItem(productId: int, name: string, price: real, quantity: int, imageUrl: Option<string>)

  /** The argument of `addItem`: a cart item without its quantity. */
  datatype NewItem = NewItem(productId: int, name: string, price: real, imageUrl: Option<string>)

  predicate InCart(items: seq<CartItem>, productId: int) {
    exists k :: 0 <= k < |items| && items[k].productId == productId
  }

  /** The invariant every operation keeps: no product appears on two lines. */
  predicate DistinctIds(items: seq<CartItem>) {
    forall i, j :: 0 <= i < j < |items| ==> items[i].productId != items[j].productId
  }

  /** `items.map(i => i.productId === id ? { ...i, quantity: q(i) } : i)`. */
  function SetQuantity(items: seq<CartItem>, productId: int, quantity: int): (r: seq<CartItem>)
    ensures |r| == |items|
    ensures forall k :: 0 <= k < |items| ==>
      r[k] == if items[k].productId == productId then items[k].(quantity := quantity) else items[k]
  {
    seq(|items|, k requires 0 <= k < |items| =>
      if items[k].productId == productId then items[k].(quantity := quantity) else items[k])
  }

  function Increment(items: seq<CartItem>, productId: int): (r: seq<CartItem>)
    ensures |r| == |items|
    ensures forall k :: 0 <= k < |items| ==>
      r[k] == if items[k].productId == productId then items[k].(quantity := items[k].quantity + 1) else items[k]
  {
    seq(|items|, k requires 0 <= k < |items| =>
      if items[k].productId == productId then items[k].(quantity := items[k].quantity + 1) else items[k])
  }

  /** `addItem`: one more of a product already in the cart, or a new line with quantity 1 at the end. */
  function AddItem(items: seq<CartItem>, item: NewItem): seq<CartItem> {
    if InCart(items, item.productId) then Increment(items, item.productId)
    else items + [CartItem(item.productId, item.name, item.price, 1, item.imageUrl)]
  }

  /** `removeItem`: `items.filter(i => i.productId !== productId)`. */
  function RemoveItem(items: seq<CartItem>, productId: int): seq<CartItem>
    decreases |items|
  {
    if items == [] then []
    else
      var last := items[|items| - 1];
      RemoveItem(items[..|items| - 1], productId) + (if last.productId == productId then [] else [last])
  }

  /** `updateQuantity`: a quantity of zero or less removes the line, otherwise it is set. */
  function UpdateQuantity(items: seq<CartItem>, productId: int, quantity: int): seq<CartItem> {
    if quantity <= 0 then RemoveItem(items, productId) else SetQuantity(items, productId, quantity)
  }

  /** `clearCart`. */
  function ClearCart(): (r: seq<CartItem>)
    ensures r == []
  {
    []
  }

  /** `totalItems`: `items.reduce((n, i) => n + i.quantity, 0)`. */
  function TotalItems(items: seq<CartItem>): int
    decreases |items|
  {
    if items == [] then 0 else TotalItems(items[..|items| - 1]) + items[|items| - 1].quantity
  }

  /** What one line costs: its unit price times its quantity. */
  function LineCost(item: CartItem): real {
    item.price * item.quantity as real
  }

  /** `totalPrice`: the sum of the line costs. */
  function TotalPrice(items: seq<CartItem>): real
    decreases |items|
  {
    if items == [] then 0.0 else TotalPrice(items[..|items| - 1]) + LineCost(items[|items| - 1])
  }

  // ---------------------------------------------------------------------------------------------
  // Folds over concatenations and single-line changes.

  lemma {:induction false} TotalsOfConcat(a: seq<CartItem>, b: seq<CartItem>)
    ensures TotalItems(a + b) == TotalItems(a) + TotalItems(b)
    ensures TotalPrice(a + b) == TotalPrice(a) + TotalPrice(b)
    decreases |b|
  {
    if b == [] {
      assert a + b == a;
    } else {
      var init := b[..|b| - 1];
      TotalsOfConcat(a, init);
      assert (a + b)[..|a + b| - 1] == a + init;
    }
  }

  /** Changing one line's quantity changes the totals by the difference on that line alone. */
  lemma {:induction false} TotalsOfUpdateAt(items: seq<CartItem>, k: int, quantity: int)
    requires 0 <= k < |items|
    ensures TotalItems(items[k := items[k].(quantity := quantity)]) == TotalItems(items) - items[k].quantity + quantity
    ensures TotalPrice(items[k := items[k].(quantity := quantity)]) ==
      TotalPrice(items) - LineCost(items[k]) + LineCost(items[k].(quantity := quantity))
    decreases |items|
  {
    var n := |items| - 1;
    var updated := items[k := items[k].(quantity := quantity)];
    if k == n {
      assert updated[..n] == items[..n];
    } else {
      TotalsOfUpdateAt(items[..n], k, quantity);
      assert updated[..n] == items[..n][k := items[k].(quantity := quantity)];
      assert updated[n] == items[n];
    }
  }

  /** Filtering out an id distributes over concatenation and leaves a list without that id alone. */
  lemma {:induction false} RemoveItemOfConcat(a: seq<CartItem>, b: seq<CartItem>, productId: int)
    ensures RemoveItem(a + b, productId) == RemoveItem(a, productId) + RemoveItem(b, productId)
    decreases |b|
  {
    if b == [] {
      assert a + b == a;
    } else {
      RemoveItemOfConcat(a, b[..|b| - 1], productId);
      assert (a + b)[..|a + b| - 1] == a + b[..|b| - 1];
    }
  }

  /** Removing a product that is not in the cart changes nothing. */
  lemma {:induction false} RemoveItemAbsent(items: seq<CartItem>, productId: int)
    requires !InCart(items, productId)
    ensures RemoveItem(items, productId) == items
    decreases |items|
  {
    if items != [] {
      var init := items[..|items| - 1];
      assert forall m :: 0 <= m < |init| ==> init[m] == items[m];
      RemoveItemAbsent(init, productId);
      assert init + [items[|items| - 1]] == items;
    }
  }

  /** Every line of the filtered list is a line of the original without the id, and no line is
      repeated that was not repeated before. */
  lemma {:induction false} RemoveItemSubset(items: seq<CartItem>, productId: int)
    ensures forall x :: x in RemoveItem(items, productId) <==> x in items && x.productId != productId
    ensures DistinctIds(items) ==> DistinctIds(RemoveItem(items, productId))
    decreases |items|
  {
    if items != [] {
      var init := items[..|items| - 1];
      var last := items[|items| - 1];
      RemoveItemSubset(init, productId);
      assert items == init + [last];
      if DistinctIds(items) {
        assert DistinctIds(init);
        var r := RemoveItem(items, productId);
        var ri := RemoveItem(init, productId);
        if last.productId != productId {
          assert r == ri + [last];
          forall i, j | 0 <= i < j < |r| ensures r[i].productId != r[j].productId {
            if j == |r| - 1 {
              assert r[i] in ri;
              assert r[i] in init;
              var m :| 0 <= m < |init| && init[m] == r[i];
              assert items[m] == r[i];
            }
          }
        }
      }
    }
  }

  // ---------------------------------------------------------------------------------------------
  // What each operation does.

  /** Adding a product not yet in the cart appends it with quantity 1; the other lines, the order
      and distinctness are kept, one more item is counted and its price is added. */
  lemma AddNewItem(items: seq<CartItem>, item: NewItem)
    requires !InCart(items, item.productId)
    ensures var r := AddItem(items, item);
      && |r| == |items| + 1 && r[..|items|] == items
      && r[|items|] == CartItem(item.productId, item.name, item.price, 1, item.imageUrl)
      && (DistinctIds(items) ==> DistinctIds(r))
      && TotalItems(r) == TotalItems(items) + 1
      && TotalPrice(r) == TotalPrice(items) + item.price
  {
    var line := CartItem(item.productId, item.name, item.price, 1, item.imageUrl);
    var r := AddItem(items, item);
    assert r == items + [line];
    TotalsOfConcat(items, [line]);
    assert [line][..0] == [];
    if DistinctIds(items) {
      forall i, j | 0 <= i < j < |r| ensures r[i].productId != r[j].productId {
        if j == |items| {
          assert r[i] == items[i];
        }
      }
    }
  }

  /** With distinct ids, raising the quantity of line `k`'s product touches line `k` alone. */
  lemma IncrementAt(items: seq<CartItem>, k: int)
    requires DistinctIds(items)
    requires 0 <= k < |items|
    ensures Increment(items, items[k].productId) == items[k := items[k].(quantity := items[k].quantity + 1)]
  {
    var r := Increment(items, items[k].productId);
    forall j | 0 <= j < |items| && j != k ensures r[j] == items[j] {
      if j < k {
        assert items[j].productId != items[k].productId;
      } else {
        assert items[k].productId != items[j].productId;
      }
    }
  }

  /** One more unit costs one more unit price. */
  lemma LineCostOfIncrement(x: CartItem)
    ensures LineCost(x.(quantity := x.quantity + 1)) == LineCost(x) + x.price
  {
    calc {
      LineCost(x.(quantity := x.quantity + 1));
      x.price * (x.quantity as real + 1.0);
      x.price * x.quantity as real + x.price;
    }
  }

  /** A change of quantities alone keeps ids distinct. */
  lemma SameIdsKeepDistinct(items: seq<CartItem>, r: seq<CartItem>)
    requires DistinctIds(items)
    requires |r| == |items| && forall m :: 0 <= m < |r| ==> r[m].productId == items[m].productId
    ensures DistinctIds(r)
  {
  }

  /** Adding a product already on line `k` raises that line's quantity by one and changes nothing
      else: same length, same order, same name and price; one more item, one more unit price. */
  lemma AddExistingItem(items: seq<CartItem>, item: NewItem, k: int)
    requires DistinctIds(items)
    requires 0 <= k < |items| && items[k].productId == item.productId
    ensures AddItem(items, item) == items[k := items[k].(quantity := items[k].quantity + 1)]
    ensures DistinctIds(AddItem(items, item))
    ensures TotalItems(AddItem(items, item)) == TotalItems(items) + 1
    ensures TotalPrice(AddItem(items, item)) == TotalPrice(items) + items[k].price
  {
    AddExistingIncrements(items, item, k);
    IncrementTotals(items, k);
  }

  lemma AddExistingIncrements(items: seq<CartItem>, item: NewItem, k: int)
    requires DistinctIds(items)
    requires 0 <= k < |items| && items[k].productId == item.productId
    ensures AddItem(items, item) == items[k := items[k].(quantity := items[k].quantity + 1)]
    ensures DistinctIds(AddItem(items, item))
  {
    assert InCart(items, item.productId);
    IncrementAt(items, k);
    SameIdsKeepDistinct(items, items[k := items[k].(quantity := items[k].quantity + 1)]);
  }

  /** One more unit on line `k` is one more item and one more unit price. */
  lemma IncrementTotals(items: seq<CartItem>, k: int)
    requires 0 <= k < |items|
    ensures TotalItems(items[k := items[k].(quantity := items[k].quantity + 1)]) == TotalItems(items) + 1
    ensures TotalPrice(items[k := items[k].(quantity := items[k].quantity + 1)]) == TotalPrice(items) + items[k].price
  {
    TotalsOfUpdateAt(items, k, items[k].quantity + 1);
    LineCostOfIncrement(items[k]);
  }

  /** With distinct ids, no line but line `k` carries its id. */
  lemma OnlyLineWithId(items: seq<CartItem>, k: int)
    requires DistinctIds(items)
    requires 0 <= k < |items|
    ensures !InCart(items[..k], items[k].productId) && !InCart(items[k + 1..], items[k].productId)
  {
    forall m | 0 <= m < k ensures items[..k][m].productId != items[k].productId {
      assert items[..k][m] == items[m];
    }
    var after := items[k + 1..];
    forall m | 0 <= m < |after| ensures after[m].productId != items[k].productId {
      assert after[m] == items[k + 1 + m];
    }
  }

  lemma RemoveOwnLine(x: CartItem)
    ensures RemoveItem([x], x.productId) == []
  {
    assert [x][..0] == [];
  }

  /** Filtering out the id of a line no line around it carries leaves the lines around it. */
  lemma RemoveBetween(before: seq<CartItem>, x: CartItem, after: seq<CartItem>)
    requires !InCart(before, x.productId) && !InCart(after, x.productId)
    ensures RemoveItem(before + [x] + after, x.productId) == before + after
  {
    var id := x.productId;
    RemoveItemOfConcat(before + [x], after, id);
    RemoveItemOfConcat(before, [x], id);
    RemoveItemAbsent(before, id);
    RemoveItemAbsent(after, id);
    RemoveOwnLine(x);
    assert before + [] == before;
  }

  /** Filtering out the id of line `k` when no other line has it leaves the lines around it. */
  lemma RemoveAt(items: seq<CartItem>, k: int)
    requires 0 <= k < |items|
    requires !InCart(items[..k], items[k].productId) && !InCart(items[k + 1..], items[k].productId)
    ensures RemoveItem(items, items[k].productId) == items[..k] + items[k + 1..]
  {
    assert items[..k + 1] == items[..k] + [items[k]];
    assert items[..k + 1] + items[k + 1..] == items;
    RemoveBetween(items[..k], items[k], items[k + 1..]);
  }

  lemma TotalsOfLine(x: CartItem)
    ensures TotalItems([x]) == x.quantity && TotalPrice([x]) == LineCost(x)
  {
    assert [x][..0] == [];
  }

  /** Dropping a line from between two others takes that line's share off both totals. */
  lemma TotalsBetween(before: seq<CartItem>, x: CartItem, after: seq<CartItem>)
    ensures TotalItems(before + after) == TotalItems(before + [x] + after) - x.quantity
    ensures TotalPrice(before + after) == TotalPrice(before + [x] + after) - LineCost(x)
  {
    TotalsOfConcat(before + [x], after);
    TotalsOfConcat(before, [x]);
    TotalsOfConcat(before, after);
    TotalsOfLine(x);
  }

  /** Dropping line `k` takes that line's share off both totals. */
  lemma TotalsWithoutLine(items: seq<CartItem>, k: int)
    requires 0 <= k < |items|
    ensures TotalItems(items[..k] + items[k + 1..]) == TotalItems(items) - items[k].quantity
    ensures TotalPrice(items[..k] + items[k + 1..]) == TotalPrice(items) - LineCost(items[k])
  {
    assert items[..k + 1] == items[..k] + [items[k]];
    assert items[..k + 1] + items[k + 1..] == items;
    TotalsBetween(items[..k], items[k], items[k + 1..]);
  }

  /** Removing the product on line `k` drops exactly that line and keeps the rest in order; the
      totals lose that line's share. */
  lemma RemovePresentItem(items: seq<CartItem>, k: int)
    requires DistinctIds(items)
    requires 0 <= k < |items|
    ensures var r := RemoveItem(items, items[k].productId);
      && r == items[..k] + items[k + 1..]
      && DistinctIds(r)
      && TotalItems(r) == TotalItems(items) - items[k].quantity
      && TotalPrice(r) == TotalPrice(items) - LineCost(items[k])
  {
    OnlyLineWithId(items, k);
    RemoveAt(items, k);
    RemoveItemSubset(items, items[k].productId);
    TotalsWithoutLine(items, k);
  }

  /** `updateQuantity` with a positive quantity sets that line alone; with zero or less it is
      `removeItem`; distinctness is kept either way. */
  lemma UpdateQuantityEffect(items: seq<CartItem>, k: int, quantity: int)
    requires DistinctIds(items)
    requires 0 <= k < |items|
    ensures var r := UpdateQuantity(items, items[k].productId, quantity);
      && (quantity <= 0 ==> r == RemoveItem(items, items[k].productId) && r == items[..k] + items[k + 1..])
      && (quantity > 0 ==>
            r == items[k := items[k].(quantity := quantity)]
            && TotalItems(r) == TotalItems(items) - items[k].quantity + quantity
            && TotalPrice(r) == TotalPrice(items) - LineCost(items[k]) + LineCost(r[k]))
      && DistinctIds(r)
  {
    if quantity <= 0 {
      RemovePresentItem(items, k);
    } else {
      var r := UpdateQuantity(items, items[k].productId, quantity);
      assert r == items[k := items[k].(quantity := quantity)];
      TotalsOfUpdateAt(items, k, quantity);
    }
  }

  /** Every operation keeps product ids distinct, for any argument. */
  lemma OperationsKeepDistinct(items: seq<CartItem>, item: NewItem, productId: int, quantity: int)
    requires DistinctIds(items)
    ensures DistinctIds(AddItem(items, item))
    ensures DistinctIds(RemoveItem(items, productId))
    ensures DistinctIds(UpdateQuantity(items, productId, quantity))
    ensures DistinctIds(ClearCart())
  {
    if InCart(items, item.productId) {
      var k :| 0 <= k < |items| && items[k].productId == item.productId;
      AddExistingItem(items, item, k);
    } else {
      AddNewItem(items, item);
    }
    RemoveItemSubset(items, productId);
  }

  /** An empty cart counts nothing and costs nothing. */
  lemma ClearedTotals()
    ensures TotalItems(ClearCart()) == 0 && TotalPrice(ClearCart()) == 0.0
  {
  }
}
