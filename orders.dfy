/**
 * The order placement route (POST /api/orders): validate the contact fields and the item list,
 * look every item up in the products table and check its stock, snapshot name and price, add up
 * the total, then insert one confirmed order, one order item per snapshot, and decrement stock.
 * Everything after the field check runs inside one SQLite transaction, so a thrown error leaves
 * the tables as they were.
 */
module Orders {
  import opened Common
  import JsText

  /** A `products` row as the route reads it (`SELECT id, name, price, stock`); the id is its key. */
  datatype Product = Product(name: string, price: real, stock: int)

  /** One entry of the request's `items` array. The route never checks that `quantity` is positive. */
  datatype OrderLine = OrderLine(productId: int, quantity: int)

  /** The JSON body; a field the client left out is None. */
  datatype OrderRequest = OrderRequest(
    customerName: Option<string>,
    customerEmail: Option<string>,
    phone: Option<string>,
    address: Option<string>,
    items: Option<seq<OrderLine>>)

  /** What the route remembers about one item between its validation loop and its write loop. */
  datatype Snapshot = Snapshot(productId: int, productName: string, unitPrice: real, quantity: int)

  datatype OrderStatus = Pending | Confirmed

  /** An `orders` row. */
  datatype Order = Order(
    id: int, customerName: string, customerEmail: string, phone: string, address: string,
    totalAmount: real, status: OrderStatus)

  /** An `order_items` row (its own autoincrement id is not modelled). */
  datatype OrderItem = OrderItem(orderId: int, productId: int, productName: string, unitPrice: real, quantity: int)

  /** The three ways the route answers 400. */
  datatype OrderError =
    | MissingRequiredFields
    | ProductNotFound(productId: int)
    | InsufficientStock(productName: string)

  /** The 201 body `{ orderId, totalAmount }`. */
  datatype Placed = Placed(orderId: int, totalAmount: real)

  /** The running state of the validation loop: the snapshots pushed so far and `totalAmount`. */
  datatype Tally = Tally(snapshots: seq<Snapshot>, total: real)

  /** The `error` text of the 400 response. */
  function ErrorMessage(e: OrderError): string {
    match e
    case MissingRequiredFields => "Missing required fields"
    case ProductNotFound(id) => "Product " + JsText.IntToDecimal(id) + " not found"
    case InsufficientStock(name) => "Insufficient stock for \"" + name + "\""
  }

  /** The guard before the transaction: four truthy contact fields and a non-empty `items`. */
  predicate RequestComplete(req: OrderRequest) {
    && Truthy(req.customerName)
    && Truthy(req.customerEmail)
    && Truthy(req.phone)
    && Truthy(req.address)
    && req.items.Some? && |req.items.value| > 0
  }

  /** The error one item raises on its own, looked up against the stock as it was before the order. */
  function LineError(products: map<int, Product>, line: OrderLine): Option<OrderError> {
    if line.productId !in products then Some(ProductNotFound(line.productId))
    else if products[line.productId].stock < line.quantity then Some(InsufficientStock(products[line.productId].name))
    else None
  }

  function SnapshotOf(products: map<int, Product>, line: OrderLine): Snapshot
    requires line.productId in products
  {
    Snapshot(line.productId, products[line.productId].name, products[line.productId].price, line.quantity)
  }

  /** What one line adds to the total: its price times its quantity. */
  function Cost(price: real, quantity: int): real {
    price * quantity as real
  }

  /** The validation loop run over `items`, one item at a time in input order; the first error stops it. */
  function Scan(products: map<int, Product>, items: seq<OrderLine>): Result<Tally, OrderError>
    decreases |items|
  {
    if items == [] then Ok(Tally([], 0.0))
    else
      var line := items[|items| - 1];
      match Scan(products, items[..|items| - 1])
      case Err(e) => Err(e)
      case Ok(t) =>
        match LineError(products, line)
        case Some(e) => Err(e)
        case None =>
          Ok(Tally(t.snapshots + [SnapshotOf(products, line)],
                   t.total + Cost(products[line.productId].price, line.quantity)))
  }

  /** The whole decision of the route, before anything is written. */
  function Validate(products: map<int, Product>, req: OrderRequest): Result<Tally, OrderError> {
    if !RequestComplete(req) then Err(MissingRequiredFields) else Scan(products, req.items.value)
  }

  /** The `order_items` rows inserted for the snapshots, in order. */
  function ItemsOf(orderId: int, snapshots: seq<Snapshot>): seq<OrderItem>
    decreases |snapshots|
  {
    if snapshots == [] then []
    else
      var s := snapshots[|snapshots| - 1];
      ItemsOf(orderId, snapshots[..|snapshots| - 1]) + [OrderItem(orderId, s.productId, s.productName, s.unitPrice, s.quantity)]
  }

  /** `UPDATE products SET stock = stock - ? WHERE id = ?` (a missing id matches no row). */
  function Decrement(products: map<int, Product>, productId: int, quantity: int): map<int, Product> {
    if productId in products then products[productId := products[productId].(stock := products[productId].stock - quantity)]
    else products
  }

  /** The stock updates of the write loop, one per snapshot in order. */
  function ApplyStock(products: map<int, Product>, snapshots: seq<Snapshot>): map<int, Product>
    decreases |snapshots|
  {
    if snapshots == [] then products
    else
      var s := snapshots[|snapshots| - 1];
      Decrement(ApplyStock(products, snapshots[..|snapshots| - 1]), s.productId, s.quantity)
  }

  // ---------------------------------------------------------------------------------------------
  // Reference definitions the route's results are compared with.

  /** The sum of the quantities of the lines that name `productId`. */
  function Demand(items: seq<OrderLine>, productId: int): int
    decreases |items|
  {
    if items == [] then 0
    else
      var line := items[|items| - 1];
      Demand(items[..|items| - 1], productId) + (if line.productId == productId then line.quantity else 0)
  }

  /** The sum of `price * quantity` over the lines, prices taken from the table. */
  function Charge(products: map<int, Product>, items: seq<OrderLine>): real
    requires forall k :: 0 <= k < |items| ==> items[k].productId in products
    decreases |items|
  {
    if items == [] then 0.0
    else
      var line := items[|items| - 1];
      Charge(products, items[..|items| - 1]) + Cost(products[line.productId].price, line.quantity)
  }

  /** The sum of `unitPrice * quantity` over stored order items. */
  function RowsTotal(rows: seq<OrderItem>): real
    decreases |rows|
  {
    if rows == [] then 0.0
    else RowsTotal(rows[..|rows| - 1]) + Cost(rows[|rows| - 1].unitPrice, rows[|rows| - 1].quantity)
  }

  function LinesOf(snapshots: seq<Snapshot>): (lines: seq<OrderLine>)
    ensures |lines| == |snapshots|
    ensures forall k :: 0 <= k < |snapshots| ==> lines[k] == OrderLine(snapshots[k].productId, snapshots[k].quantity)
  {
    seq(|snapshots|, k requires 0 <= k < |snapshots| => OrderLine(snapshots[k].productId, snapshots[k].quantity))
  }

  /** Item `k` is the first one that fails. */
  predicate FirstFailureAt(products: map<int, Product>, items: seq<OrderLine>, k: int) {
    && 0 <= k < |items|
    && LineError(products, items[k]).Some?
    && forall j :: 0 <= j < k ==> LineError(products, items[j]).None?
  }

  predicate DistinctProducts(items: seq<OrderLine>) {
    forall i, j :: 0 <= i < j < |items| ==> items[i].productId != items[j].productId
  }

  // ---------------------------------------------------------------------------------------------
  // The validation loop.

  /** Once the loop has thrown on a prefix, later items change nothing: the error is the first one. */
  lemma {:induction false} ScanErrPersists(products: map<int, Product>, items: seq<OrderLine>, n: nat)
    requires n <= |items|
    requires Scan(products, items[..n]).Err?
    ensures Scan(products, items) == Scan(products, items[..n])
    decreases |items|
  {
    if n == |items| {
      assert items[..n] == items;
    } else {
      var init := items[..|items| - 1];
      assert init[..n] == items[..n];
      ScanErrPersists(products, init, n);
    }
  }

  /** The loop succeeds exactly when no item fails on its own. */
  lemma {:induction false} ScanOkIff(products: map<int, Product>, items: seq<OrderLine>)
    ensures Scan(products, items).Ok? <==> forall k :: 0 <= k < |items| ==> LineError(products, items[k]).None?
    decreases |items|
  {
    if items != [] {
      var init := items[..|items| - 1];
      ScanOkIff(products, init);
      assert forall k :: 0 <= k < |init| ==> init[k] == items[k];
    }
  }

  /** A successful loop snapshots every item, in input order, with the name and price the table holds. */
  lemma {:induction false} ScanSnapshots(products: map<int, Product>, items: seq<OrderLine>)
    requires Scan(products, items).Ok?
    ensures forall k :: 0 <= k < |items| ==> items[k].productId in products
    ensures |Scan(products, items).value.snapshots| == |items|
    ensures forall k :: 0 <= k < |items| ==> Scan(products, items).value.snapshots[k] == SnapshotOf(products, items[k])
    decreases |items|
  {
    if items != [] {
      var init := items[..|items| - 1];
      var last := items[|items| - 1];
      assert Scan(products, init).Ok?;
      ScanSnapshots(products, init);
      var t := Scan(products, init).value;
      var snaps := Scan(products, items).value.snapshots;
      assert snaps == t.snapshots + [SnapshotOf(products, last)];
      forall k | 0 <= k < |items|
        ensures items[k].productId in products && snaps[k] == SnapshotOf(products, items[k])
      {
        if k < |init| {
          assert init[k] == items[k];
          assert snaps[k] == t.snapshots[k];
        }
      }
    }
  }

  /** A successful loop's running total is the sum of price * quantity over the items. */
  lemma {:induction false} ScanTotal(products: map<int, Product>, items: seq<OrderLine>)
    requires Scan(products, items).Ok?
    ensures forall k :: 0 <= k < |items| ==> items[k].productId in products
    ensures Scan(products, items).value.total == Charge(products, items)
    decreases |items|
  {
    ScanSnapshots(products, items);
    if items != [] {
      var init := items[..|items| - 1];
      assert Scan(products, init).Ok?;
      ScanTotal(products, init);
    }
  }

  /** The loop succeeds exactly when no item fails on its own, and then it snapshots every item in
      input order with the name and price the table holds, and its total is the sum of price * quantity. */
  lemma ScanSucceeds(products: map<int, Product>, items: seq<OrderLine>)
    ensures Scan(products, items).Ok? <==> forall k :: 0 <= k < |items| ==> LineError(products, items[k]).None?
    ensures Scan(products, items).Ok? ==>
      && (forall k :: 0 <= k < |items| ==> items[k].productId in products)
      && |Scan(products, items).value.snapshots| == |items|
      && (forall k :: 0 <= k < |items| ==> Scan(products, items).value.snapshots[k] == SnapshotOf(products, items[k]))
      && LinesOf(Scan(products, items).value.snapshots) == items
      && Scan(products, items).value.total == Charge(products, items)
  {
    ScanOkIff(products, items);
    if Scan(products, items).Ok? {
      ScanSnapshots(products, items);
      ScanTotal(products, items);
      var lines := LinesOf(Scan(products, items).value.snapshots);
      assert forall k :: 0 <= k < |items| ==> lines[k] == items[k];
    }
  }

  /** The loop fails exactly with the error of the first failing item. */
  lemma {:induction false} ScanFailsAtFirstFailure(products: map<int, Product>, items: seq<OrderLine>, k: int)
    requires FirstFailureAt(products, items, k)
    ensures Scan(products, items) == Err(LineError(products, items[k]).value)
  {
    var prefix := items[..k];
    assert forall j :: 0 <= j < k ==> prefix[j] == items[j];
    ScanSucceeds(products, prefix);
    var upTo := items[..k + 1];
    assert upTo[..k] == prefix;
    assert upTo[k] == items[k];
    assert Scan(products, upTo) == Err(LineError(products, items[k]).value);
    ScanErrPersists(products, items, k + 1);
  }

  /** When the loop fails there is a first failing item, and its error is the one reported. */
  lemma {:induction false} ScanErrorIsFirstFailure(products: map<int, Product>, items: seq<OrderLine>)
    requires Scan(products, items).Err?
    ensures exists k :: FirstFailureAt(products, items, k) && Scan(products, items).error == LineError(products, items[k]).value
    decreases |items|
  {
    var init := items[..|items| - 1];
    assert forall j :: 0 <= j < |init| ==> init[j] == items[j];
    if Scan(products, init).Err? {
      ScanErrorIsFirstFailure(products, init);
      var k :| FirstFailureAt(products, init, k) && Scan(products, init).error == LineError(products, init[k]).value;
      assert FirstFailureAt(products, items, k);
    } else {
      ScanSucceeds(products, init);
      assert FirstFailureAt(products, items, |items| - 1);
    }
  }

  /** The route's validation loop: pushes a snapshot per item and accumulates the total, throwing at
      the first missing product or short stock. */
  method CollectSnapshots(products: map<int, Product>, items: seq<OrderLine>) returns (r: Result<Tally, OrderError>)
    ensures r == Scan(products, items)
  {
    var snapshots: seq<Snapshot> := [];
    var totalAmount := 0.0;
    var i := 0;
    while i < |items|
      invariant 0 <= i <= |items|
      invariant Scan(products, items[..i]) == Ok(Tally(snapshots, totalAmount))
    {
      var line := items[i];
      assert items[..i + 1][..i] == items[..i];
      assert items[..i + 1][i] == line;
      if line.productId !in products {
        ScanErrPersists(products, items, i + 1);
        return Err(ProductNotFound(line.productId));
      }
      var row := products[line.productId];
      if row.stock < line.quantity {
        ScanErrPersists(products, items, i + 1);
        return Err(InsufficientStock(row.name));
      }
      assert LineError(products, line) == None;
      ghost var next := Scan(products, items[..i + 1]);
      assert next.Ok? && next.value.snapshots == snapshots + [SnapshotOf(products, line)];
      assert next.value.total == totalAmount + row.price * line.quantity as real;
      snapshots := snapshots + [Snapshot(line.productId, row.name, row.price, line.quantity)];
      totalAmount := totalAmount + row.price * line.quantity as real;
      i := i + 1;
    }
    assert items[..i] == items;
    return Ok(Tally(snapshots, totalAmount));
  }

  // ---------------------------------------------------------------------------------------------
  // The write loop.

  /** The write loop inserts one row per snapshot, in order, under the new order id. */
  lemma {:induction false} ItemsOfRows(orderId: int, snapshots: seq<Snapshot>)
    ensures |ItemsOf(orderId, snapshots)| == |snapshots|
    ensures forall k :: 0 <= k < |snapshots| ==>
      ItemsOf(orderId, snapshots)[k] ==
        OrderItem(orderId, snapshots[k].productId, snapshots[k].productName, snapshots[k].unitPrice, snapshots[k].quantity)
    decreases |snapshots|
  {
    if snapshots != [] {
      var init := snapshots[..|snapshots| - 1];
      ItemsOfRows(orderId, init);
    }
  }

  /** The write loop only changes `stock`, keeps every key, and lowers each product's stock by the
      summed quantity of the lines naming it; lines naming the same product are not aggregated
      before the check, so nothing here keeps stock non-negative. */
  lemma {:induction false} ApplyStockEffect(products: map<int, Product>, snapshots: seq<Snapshot>, productId: int)
    ensures ApplyStock(products, snapshots).Keys == products.Keys
    ensures productId in products ==>
      ApplyStock(products, snapshots)[productId] ==
        products[productId].(stock := products[productId].stock - Demand(LinesOf(snapshots), productId))
    decreases |snapshots|
  {
    if snapshots != [] {
      var init := snapshots[..|snapshots| - 1];
      ApplyStockEffect(products, init, productId);
      assert LinesOf(snapshots)[..|snapshots| - 1] == LinesOf(init);
    }
  }

  /** With distinct product ids and every line passing its check, no stock that was non-negative
      becomes negative. */
  lemma {:induction false} DemandOfDistinct(items: seq<OrderLine>, k: int)
    requires DistinctProducts(items)
    requires 0 <= k < |items|
    ensures Demand(items, items[k].productId) == items[k].quantity
    decreases |items|
  {
    var init := items[..|items| - 1];
    var last := items[|items| - 1];
    if k == |items| - 1 {
      DemandAbsent(init, last.productId);
    } else {
      assert init[k] == items[k];
      DemandOfDistinct(init, k);
    }
  }

  lemma {:induction false} DemandAbsent(items: seq<OrderLine>, productId: int)
    requires forall k :: 0 <= k < |items| ==> items[k].productId != productId
    ensures Demand(items, productId) == 0
    decreases |items|
  {
    if items != [] {
      DemandAbsent(items[..|items| - 1], productId);
    }
  }

  // ---------------------------------------------------------------------------------------------
  // The store and its transaction.

  /** The tables the route touches. `nextOrderId` is the autoincrement counter behind `lastInsertRowid`. */
  class Store {
    var products: map<int, Product>
    var orders: seq<Order>
    var orderItems: seq<OrderItem>
    var nextOrderId: int

    /** Order ids are increasing and below the counter; every item points below the counter. */
    ghost predicate Valid()
      reads this
    {
      && (forall k :: 0 <= k < |orders| ==> orders[k].id < nextOrderId)
      && (forall j, k :: 0 <= j < k < |orders| ==> orders[j].id < orders[k].id)
      && (forall k :: 0 <= k < |orderItems| ==> orderItems[k].orderId < nextOrderId)
    }

    constructor (catalogue: map<int, Product>)
      ensures Valid()
      ensures products == catalogue && orders == [] && orderItems == [] && nextOrderId == 1
    {
      products := catalogue;
      orders := [];
      orderItems := [];
      nextOrderId := 1;
    }

    /** The write loop: one order item and one stock update per snapshot, in order. */
    method WriteRows(orderId: int, snapshots: seq<Snapshot>)
      requires orderId < nextOrderId
      requires forall k :: 0 <= k < |orderItems| ==> orderItems[k].orderId < nextOrderId
      modifies this
      ensures orderItems == old(orderItems) + ItemsOf(orderId, snapshots)
      ensures products == ApplyStock(old(products), snapshots)
      ensures orders == old(orders) && nextOrderId == old(nextOrderId)
      ensures forall k :: 0 <= k < |orderItems| ==> orderItems[k].orderId < nextOrderId
    {
      var i := 0;
      while i < |snapshots|
        invariant 0 <= i <= |snapshots|
        invariant orderItems == old(orderItems) + ItemsOf(orderId, snapshots[..i])
        invariant products == ApplyStock(old(products), snapshots[..i])
        invariant orders == old(orders) && nextOrderId == old(nextOrderId)
        invariant forall k :: 0 <= k < |orderItems| ==> orderItems[k].orderId < nextOrderId
      {
        var s := snapshots[i];
        assert snapshots[..i + 1][..i] == snapshots[..i];
        assert snapshots[..i + 1][i] == s;
        orderItems := orderItems + [OrderItem(orderId, s.productId, s.productName, s.unitPrice, s.quantity)];
        if s.productId in products {
          products := products[s.productId := products[s.productId].(stock := products[s.productId].stock - s.quantity)];
        }
        i := i + 1;
      }
      assert snapshots[..i] == snapshots;
    }

    /** POST /api/orders. On an error nothing changes; on success exactly one confirmed order and one
        item per input line are appended and the stock of the named products is lowered. */
    method PlaceOrder(req: OrderRequest) returns (r: Result<Placed, OrderError>)
      requires Valid()
      modifies this
      ensures Valid()
      ensures r.Err? <==> Validate(old(products), req).Err?
      ensures r.Err? ==>
        && r.error == Validate(old(products), req).error
        && products == old(products) && orders == old(orders)
        && orderItems == old(orderItems) && nextOrderId == old(nextOrderId)
      ensures r.Ok? ==>
        var t := Validate(old(products), req).value;
        && r.value == Placed(old(nextOrderId), t.total)
        && orders == old(orders) + [Order(old(nextOrderId), req.customerName.value, req.customerEmail.value,
                                          req.phone.value, req.address.value, t.total, Confirmed)]
        && orderItems == old(orderItems) + ItemsOf(old(nextOrderId), t.snapshots)
        && products == ApplyStock(old(products), t.snapshots)
        && nextOrderId == old(nextOrderId) + 1
    {
      if !RequestComplete(req) {
        return Err(MissingRequiredFields);
      }
      var scanned := CollectSnapshots(products, req.items.value);
      if scanned.Err? {
        return Err(scanned.error);
      }
      var snapshots := scanned.value.snapshots;
      var totalAmount := scanned.value.total;

      var orderId := nextOrderId;
      orders := orders + [Order(orderId, req.customerName.value, req.customerEmail.value,
                                req.phone.value, req.address.value, totalAmount, Confirmed)];
      nextOrderId := nextOrderId + 1;

      WriteRows(orderId, snapshots);
      return Ok(Placed(orderId, totalAmount));
    }
  }

  // ---------------------------------------------------------------------------------------------
  // What a successful or failed order means, stated over the request.

  /** A request missing a contact field or items is refused before any lookup. */
  lemma IncompleteRequestRefused(products: map<int, Product>, req: OrderRequest)
    requires !Truthy(req.customerName) || !Truthy(req.customerEmail) || !Truthy(req.phone)
          || !Truthy(req.address) || req.items.None? || req.items.value == []
    ensures Validate(products, req) == Err(MissingRequiredFields)
  {
  }

  /** A complete request fails exactly with the first failing line's error (missing product or short
      stock, checked against the stock before the order), and otherwise succeeds with one snapshot
      per line and the total sum of price * quantity. */
  lemma ValidateOutcome(products: map<int, Product>, req: OrderRequest)
    requires RequestComplete(req)
    ensures forall k :: FirstFailureAt(products, req.items.value, k) ==>
      Validate(products, req) == Err(LineError(products, req.items.value[k]).value)
    ensures Validate(products, req).Err? ==>
      exists k :: FirstFailureAt(products, req.items.value, k) && Validate(products, req).error == LineError(products, req.items.value[k]).value
    ensures Validate(products, req).Ok? ==>
      && LinesOf(Validate(products, req).value.snapshots) == req.items.value
      && (forall k :: 0 <= k < |req.items.value| ==> req.items.value[k].productId in products)
      && Validate(products, req).value.total == Charge(products, req.items.value)
  {
    var items := req.items.value;
    forall k | FirstFailureAt(products, items, k)
      ensures Validate(products, req) == Err(LineError(products, items[k]).value)
    {
      ScanFailsAtFirstFailure(products, items, k);
    }
    if Scan(products, items).Err? {
      ScanErrorIsFirstFailure(products, items);
    }
    ScanSucceeds(products, items);
  }

  /** After a successful order the stored total equals the sum of unit price * quantity over its
      items, each item carries the name and price the product had, and each product's stock went
      down by the summed quantity of the lines naming it. */
  lemma SuccessfulOrderEffect(products: map<int, Product>, req: OrderRequest, orderId: int, productId: int)
    requires Validate(products, req).Ok?
    ensures var t := Validate(products, req).value;
      && RowsTotal(ItemsOf(orderId, t.snapshots)) == t.total
      && |ItemsOf(orderId, t.snapshots)| == |req.items.value|
      && (forall k :: 0 <= k < |req.items.value| ==>
            var line := req.items.value[k];
            && line.productId in products
            && ItemsOf(orderId, t.snapshots)[k] ==
                 OrderItem(orderId, line.productId, products[line.productId].name, products[line.productId].price, line.quantity))
      && ApplyStock(products, t.snapshots).Keys == products.Keys
      && (productId in products ==>
            ApplyStock(products, t.snapshots)[productId] ==
              products[productId].(stock := products[productId].stock - Demand(req.items.value, productId)))
  {
    assert Validate(products, req) == Scan(products, req.items.value);
    OrderRowsEffect(products, req.items.value, orderId);
    OrderStockEffect(products, req.items.value, productId);
  }

  /** The rows written for a successful scan: one per line, in order, with the product's name and
      price, adding up to the scan's total. */
  lemma OrderRowsEffect(products: map<int, Product>, items: seq<OrderLine>, orderId: int)
    requires Scan(products, items).Ok?
    ensures RowsTotal(ItemsOf(orderId, Scan(products, items).value.snapshots)) == Scan(products, items).value.total
    ensures |ItemsOf(orderId, Scan(products, items).value.snapshots)| == |items|
    ensures forall k :: 0 <= k < |items| ==>
      && items[k].productId in products
      && ItemsOf(orderId, Scan(products, items).value.snapshots)[k] ==
           OrderItem(orderId, items[k].productId, products[items[k].productId].name, products[items[k].productId].price, items[k].quantity)
  {
    ScanSucceeds(products, items);
    ItemsOfRows(orderId, Scan(products, items).value.snapshots);
    RowsOfSnapshots(orderId, products, items);
  }

  /** The stock writes of a successful scan keep every product and lower each stock by its demand. */
  lemma OrderStockEffect(products: map<int, Product>, items: seq<OrderLine>, productId: int)
    requires Scan(products, items).Ok?
    ensures ApplyStock(products, Scan(products, items).value.snapshots).Keys == products.Keys
    ensures productId in products ==>
      ApplyStock(products, Scan(products, items).value.snapshots)[productId] ==
        products[productId].(stock := products[productId].stock - Demand(items, productId))
  {
    ScanSucceeds(products, items);
    ApplyStockEffect(products, Scan(products, items).value.snapshots, productId);
  }

  /** The rows built from the loop's snapshots add up to the loop's running total. */
  lemma {:induction false} RowsOfSnapshots(orderId: int, products: map<int, Product>, items: seq<OrderLine>)
    requires Scan(products, items).Ok?
    ensures RowsTotal(ItemsOf(orderId, Scan(products, items).value.snapshots)) == Scan(products, items).value.total
    decreases |items|
  {
    if items != [] {
      var init := items[..|items| - 1];
      RowsOfSnapshots(orderId, products, init);
      var t := Scan(products, init).value;
      var s := Scan(products, items).value.snapshots;
      assert s[..|s| - 1] == t.snapshots;
    }
  }

  /** With distinct product ids, a successful order never drives a non-negative stock below zero,
      and a line asking for exactly the stock leaves zero. */
  lemma DistinctOrderKeepsStock(products: map<int, Product>, req: OrderRequest, productId: int)
    requires Validate(products, req).Ok?
    requires DistinctProducts(req.items.value)
    requires productId in products && products[productId].stock >= 0
    ensures var after := ApplyStock(products, Validate(products, req).value.snapshots);
      && productId in after && after[productId].stock >= 0
      && (forall k :: (0 <= k < |req.items.value| && req.items.value[k].productId == productId
                       && req.items.value[k].quantity == products[productId].stock) ==>
            after[productId].stock == 0)
  {
    var items := req.items.value;
    SuccessfulOrderEffect(products, req, 0, productId);
    ScanSucceeds(products, items);
    if k :| 0 <= k < |items| && items[k].productId == productId {
      DemandOfDistinct(items, k);
      assert LineError(products, items[k]).None?;
      forall k' | 0 <= k' < |items| && items[k'].productId == productId
        ensures k' == k
      {
      }
    } else {
      DemandAbsent(items, productId);
    }
  }

  /** Two lines naming the same product are each checked against the stock before the order, so a
      product with one unit left can be sold twice and end at -1. */
  lemma DuplicateLinesOversell()
    ensures var products := map[7 := Product("A", 10.0, 1)];
      var req := OrderRequest(Some("n"), Some("e"), Some("p"), Some("a"), Some([OrderLine(7, 1), OrderLine(7, 1)]));
      && Validate(products, req).Ok?
      && 7 in ApplyStock(products, Validate(products, req).value.snapshots)
      && ApplyStock(products, Validate(products, req).value.snapshots)[7].stock == -1
  {
    var products := map[7 := Product("A", 10.0, 1)];
    var items := [OrderLine(7, 1), OrderLine(7, 1)];
    var snap := Snapshot(7, "A", 10.0, 1);
    assert items[..1] == [OrderLine(7, 1)] && items[..1][..0] == [];
    assert Scan(products, items[..1][..0]) == Ok(Tally([], 0.0));
    assert LineError(products, items[0]) == None && LineError(products, items[1]) == None;
    var once := Scan(products, items[..1]);
    assert once.Ok? && once.value.snapshots == [snap];
    var twice := Scan(products, items);
    assert twice.Ok? && twice.value.snapshots == [snap, snap];
    var snaps := [snap, snap];
    assert snaps[..1] == [snap] && snaps[..1][..0] == [];
    assert ApplyStock(products, snaps[..1]) == map[7 := Product("A", 10.0, 0)];
  }

  /** A negative quantity passes the stock check, raises the stock and lowers the total. */
  lemma NegativeQuantityAccepted()
    ensures var products := map[7 := Product("A", 10.0, 0)];
      var req := OrderRequest(Some("n"), Some("e"), Some("p"), Some("a"), Some([OrderLine(7, -2)]));
      && Validate(products, req) == Ok(Tally([Snapshot(7, "A", 10.0, -2)], -20.0))
      && 7 in ApplyStock(products, Validate(products, req).value.snapshots)
      && ApplyStock(products, Validate(products, req).value.snapshots)[7].stock == 2
  {
    var products := map[7 := Product("A", 10.0, 0)];
    var items := [OrderLine(7, -2)];
    var snaps := [Snapshot(7, "A", 10.0, -2)];
    assert items[..0] == [] && snaps[..0] == [];
    assert Scan(products, items[..0]) == Ok(Tally([], 0.0));
    assert LineError(products, items[0]) == None;
    var r := Scan(products, items);
    assert r.Ok? && r.value.snapshots == snaps && r.value.total == -20.0;
    assert ApplyStock(products, snaps) == Decrement(products, 7, -2);
  }

  /** Product A has stock 5 and price 10: ordering 5 succeeds with total 50 and leaves 0; a second
      order for 1 then fails with insufficient stock and changes nothing. */
  method SoldOutScenario()
  {
    var store := new Store(map[1 := Product("A", 10.0, 5)]);
    var first := store.PlaceOrder(OrderRequest(Some("n"), Some("e"), Some("p"), Some("a"), Some([OrderLine(1, 5)])));
    assert [OrderLine(1, 5)][..0] == [];
    assert [Snapshot(1, "A", 10.0, 5)][..0] == [];
    assert first == Ok(Placed(1, 50.0));
    assert store.products[1].stock == 0;
    var second := store.PlaceOrder(OrderRequest(Some("n"), Some("e"), Some("p"), Some("a"), Some([OrderLine(1, 1)])));
    assert [OrderLine(1, 1)][..0] == [];
    assert second == Err(InsufficientStock("A"));
    assert store.products[1].stock == 0 && |store.orders| == 1;
  }
}
