/** The store's tables as the checkout code reads and writes them: products,
    inventory rows, orders, order items and transactions, together with the
    queries it runs on them and the stock bookkeeping of a capture. */
module Ledger {
  import opened Wrappers
  import opened Text
  import opened CartKeys
  import opened Money

  /** A row of `products`; the price is in cents. */
  datatype Product = Product(name: string, price: int, status: string, stock: int)

  /** A row of `product_inventory`; its row id is its position. */
  datatype InventoryRow = InventoryRow(productId: int, color: string, size: string, quantity: int)

  /** A row of `orders`; the total is in cents. */
  datatype Order = Order(
    id: int,
    customerName: string,
    customerEmail: string,
    customerAddress: string,
    status: string,
    paymentStatus: string,
    shippingFee: Decimal,
    total: int)

  /** A row of `order_items`: the product's name and price as they were when
      the order was created. */
  datatype OrderItem = OrderItem(
    orderId: int,
    productId: int,
    productName: string,
    color: string,
    size: string,
    quantity: int,
    price: int)

  /** A row of `transactions`. */
  datatype Transaction = Transaction(orderId: int, total: int)

  function RowKey(row: InventoryRow): Variant
  {
    (row.productId, row.color, row.size)
  }

  function ItemKey(item: OrderItem): Variant
  {
    (item.productId, item.color, item.size)
  }

  // ---------------------------------------------------------------------
  // Inventory queries
  // ---------------------------------------------------------------------

  /** SELECT ... FROM product_inventory WHERE product_id = ? AND color = ?
      AND size = ?, then fetchone(): the first row of that variant. */
  function FindRow(rows: seq<InventoryRow>, v: Variant): (r: Option<nat>)
    ensures r.Some? ==> r.value < |rows| && RowKey(rows[r.value]) == v
    ensures r.Some? ==> forall j :: 0 <= j < r.value ==> RowKey(rows[j]) != v
    ensures r.None? ==> forall j :: 0 <= j < |rows| ==> RowKey(rows[j]) != v
  {
    if rows == [] then None
    else
      match FindRow(rows[..|rows| - 1], v)
      case Some(j) => Some(j)
      case None => if RowKey(rows[|rows| - 1]) == v then Some(|rows| - 1) else None
  }

  /** The quantity column of that row, if there is one. */
  function RowQuantity(rows: seq<InventoryRow>, v: Variant): Option<int>
  {
    match FindRow(rows, v)
    case None => None
    case Some(j) => Some(rows[j].quantity)
  }

  /** SELECT COALESCE(SUM(quantity), 0) FROM product_inventory WHERE product_id = ?:
      0 when the product has no row, and never negative over non-negative rows. */
  function StockOf(rows: seq<InventoryRow>, productId: int): (total: int)
    ensures (forall j :: 0 <= j < |rows| ==> rows[j].productId != productId) ==> total == 0
    ensures NonNegative(rows) ==> total >= 0
  {
    if rows == [] then 0
    else
      var last := rows[|rows| - 1];
      StockOf(rows[..|rows| - 1], productId) + (if last.productId == productId then last.quantity else 0)
  }

  predicate NonNegative(rows: seq<InventoryRow>)
  {
    forall j :: 0 <= j < |rows| ==> rows[j].quantity >= 0
  }

  /** Two versions of the table that differ at most in their quantities. */
  predicate SameKeys(a: seq<InventoryRow>, b: seq<InventoryRow>)
  {
    |a| == |b| && forall j :: 0 <= j < |a| ==> RowKey(a[j]) == RowKey(b[j])
  }

  /** Changing quantities never changes which row a variant's lookup finds. */
  lemma {:induction false} FindRowSameKeys(a: seq<InventoryRow>, b: seq<InventoryRow>, v: Variant)
    requires SameKeys(a, b)
    ensures FindRow(a, v) == FindRow(b, v)
  {
    if a != [] {
      assert SameKeys(a[..|a| - 1], b[..|b| - 1]);
      FindRowSameKeys(a[..|a| - 1], b[..|b| - 1], v);
    }
  }

  /** UPDATE product_inventory SET quantity = q WHERE id = j changes the stock
      sum of row j's product by the difference and no other product's. */
  lemma {:induction false} StockOfUpdate(rows: seq<InventoryRow>, j: nat, q: int, productId: int)
    requires j < |rows|
    ensures StockOf(rows[j := rows[j].(quantity := q)], productId)
         == StockOf(rows, productId) + (if rows[j].productId == productId then q - rows[j].quantity else 0)
  {
    var updated := rows[j := rows[j].(quantity := q)];
    var n := |rows| - 1;
    if j == n {
      assert updated[..n] == rows[..n];
    } else {
      assert updated[..n] == rows[..n][j := rows[j].(quantity := q)];
      StockOfUpdate(rows[..n], j, q, productId);
    }
  }

  // ---------------------------------------------------------------------
  // Capture: stock check and decrements
  // ---------------------------------------------------------------------

  /** One pass of the decrement loop: the variant's row loses the line's
      quantity. A line without a row leaves the table as it is; the pre-check
      rules that case out. */
  function Decrement(rows: seq<InventoryRow>, item: OrderItem): (r: seq<InventoryRow>)
    ensures SameKeys(rows, r)
  {
    match FindRow(rows, ItemKey(item))
    case None => rows
    case Some(j) => rows[j := rows[j].(quantity := rows[j].quantity - item.quantity)]
  }

  /** The table after the decrement loop has run over `items` in order. */
  function ApplyDecrements(rows: seq<InventoryRow>, items: seq<OrderItem>): (r: seq<InventoryRow>)
    ensures SameKeys(rows, r)
  {
    if items == [] then rows
    else Decrement(ApplyDecrements(rows, items[..|items| - 1]), items[|items| - 1])
  }

  /** The decrement loop's next pass. */
  lemma ApplyDecrementsStep(rows: seq<InventoryRow>, items: seq<OrderItem>, i: nat, before: seq<InventoryRow>, after: seq<InventoryRow>)
    requires i < |items|
    requires before == ApplyDecrements(rows, items[..i]) && after == Decrement(before, items[i])
    ensures after == ApplyDecrements(rows, items[..i + 1])
  {
    assert items[..i + 1][..i] == items[..i];
  }

  /** The total quantity the lines ask of one variant. */
  function Demand(items: seq<OrderItem>, v: Variant): int
  {
    if items == [] then 0
    else
      var last := items[|items| - 1];
      Demand(items[..|items| - 1], v) + (if ItemKey(last) == v then last.quantity else 0)
  }

  /** The pre-check capture_paypal_order performs: every line on its own finds
      its row with at least the line's quantity. Put differently, each line
      taken alone off the table would leave its row at zero or more. */
  function LinesInStock(rows: seq<InventoryRow>, items: seq<OrderItem>): (ok: bool)
    ensures ok <==> forall i :: 0 <= i < |items| ==> FitsAlone(rows, items[i])
  {
    forall i :: 0 <= i < |items| ==>
      RowQuantity(rows, ItemKey(items[i])).Some? && RowQuantity(rows, ItemKey(items[i])).value >= items[i].quantity
  }

  /** The line's row exists and one pass of the decrement loop for this line
      alone leaves it at zero or more. */
  predicate FitsAlone(rows: seq<InventoryRow>, item: OrderItem)
  {
    FindRow(rows, ItemKey(item)).Some? && Decrement(rows, item)[FindRow(rows, ItemKey(item)).value].quantity >= 0
  }

  /** The pre-check the decrements need: every line's row holds at least what
      all the lines of that variant ask for together. */
  predicate DemandInStock(rows: seq<InventoryRow>, items: seq<OrderItem>)
  {
    forall i :: 0 <= i < |items| ==>
      RowQuantity(rows, ItemKey(items[i])).Some? && RowQuantity(rows, ItemKey(items[i])).value >= Demand(items, ItemKey(items[i]))
  }

  /** The row a variant's first lookup finds loses the whole demand for that
      variant; every other row keeps its quantity. */
  lemma {:induction false} ApplyDecrementsAt(rows: seq<InventoryRow>, items: seq<OrderItem>, j: nat)
    requires j < |rows|
    ensures ApplyDecrements(rows, items)[j].quantity
         == rows[j].quantity - (if FindRow(rows, RowKey(rows[j])) == Some(j) then Demand(items, RowKey(rows[j])) else 0)
  {
    if items != [] {
      var init := items[..|items| - 1];
      var last := items[|items| - 1];
      var before := ApplyDecrements(rows, init);
      ApplyDecrementsAt(rows, init, j);
      FindRowSameKeys(rows, before, ItemKey(last));
      FindRowSameKeys(rows, before, RowKey(rows[j]));
    }
  }

  /** With the demand pre-check, no row goes negative. */
  lemma DemandCheckKeepsStock(rows: seq<InventoryRow>, items: seq<OrderItem>)
    requires NonNegative(rows) && DemandInStock(rows, items)
    ensures NonNegative(ApplyDecrements(rows, items))
  {
    var after := ApplyDecrements(rows, items);
    forall j | 0 <= j < |after|
      ensures after[j].quantity >= 0
    {
      ApplyDecrementsAt(rows, items, j);
      var v := RowKey(rows[j]);
      if FindRow(rows, v) == Some(j) && Demand(items, v) != 0 {
        var i := DemandedBy(items, v);
        assert RowQuantity(rows, ItemKey(items[i])).value >= Demand(items, v);
      }
    }
  }

  /** A variant with a non-zero demand is asked for by some line. */
  lemma {:induction false} DemandedBy(items: seq<OrderItem>, v: Variant) returns (i: nat)
    requires Demand(items, v) != 0
    ensures i < |items| && ItemKey(items[i]) == v
  {
    var last := items[|items| - 1];
    if ItemKey(last) == v {
      i := |items| - 1;
    } else {
      i := DemandedBy(items[..|items| - 1], v);
    }
  }

  /** No two lines name the same variant. */
  predicate DistinctVariants(items: seq<OrderItem>)
  {
    forall i, k :: 0 <= i < k < |items| ==> ItemKey(items[i]) != ItemKey(items[k])
  }

  /** When the lines name distinct variants, a variant's demand is the
      quantity of its one line. */
  lemma {:induction false} DemandOfDistinct(items: seq<OrderItem>, i: nat)
    requires DistinctVariants(items) && i < |items|
    ensures Demand(items, ItemKey(items[i])) == items[i].quantity
  {
    var n := |items| - 1;
    var v := ItemKey(items[i]);
    if i == n {
      NoDemand(items[..n], v);
    } else {
      DemandOfDistinct(items[..n], i);
    }
  }

  lemma {:induction false} NoDemand(items: seq<OrderItem>, v: Variant)
    requires forall i :: 0 <= i < |items| ==> ItemKey(items[i]) != v
    ensures Demand(items, v) == 0
  {
    if items != [] {
      NoDemand(items[..|items| - 1], v);
    }
  }

  /** For lines with distinct variants the two pre-checks agree, and each
      variant's row drops by exactly its line's quantity. */
  lemma DistinctLinesChecksAgree(rows: seq<InventoryRow>, items: seq<OrderItem>)
    requires DistinctVariants(items)
    ensures LinesInStock(rows, items) <==> DemandInStock(rows, items)
    ensures forall i :: 0 <= i < |items| && FindRow(rows, ItemKey(items[i])).Some? ==>
      ApplyDecrements(rows, items)[FindRow(rows, ItemKey(items[i])).value].quantity
        == rows[FindRow(rows, ItemKey(items[i])).value].quantity - items[i].quantity
  {
    forall i | 0 <= i < |items|
      ensures Demand(items, ItemKey(items[i])) == items[i].quantity
    {
      DemandOfDistinct(items, i);
    }
    forall i | 0 <= i < |items| && FindRow(rows, ItemKey(items[i])).Some?
      ensures ApplyDecrements(rows, items)[FindRow(rows, ItemKey(items[i])).value].quantity
        == rows[FindRow(rows, ItemKey(items[i])).value].quantity - items[i].quantity
    {
      ApplyDecrementsAt(rows, items, FindRow(rows, ItemKey(items[i])).value);
    }
  }

  /** Two lines for one variant, one unit in stock: each line passes the
      capture pre-check on its own, and the decrements leave -1. */
  lemma LinesCheckOverdraws(row: InventoryRow, item: OrderItem)
    requires row.quantity == 1 && item.quantity == 1 && ItemKey(item) == RowKey(row)
    ensures LinesInStock([row], [item, item])
    ensures !DemandInStock([row], [item, item])
    ensures ApplyDecrements([row], [item, item])[0].quantity == -1
  {
    assert FindRow([row], ItemKey(item)) == Some(0);
    assert [item, item][..1] == [item] && [item][..0] == [];
    assert Demand([item], ItemKey(item)) == 1;
    assert Demand([item, item], ItemKey(item)) == 2;
    ApplyDecrementsAt([row], [item, item], 0);
  }

  /** The decrement loop changes exactly the stock sums of the products its
      lines name. */
  lemma {:induction false} DecrementStock(rows: seq<InventoryRow>, item: OrderItem, productId: int)
    requires item.productId != productId
    ensures StockOf(Decrement(rows, item), productId) == StockOf(rows, productId)
  {
    match FindRow(rows, ItemKey(item))
    case None =>
    case Some(j) =>
      StockOfUpdate(rows, j, rows[j].quantity - item.quantity, productId);
  }

  // ---------------------------------------------------------------------
  // Orders and transactions
  // ---------------------------------------------------------------------

  /** The payment_status of an order waiting for its capture. */
  function PendingStatus(paypalOrderId: string): string
  {
    "paypal_order:" + paypalOrderId
  }

  /** The payment_status of a captured order. */
  function PaidStatus(reference: string): string
  {
    "paid:" + reference
  }

  predicate IsPaid(paymentStatus: string)
  {
    StartsWith(paymentStatus, "paid:")
  }

  /** A captured order never again carries a status a capture accepts. */
  lemma PaidIsNotPending(reference: string, paypalOrderId: string)
    ensures IsPaid(PaidStatus(reference)) && !IsPaid(PendingStatus(paypalOrderId))
    ensures PaidStatus(reference) != PendingStatus(paypalOrderId)
    ensures !IsPaid("pending")
  {
    assert PaidStatus(reference)[..5] == "paid:";
    assert PendingStatus(paypalOrderId)[2] == 'y';
    assert PaidStatus(reference)[2] == 'i';
  }

  /** The number of transactions recorded for an order. */
  function TxCount(transactions: seq<Transaction>, orderId: int): nat
  {
    if transactions == [] then 0
    else
      var last := transactions[|transactions| - 1];
      TxCount(transactions[..|transactions| - 1], orderId) + (if last.orderId == orderId then 1 else 0)
  }

  lemma TxCountAppend(transactions: seq<Transaction>, t: Transaction, orderId: int)
    ensures TxCount(transactions + [t], orderId) == TxCount(transactions, orderId) + (if t.orderId == orderId then 1 else 0)
  {
    assert (transactions + [t])[..|transactions|] == transactions;
  }

  /** An order no transaction names has none. */
  lemma {:induction false} TxCountNone(transactions: seq<Transaction>, orderId: int)
    requires forall i :: 0 <= i < |transactions| ==> transactions[i].orderId != orderId
    ensures TxCount(transactions, orderId) == 0
  {
    if transactions != [] {
      TxCountNone(transactions[..|transactions| - 1], orderId);
    }
  }

  /** The bookkeeping the checkout keeps over its tables: order ids follow
      positions, every item and transaction names an existing order, and an
      order has one transaction when it is paid and none otherwise. */
  predicate Consistent(orders: seq<Order>, orderItems: seq<OrderItem>, transactions: seq<Transaction>)
  {
    && (forall i :: 0 <= i < |orders| ==> orders[i].id == i + 1)
    && (forall i :: 0 <= i < |orderItems| ==> 1 <= orderItems[i].orderId <= |orders|)
    && (forall i :: 0 <= i < |transactions| ==> 1 <= transactions[i].orderId <= |orders|)
    && (forall i :: 0 <= i < |orders| ==>
          TxCount(transactions, i + 1) == (if IsPaid(orders[i].paymentStatus) then 1 else 0))
  }

  /** Appending an unpaid order with its own items keeps the books, and a
      lookup of that order's items finds exactly them. */
  lemma PendingOrderConsistent(orders: seq<Order>, orderItems: seq<OrderItem>, transactions: seq<Transaction>,
                               order: Order, placed: seq<OrderItem>)
    requires Consistent(orders, orderItems, transactions)
    requires order.id == |orders| + 1 && !IsPaid(order.paymentStatus)
    requires forall i :: 0 <= i < |placed| ==> placed[i].orderId == order.id
    ensures Consistent(orders + [order], orderItems + placed, transactions)
    ensures ItemsOf(orderItems + placed, order.id) == placed
  {
    ItemsOfNewOrder(orderItems, placed, order.id);
    TxCountNone(transactions, order.id);
    var added := orders + [order];
    forall i | 0 <= i < |added|
      ensures TxCount(transactions, i + 1) == (if IsPaid(added[i].paymentStatus) then 1 else 0)
    {
      if i < |orders| {
        assert added[i] == orders[i];
      }
    }
  }

  /** Marking one unpaid order paid and recording its transaction keeps the
      books: that order goes from no transaction to exactly one. */
  lemma PaidOrderConsistent(orders: seq<Order>, orderItems: seq<OrderItem>, transactions: seq<Transaction>,
                            index: nat, reference: string)
    requires Consistent(orders, orderItems, transactions)
    requires index < |orders| && !IsPaid(orders[index].paymentStatus)
    ensures var paid := orders[index := orders[index].(status := "confirmed", paymentStatus := PaidStatus(reference))];
      var recorded := transactions + [Transaction(index + 1, orders[index].total)];
      && Consistent(paid, orderItems, recorded)
      && TxCount(transactions, index + 1) == 0 && TxCount(recorded, index + 1) == 1
  {
    var t := Transaction(index + 1, orders[index].total);
    var paid := orders[index := orders[index].(status := "confirmed", paymentStatus := PaidStatus(reference))];
    PaidIsNotPending(reference, "");
    forall i | 0 <= i < |paid|
      ensures TxCount(transactions + [t], i + 1) == (if IsPaid(paid[i].paymentStatus) then 1 else 0)
    {
      TxCountAppend(transactions, t, i + 1);
    }
  }

  /** SELECT * FROM orders WHERE payment_status = ? AND customer_email = ?
      ORDER BY id DESC LIMIT 1, for a table whose ids follow its order: the
      position of the last matching order. */
  function NewestMatching(orders: seq<Order>, paymentStatus: string, email: string): (r: Option<nat>)
    ensures r.Some? ==>
              r.value < |orders| && orders[r.value].paymentStatus == paymentStatus && orders[r.value].customerEmail == email
    ensures r.Some? ==> forall j :: r.value < j < |orders| ==>
      !(orders[j].paymentStatus == paymentStatus && orders[j].customerEmail == email)
    ensures r.None? ==> forall j :: 0 <= j < |orders| ==>
      !(orders[j].paymentStatus == paymentStatus && orders[j].customerEmail == email)
  {
    if orders == [] then None
    else
      var last := orders[|orders| - 1];
      if last.paymentStatus == paymentStatus && last.customerEmail == email then Some(|orders| - 1)
      else NewestMatching(orders[..|orders| - 1], paymentStatus, email)
  }

  /** SELECT * FROM order_items WHERE order_id = ?, in insertion order. */
  function ItemsOf(orderItems: seq<OrderItem>, orderId: int): (r: seq<OrderItem>)
    ensures |r| <= |orderItems|
    ensures forall i :: 0 <= i < |r| ==> r[i].orderId == orderId
  {
    if orderItems == [] then []
    else
      var last := orderItems[|orderItems| - 1];
      ItemsOf(orderItems[..|orderItems| - 1], orderId) + (if last.orderId == orderId then [last] else [])
  }

  /** Items appended for a new order are exactly that order's items. */
  lemma {:induction false} ItemsOfNewOrder(orderItems: seq<OrderItem>, added: seq<OrderItem>, orderId: int)
    requires forall i :: 0 <= i < |orderItems| ==> orderItems[i].orderId != orderId
    requires forall i :: 0 <= i < |added| ==> added[i].orderId == orderId
    ensures ItemsOf(orderItems + added, orderId) == added
  {
    if added == [] {
      ItemsOfNone(orderItems, orderId);
      assert orderItems + added == orderItems;
    } else {
      var n := |added| - 1;
      assert (orderItems + added)[..|orderItems| + n] == orderItems + added[..n];
      ItemsOfNewOrder(orderItems, added[..n], orderId);
      assert added[..n] + [added[n]] == added;
    }
  }

  lemma {:induction false} ItemsOfNone(orderItems: seq<OrderItem>, orderId: int)
    requires forall i :: 0 <= i < |orderItems| ==> orderItems[i].orderId != orderId
    ensures ItemsOf(orderItems, orderId) == []
  {
    if orderItems != [] {
      ItemsOfNone(orderItems[..|orderItems| - 1], orderId);
    }
  }

  /** Items appended for a new order leave every other order's items alone. */
  lemma {:induction false} ItemsOfOtherOrder(orderItems: seq<OrderItem>, added: seq<OrderItem>, orderId: int)
    requires forall i :: 0 <= i < |added| ==> added[i].orderId != orderId
    ensures ItemsOf(orderItems + added, orderId) == ItemsOf(orderItems, orderId)
  {
    if added == [] {
      assert orderItems + added == orderItems;
    } else {
      var n := |added| - 1;
      assert (orderItems + added)[..|orderItems| + n] == orderItems + added[..n];
      ItemsOfOtherOrder(orderItems, added[..n], orderId);
    }
  }
}
