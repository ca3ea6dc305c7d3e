/** The storefront's checkout as one object: the tables it reads and writes,
    the visitor's session cart, and the routes that change them (add, update
    and remove a cart line, create a PayPal order, capture it). The PayPal
    gateway's answers are parameters of the routes that call it. */
module Storefront {
  import opened Wrappers
  import opened Text
  import opened Money
  import opened Config
  import opened CartKeys
  import opened Shipping
  import opened Ledger
  import opened SessionCart

  /** Why a cart form was turned away (the message flashed to the visitor). */
  datatype CartError =
    | Unavailable        // no such product, or not active
    | MissingChoice      // no color or no size chosen
    | OutOfStock         // no inventory row, or a row at zero or below
    | InsufficientStock  // more than the row holds
    | InvalidQuantity    // a quantity that is not a run of digits
    | InvalidKey         // parse_cart_key raised ValueError

  /** A JSON error reply: the HTTP status and the "error" message. */
  datatype Failure = Failure(code: int, message: string)

  const IncompleteAddress := "Adresse de livraison incomplète."
  const EmptyCart := "Votre panier est vide."
  const UnknownAccount := "Compte utilisateur introuvable."
  const CreateStockShort := "Stock insuffisant pour finaliser la commande."
  const InvalidReply := "Réponse PayPal invalide."
  const MissingPaymentParameters := "Paramètres de paiement manquants."
  const Forbidden := "Accès non autorisé à cette commande."
  const OrderNotFound := "Commande introuvable."
  const InconsistentOrder := "Commande PayPal incohérente."
  const NotConfirmed := "Le paiement PayPal n'est pas confirmé."
  const CaptureStockShort := "Stock insuffisant après confirmation de paiement."

  const Active := "active"
  const Approve := "approve"
  const Completed := "COMPLETED"

  /** One entry of the "links" of a created PayPal order. */
  datatype Link = Link(rel: Option<string>, href: Option<string>)

  /** The gateway's answer to the order creation: its "id" and "links". */
  datatype CreateReply = CreateReply(id: Option<string>, links: seq<Link>)

  /** One purchase unit of a capture answer: the ids of payments.captures. */
  datatype PurchaseUnit = PurchaseUnit(captureIds: seq<Option<string>>)

  /** The gateway's answer to the capture: its "status" and "purchase_units". */
  datatype CaptureReply = CaptureReply(status: Option<string>, purchaseUnits: seq<PurchaseUnit>)

  /** The JSON reply of a created order. */
  datatype Created = Created(paypalOrderId: string, localOrderId: int, approveUrl: Option<string>)

  /** paypal_request: the configuration check comes first and its message is
      the error; a configured call gets the gateway's answer, or the error
      message of the RuntimeError it raised. */
  function PaypalRequest<T>(s: PaypalSettings, reply: Result<T, string>): (r: Result<T, string>)
    ensures !EnsurePaypalConfigured(s).0 ==> r == Err(EnsurePaypalConfigured(s).1)
    ensures EnsurePaypalConfigured(s).0 ==> r == reply
  {
    var (configured, message) := EnsurePaypalConfigured(s);
    if !configured then Err(message) else reply
  }

  /** The approval link: the href of the first link whose rel is "approve",
      and None when no link has that rel. */
  function ApproveUrl(links: seq<Link>): (url: Option<string>)
    ensures forall i ::
              (0 <= i < |links| && links[i].rel == Some(Approve) && forall j :: 0 <= j < i ==> links[j].rel != Some(Approve)) ==>
              url == links[i].href
    ensures (forall i :: 0 <= i < |links| ==> links[i].rel != Some(Approve)) ==> url == None
  {
    ApproveFrom(links, 0)
  }

  /** The approval link among links[start..]. */
  function ApproveFrom(links: seq<Link>, start: nat): (url: Option<string>)
    requires start <= |links|
    ensures forall i ::
              (start <= i < |links| && links[i].rel == Some(Approve) && forall j :: start <= j < i ==> links[j].rel != Some(Approve)) ==>
              url == links[i].href
    ensures (forall i :: start <= i < |links| ==> links[i].rel != Some(Approve)) ==> url == None
    decreases |links| - start
  {
    if start == |links| then None
    else if links[start].rel == Some(Approve) then links[start].href
    else ApproveFrom(links, start + 1)
  }

  /** next((link["href"] for link in links if link.get("rel") == "approve"), None) */
  method FindApproveUrl(links: seq<Link>) returns (url: Option<string>)
    ensures url == ApproveUrl(links)
  {
    url := None;
    var i := 0;
    while i < |links|
      invariant 0 <= i <= |links|
      invariant ApproveFrom(links, i) == ApproveUrl(links)
    {
      if links[i].rel == Some(Approve) {
        url := links[i].href;
        return;
      }
      i := i + 1;
    }
  }

  /** capture_id: the id of the first capture of the first purchase unit. */
  function CaptureId(reply: CaptureReply): (id: Option<string>)
    ensures id.Some? ==> |reply.purchaseUnits| > 0 && |reply.purchaseUnits[0].captureIds| > 0
  {
    if reply.purchaseUnits == [] || reply.purchaseUnits[0].captureIds == [] then None
    else reply.purchaseUnits[0].captureIds[0]
  }

  /** `capture_id or paypal_order_id`: a missing or empty capture id falls
      back to the PayPal order id. */
  function PaymentReference(captureId: Option<string>, paypalOrderId: string): (reference: string)
    ensures reference == paypalOrderId || (captureId == Some(reference) && reference != "")
    ensures paypalOrderId != "" ==> reference != ""
  {
    if captureId.Some? && captureId.value != "" then captureId.value else paypalOrderId
  }

  /** The order a capture works on. A truthy local id that names an order
      wins; otherwise the newest order waiting for this PayPal id placed with
      this email. Order ids are positions plus one. */
  function ResolveOrder(orders: seq<Order>, localOrderId: Option<int>, paypalOrderId: string, email: string): (r: Option<nat>)
    requires forall i :: 0 <= i < |orders| ==> orders[i].id == i + 1
    ensures r.Some? ==> r.value < |orders|
    ensures localOrderId.Some? && 1 <= localOrderId.value <= |orders| ==> r == Some(localOrderId.value - 1)
    ensures !(localOrderId.Some? && 1 <= localOrderId.value <= |orders|) ==>
              r == NewestMatching(orders, PendingStatus(paypalOrderId), email)
    ensures r.Some? ==> orders[r.value].id == r.value + 1
  {
    match localOrderId
    case Some(n) =>
      if 1 <= n <= |orders| then Some(n - 1)
      else NewestMatching(orders, PendingStatus(paypalOrderId), email)
    case None => NewestMatching(orders, PendingStatus(paypalOrderId), email)
  }

  /** The per-line stock check of create_paypal_order: each line finds its
      variant's row with at least the line's quantity. */
  predicate LinesAvailable(rows: seq<InventoryRow>, lines: seq<CartLine>)
  {
    forall i :: 0 <= i < |lines| ==> LineAvailable(rows, lines[i])
  }

  /** The variant's row exists and holds at least the line's quantity. */
  predicate LineAvailable(rows: seq<InventoryRow>, line: CartLine)
  {
    var row := RowQuantity(rows, (line.productId, line.color, line.size));
    row.Some? && row.value >= line.quantity
  }

  /** The order_items row inserted for a cart line: name and price are the
      product's at that moment. */
  function PlacedItem(orderId: int, line: CartLine): OrderItem
  {
    OrderItem(orderId, line.productId, line.product.name, line.color, line.size, line.quantity, line.product.price)
  }

  /** The order_items rows of a new order, one per cart line, in order. */
  function PlacedItems(orderId: int, lines: seq<CartLine>): (items: seq<OrderItem>)
    ensures |items| == |lines|
    ensures forall i :: 0 <= i < |lines| ==> items[i] == PlacedItem(orderId, lines[i])
  {
    if lines == [] then [] else PlacedItems(orderId, lines[..|lines| - 1]) + [PlacedItem(orderId, lines[|lines| - 1])]
  }

  /** The products a capture's lines name. */
  function ProductsOf(items: seq<OrderItem>): set<int>
  {
    if items == [] then {} else ProductsOf(items[..|items| - 1]) + {items[|items| - 1].productId}
  }

  /** The products table after UPDATE products SET stock = <sum of its rows>
      for every product in `touched`. */
  function Restocked(products: map<int, Product>, rows: seq<InventoryRow>, touched: set<int>): (r: map<int, Product>)
    ensures r.Keys == products.Keys
    ensures forall p :: p in r ==> r[p] == (if p in touched then products[p].(stock := StockOf(rows, p)) else products[p])
  {
    map p | p in products :: if p in touched then products[p].(stock := StockOf(rows, p)) else products[p]
  }

  /** One pass of the decrement loop on the table: fetch the variant's row,
      then UPDATE it to its quantity less the line's. */
  method TakeFromRow(rows: seq<InventoryRow>, item: OrderItem) returns (updated: seq<InventoryRow>)
    ensures updated == Decrement(rows, item)
  {
    match FindRow(rows, ItemKey(item)) {
      case Some(j) =>
        updated := rows[j := rows[j].(quantity := rows[j].quantity - item.quantity)];
      case None =>
        updated := rows;
    }
  }

  /** One more line in the products it names. */
  lemma ProductsOfStep(items: seq<OrderItem>, i: nat)
    requires i < |items|
    ensures ProductsOf(items[..i + 1]) == ProductsOf(items[..i]) + {items[i].productId}
  {
    assert items[..i + 1][..i] == items[..i];
  }

  /** Restocking a line's product against the table it decremented extends
      the restock of the products touched before it: the other products'
      sums do not move. */
  lemma RestockStep(original: map<int, Product>, before: seq<InventoryRow>, item: OrderItem, touched: set<int>)
    ensures var prior := Restocked(original, before, touched);
      var after := Decrement(before, item);
      (if item.productId in prior then prior[item.productId := prior[item.productId].(stock := StockOf(after, item.productId))] else prior)
        == Restocked(original, after, touched + {item.productId})
  {
    var prior := Restocked(original, before, touched);
    var after := Decrement(before, item);
    var updated := if item.productId in prior then prior[item.productId := prior[item.productId].(stock := StockOf(after, item.productId))] else prior;
    var expected := Restocked(original, after, touched + {item.productId});
    forall p | p in updated
      ensures updated[p] == expected[p]
    {
      if p != item.productId {
        DecrementStock(before, item, p);
      }
    }
  }

  /** The decrement loop of capture_paypal_order: each line takes its
      quantity off its variant's row, then the product's cached stock is set
      to the sum of its rows. */
  method DecrementInventory(inventory: seq<InventoryRow>, products: map<int, Product>, items: seq<OrderItem>)
    returns (rows: seq<InventoryRow>, table: map<int, Product>)
    ensures rows == ApplyDecrements(inventory, items)
    ensures table == Restocked(products, rows, ProductsOf(items))
  {
    rows, table := inventory, products;
    var i := 0;
    while i < |items|
      invariant 0 <= i <= |items|
      invariant rows == ApplyDecrements(inventory, items[..i])
      invariant table == Restocked(products, rows, ProductsOf(items[..i]))
    {
      var item := items[i];
      ghost var before, touched := rows, ProductsOf(items[..i]);
      ProductsOfStep(items, i);
      RestockStep(products, before, item, touched);
      rows := TakeFromRow(rows, item);
      ApplyDecrementsStep(inventory, items, i, before, rows);
      if item.productId in table {
        table := table[item.productId := table[item.productId].(stock := StockOf(rows, item.productId))];
      }
      i := i + 1;
    }
    assert items[..i] == items;
  }

  /** The checks of add_to_cart on the stripped color and size, in the
      route's order: an unknown or inactive product, a missing choice, no
      row or an empty one, then a row that cannot take one more unit than
      the cart already holds of the variant. */
  function AddCheck(products: map<int, Product>, inventory: seq<InventoryRow>, cart: map<string, int>,
                    productId: int, color: string, size: string): (r: Outcome<CartError>)
    ensures r.Pass? ==> productId in products && products[productId].status == Active && color != "" && size != ""
    ensures r.Pass? ==> RowQuantity(inventory, (productId, color, size)).Some?
    ensures r.Pass? ==> RowQuantity(inventory, (productId, color, size)).value > 0
  {
    var row := RowQuantity(inventory, (productId, color, size));
    var key := BuildCartKey(productId, color, size);
    var current := if key in cart then cart[key] else 0;
    if productId !in products || products[productId].status != Active then Fail(Unavailable)
    else if color == "" || size == "" then Fail(MissingChoice)
    else if row.None? || row.value <= 0 then Fail(OutOfStock)
    else if current + 1 > row.value then Fail(InsufficientStock)
    else Pass
  }

  /** With no negative quantity in the cart, the form goes through exactly
      when the product is active, both choices are made and the variant's
      row has room for one more unit than the cart holds; the separate
      empty-row check never decides on its own. */
  lemma AddCheckPasses(products: map<int, Product>, inventory: seq<InventoryRow>, cart: map<string, int>,
                       productId: int, color: string, size: string)
    requires forall k :: k in cart ==> cart[k] >= 0
    ensures var key := BuildCartKey(productId, color, size);
      var current := if key in cart then cart[key] else 0;
      var row := RowQuantity(inventory, (productId, color, size));
      AddCheck(products, inventory, cart, productId, color, size).Pass? <==>
        && productId in products && products[productId].status == Active
        && color != "" && size != ""
        && row.Some? && current + 1 <= row.value
    ensures var row := RowQuantity(inventory, (productId, color, size));
      AddCheck(products, inventory, cart, productId, color, size) == Fail(OutOfStock) <==>
        && productId in products && products[productId].status == Active
        && color != "" && size != ""
        && (row.None? || row.value <= 0)
  {
  }

  /** The loop of load_cart_items over the listed keys: a key whose product
      exists gives a line at the product's price, and the subtotal adds up
      the line totals. */
  method PriceLines(products: map<int, Product>, cart: map<string, int>, keys: seq<string>)
    returns (items: seq<CartLine>, subtotal: int)
    requires Listed(cart, keys)
    ensures items == Lines(products, cart, keys)
    ensures subtotal == Subtotal(items)
  {
    items, subtotal := [], 0;
    var i := 0;
    ListedPrefix(cart, keys, 0);
    while i < |keys|
      invariant 0 <= i <= |keys|
      invariant items == Lines(products, cart, keys[..i])
      invariant subtotal == Subtotal(items)
    {
      var key := keys[i];
      LinesStep(products, cart, keys, i);
      var found := KeyLine(products, cart, key);
      SubtotalAppendLines(items, found);
      items := items + found;
      subtotal := subtotal + Subtotal(found);
      i := i + 1;
    }
    assert keys[..i] == keys;
  }

  /** The answer of capture_paypal_order once the order is resolved, from
      the email check on: each check in the route's order, and the local
      order id when all of them pass. */
  function CaptureVerdict(order: Order, id: string, email: string, answer: Result<CaptureReply, string>,
                          stocked: bool): (r: Result<int, Failure>)
    ensures r.Ok? <==>
      && order.customerEmail == email && order.paymentStatus == PendingStatus(id)
      && answer.Ok? && answer.value.status == Some(Completed) && stocked
    ensures r.Ok? ==> r.value == order.id
  {
    if order.customerEmail != email then Err(Failure(403, Forbidden))
    else if order.paymentStatus != PendingStatus(id) then Err(Failure(409, InconsistentOrder))
    else if answer.Err? then Err(Failure(502, answer.error))
    else if answer.value.status != Some(Completed) then Err(Failure(409, NotConfirmed))
    else if !stocked then Err(Failure(409, CaptureStockShort))
    else Ok(order.id)
  }

  /** An order already paid is never captured again, whatever PayPal and
      the stock say. */
  lemma PaidOrderNotCaptured(order: Order, id: string, email: string, answer: Result<CaptureReply, string>, stocked: bool)
    ensures IsPaid(order.paymentStatus) ==> CaptureVerdict(order, id, email, answer, stocked).Err?
  {
    if IsPaid(order.paymentStatus) && order.customerEmail == email {
      PaidIsNotPending("", id);
    }
  }

  /** The stock pre-check of a capture: per line as the route is written,
      or per variant as corrected. */
  datatype PreCheck = PerLine | PerVariant

  /** Whether the rows pass the chosen pre-check for these items. */
  predicate Covered(check: PreCheck, rows: seq<InventoryRow>, items: seq<OrderItem>)
  {
    match check
    case PerLine => LinesInStock(rows, items)
    case PerVariant => DemandInStock(rows, items)
  }

  /** The stock check of create_paypal_order on the cart lines is the
      capture's per-line check on the items the order stores for them. */
  lemma CreateCheckMatchesCapture(rows: seq<InventoryRow>, orderId: int, lines: seq<CartLine>)
    ensures LinesAvailable(rows, lines) <==> LinesInStock(rows, PlacedItems(orderId, lines))
  {
  }

  class Store {
    /** products, by id. */
    var products: map<int, Product>
    /** product_inventory, in row-id order. */
    var inventory: seq<InventoryRow>
    /** users: the email of each account id. */
    var users: map<int, string>
    /** orders, in id order. */
    var orders: seq<Order>
    /** order_items, in insertion order. */
    var orderItems: seq<OrderItem>
    /** transactions, in insertion order. */
    var transactions: seq<Transaction>
    /** session["cart"] and the insertion order of its keys. */
    var cart: map<string, int>
    var cartOrder: seq<string>
    /** The PayPal settings and SHIPPING_FEE read at start-up. */
    const settings: PaypalSettings
    const shippingFee: Decimal

    /** What the routes keep true: the session cart is well formed, no
        inventory row is negative, and the order books are consistent. */
    predicate Valid()
      reads this
    {
      CartValid() && StockValid() && BooksValid()
    }

    /** The session cart's part: keys listed once each, readable, with
        positive quantities. */
    predicate CartValid()
      reads this`cart, this`cartOrder
    {
      WellFormed(cart, cartOrder)
    }

    /** The inventory's part: no row is negative. */
    predicate StockValid()
      reads this`inventory
    {
      NonNegative(inventory)
    }

    /** The order books' part: orders, items and transactions that agree. */
    predicate BooksValid()
      reads this`orders, this`orderItems, this`transactions
    {
      Consistent(orders, orderItems, transactions)
    }

    /** A store with its catalogue and accounts, no orders yet and an empty cart. */
    constructor(products: map<int, Product>, inventory: seq<InventoryRow>, users: map<int, string>,
                settings: PaypalSettings, shippingFee: Decimal)
      requires NonNegative(inventory)
      ensures Valid()
      ensures this.products == products && this.inventory == inventory && this.users == users
      ensures this.settings == settings && this.shippingFee == shippingFee
      ensures orders == [] && orderItems == [] && transactions == []
      ensures cart == map[] && cartOrder == []
    {
      this.products := products;
      this.inventory := inventory;
      this.users := users;
      this.settings := settings;
      this.shippingFee := shippingFee;
      orders := [];
      orderItems := [];
      transactions := [];
      cart := map[];
      cartOrder := [];
    }

    /** cart_count: the number of units in the cart. */
    function CartCount(): (n: int)
      reads this
      requires CartValid()
      ensures n >= |cartOrder|
      ensures n == 0 <==> cart == map[]
    {
      CountAtLeastLines(cart, cartOrder);
      EmptyCartNoKeys(cart, cartOrder);
      Count(cart, cartOrder)
    }

    /** load_cart_items: the priced lines of the cart in insertion order and
        their subtotal in cents. */
    method LoadCartItems() returns (items: seq<CartLine>, subtotal: int)
      requires CartValid()
      ensures items == Lines(products, cart, cartOrder)
      ensures subtotal == Subtotal(items)
      ensures cart == map[] ==> items == [] && subtotal == 0
    {
      EmptyCartNoKeys(cart, cartOrder);
      if cart == map[] {
        return [], 0;
      }
      items, subtotal := PriceLines(products, cart, cartOrder);
    }

    /** add_to_cart: AddCheck's verdict on the stripped form, and on Pass one
        more unit of the variant under its built key; a rejection leaves the
        cart alone. */
    method AddToCart(productId: int, colorField: string, sizeField: string) returns (r: Outcome<CartError>)
      requires CartValid()
      modifies this`cart, this`cartOrder
      ensures CartValid()
      ensures r == old(AddCheck(products, inventory, cart, productId, Strip(colorField), Strip(sizeField)))
      ensures var key := BuildCartKey(productId, Strip(colorField), Strip(sizeField));
        var current := if key in old(cart) then old(cart)[key] else 0;
        r.Pass? ==>
          && cart == old(cart)[key := current + 1]
          && cartOrder == (if key in old(cart) then old(cartOrder) else old(cartOrder) + [key])
      ensures r.Fail? ==> cart == old(cart) && cartOrder == old(cartOrder)
    {
      r := AddVariant(productId, Strip(colorField), Strip(sizeField));
    }

    /** add_to_cart once the colour and size are stripped. */
    method AddVariant(productId: int, color: string, size: string) returns (r: Outcome<CartError>)
      requires CartValid()
      modifies this`cart, this`cartOrder
      ensures CartValid()
      ensures r == old(AddCheck(products, inventory, cart, productId, color, size))
      ensures var key := BuildCartKey(productId, color, size);
        var current := if key in old(cart) then old(cart)[key] else 0;
        r.Pass? ==>
          && cart == old(cart)[key := current + 1]
          && cartOrder == (if key in old(cart) then old(cartOrder) else old(cartOrder) + [key])
      ensures r.Fail? ==> cart == old(cart) && cartOrder == old(cartOrder)
    {
      r := AddCheck(products, inventory, cart, productId, color, size);
      if r.Pass? {
        AddOneUnit(productId, color, size);
      }
    }

    /** session["cart"][key] = current + 1 under the variant's built key. */
    method AddOneUnit(productId: int, color: string, size: string)
      requires CartValid()
      modifies this`cart, this`cartOrder
      ensures CartValid()
      ensures var key := BuildCartKey(productId, color, size);
        var current := if key in old(cart) then old(cart)[key] else 0;
        && cart == old(cart)[key := current + 1]
        && cartOrder == (if key in old(cart) then old(cartOrder) else old(cartOrder) + [key])
    {
      var key := BuildCartKey(productId, color, size);
      var current := if key in cart then cart[key] else 0;
      PutBuiltKeyWellFormed(cart, cartOrder, productId, color, size, current + 1);
      var updated := Put(cart, cartOrder, key, current + 1);
      cart, cartOrder := updated.0, updated.1;
    }

    /** update_cart_item: a digit-only quantity; with a key, zero removes the
        line and any other quantity replaces it when the key's row holds that
        many. Only that key changes, and a rejection changes nothing. */
    method UpdateCartItem(quantityField: string, keyField: string) returns (r: Outcome<CartError>)
      requires CartValid()
      modifies this`cart, this`cartOrder
      ensures CartValid()
      ensures var text, key := Strip(quantityField), Strip(keyField);
        && (!IsDigits(text) ==> r == Fail(InvalidQuantity))
        && (IsDigits(text) && key == "" ==> r == Pass)
        && (IsDigits(text) && key != "" && DigitsValue(text) == 0 ==>
              r == Pass && (cart, cartOrder) == Pop(old(cart), old(cartOrder), key))
        && (IsDigits(text) && key != "" && DigitsValue(text) > 0 ==>
              var parsed := ParseCartKey(key);
              && (parsed.None? ==> r == Fail(InvalidKey))
              && (parsed.Some? ==>
                    var row := RowQuantity(inventory, parsed.value);
                    && (row.None? || DigitsValue(text) > row.value ==> r == Fail(InsufficientStock))
                    && (row.Some? && DigitsValue(text) <= row.value ==>
                          r == Pass && (cart, cartOrder) == Put(old(cart), old(cartOrder), key, DigitsValue(text)))))
        && (!IsDigits(text) || key == "" ==> cart == old(cart) && cartOrder == old(cartOrder))
      ensures r.Fail? ==> cart == old(cart) && cartOrder == old(cartOrder)
    {
      var text, key := Strip(quantityField), Strip(keyField);
      if !IsDigits(text) {
        return Fail(InvalidQuantity);
      }
      var quantity := DigitsValue(text);
      if key != "" {
        if quantity <= 0 {
          PopWellFormed(cart, cartOrder, key);
          var updated := Pop(cart, cartOrder, key);
          cart, cartOrder := updated.0, updated.1;
        } else {
          var parsed := ParseCartKey(key);
          if parsed.None? {
            return Fail(InvalidKey);
          }
          var row := RowQuantity(inventory, parsed.value);
          if row.None? || quantity > row.value {
            return Fail(InsufficientStock);
          }
          PutWellFormed(cart, cartOrder, key, quantity);
          var updated := Put(cart, cartOrder, key, quantity);
          cart, cartOrder := updated.0, updated.1;
        }
      }
      r := Pass;
    }

    /** remove_cart_item: drop the key's line, if a key was given. */
    method RemoveCartItem(keyField: string)
      requires CartValid()
      modifies this`cart, this`cartOrder
      ensures CartValid()
      ensures var key := Strip(keyField);
        && (key == "" ==> cart == old(cart) && cartOrder == old(cartOrder))
        && (key != "" ==> (cart, cartOrder) == Pop(old(cart), old(cartOrder), key) && key !in cart)
    {
      var key := Strip(keyField);
      if key != "" {
        PopWellFormed(cart, cartOrder, key);
        var updated := Pop(cart, cartOrder, key);
        cart, cartOrder := updated.0, updated.1;
      }
    }

    /** The stock check and item inserts of create_paypal_order: the check
        passes when every line is available, and then the rows to insert are
        the lines' snapshots. */
    method PlaceItems(orderId: int, lines: seq<CartLine>) returns (ok: bool, placed: seq<OrderItem>)
      ensures ok <==> LinesAvailable(inventory, lines)
      ensures ok ==> placed == PlacedItems(orderId, lines)
    {
      placed := [];
      var i := 0;
      while i < |lines|
        invariant 0 <= i <= |lines|
        invariant forall k :: 0 <= k < i ==> LineAvailable(inventory, lines[k])
        invariant |placed| == i
        invariant forall k :: 0 <= k < i ==> placed[k] == PlacedItem(orderId, lines[k])
      {
        var line := lines[i];
        var row := RowQuantity(inventory, (line.productId, line.color, line.size));
        if row.None? || row.value < line.quantity {
          assert !LineAvailable(inventory, lines[i]);
          return false, placed;
        }
        placed := placed + [PlacedItem(orderId, line)];
        i := i + 1;
      }
      ok := true;
    }

    /** create_paypal_order. Rejections come in the route's order: an
        incomplete address, an empty cart, an unknown account, a line short
        of stock, a failed or unconfigured gateway call, an answer without an
        id; none of them leaves an order or an item behind. On success one
        pending order waiting for the PayPal id is appended, with one item
        per cart line at the product's current name and price. */
    method CreatePaypalOrder(form: map<string, string>, userId: Option<int>, reply: Result<CreateReply, string>)
      returns (r: Result<Created, Failure>)
      requires CartValid() && BooksValid()
      modifies this`orders, this`orderItems
      ensures CartValid() && BooksValid()
      ensures r.Err? ==> orders == old(orders) && orderItems == old(orderItems)
      ensures var shipping := CollectShippingData(form);
        var lines := old(Lines(products, cart, cartOrder));
        var known := userId.Some? && userId.value in old(users);
        var answer := PaypalRequest(settings, reply);
        && (shipping.None? ==> r == Err(Failure(400, IncompleteAddress)))
        && (shipping.Some? && lines == [] ==> r == Err(Failure(400, EmptyCart)))
        && (shipping.Some? && lines != [] && !known ==> r == Err(Failure(404, UnknownAccount)))
        && (shipping.Some? && lines != [] && known && !LinesAvailable(old(inventory), lines) ==>
              r == Err(Failure(409, CreateStockShort)))
        && (shipping.Some? && lines != [] && known && LinesAvailable(old(inventory), lines) && answer.Err? ==>
              r == Err(Failure(502, answer.error)))
        && (shipping.Some? && lines != [] && known && LinesAvailable(old(inventory), lines) && answer.Ok?
              && (answer.value.id.None? || answer.value.id.value == "") ==>
              r == Err(Failure(502, InvalidReply)))
        && (r.Ok? <==>
              shipping.Some? && lines != [] && known && LinesAvailable(old(inventory), lines) && answer.Ok?
              && answer.value.id.Some? && answer.value.id.value != "")
        && (r.Ok? ==>
              var id := |old(orders)| + 1;
              var paypalId := answer.value.id.value;
              && r.value.paypalOrderId == paypalId && r.value.localOrderId == id
              && r.value.approveUrl == ApproveUrl(answer.value.links)
              && orders == old(orders) + [Order(id, shipping.value.customerName, old(users)[userId.value],
                                                shipping.value.address, "pending", PendingStatus(paypalId),
                                                shippingFee, OrderTotal(Subtotal(lines), shippingFee))]
              && orderItems == old(orderItems) + PlacedItems(id, lines)
              && ItemsOf(orderItems, id) == PlacedItems(id, lines))
    {
      var shipping := CollectShippingData(form);
      if shipping.None? {
        return Err(Failure(400, IncompleteAddress));
      }
      var lines, subtotal := LoadCartItems();
      if lines == [] {
        return Err(Failure(400, EmptyCart));
      }
      var total := OrderTotal(subtotal, shippingFee);
      if userId.None? || userId.value !in users {
        return Err(Failure(404, UnknownAccount));
      }
      var id := |orders| + 1;
      var order := Order(id, shipping.value.customerName, users[userId.value], shipping.value.address,
                         "pending", "pending", shippingFee, total);
      var ok, placed := PlaceItems(id, lines);
      if !ok {
        return Err(Failure(409, CreateStockShort));
      }
      var answer := PaypalRequest(settings, reply);
      if answer.Err? {
        return Err(Failure(502, answer.error));
      }
      var paypalId := answer.value.id;
      if paypalId.None? || paypalId.value == "" {
        return Err(Failure(502, InvalidReply));
      }
      PaidIsNotPending("", paypalId.value);
      RecordPendingOrder(order.(paymentStatus := PendingStatus(paypalId.value)), lines, placed);
      var url := FindApproveUrl(answer.value.links);
      r := Ok(Created(paypalId.value, id, url));
    }

    /** The commit of create_paypal_order: the order and its items are
        inserted together, and the books stay consistent. */
    method RecordPendingOrder(order: Order, lines: seq<CartLine>, placed: seq<OrderItem>)
      requires CartValid() && BooksValid()
      requires order.id == |orders| + 1 && !IsPaid(order.paymentStatus)
      requires placed == PlacedItems(order.id, lines)
      modifies this`orders, this`orderItems
      ensures CartValid() && BooksValid()
      ensures orders == old(orders) + [order] && orderItems == old(orderItems) + placed
      ensures ItemsOf(orderItems, order.id) == placed
    {
      PendingOrderConsistent(orders, orderItems, transactions, order, placed);
      orders, orderItems := orders + [order], orderItems + placed;
    }

    /** The stock writes of an accepted capture: each line's row
        decremented, then each named product's stock reset to the sum of its
        rows. The rows stay non-negative when they cover what each variant's
        lines ask for together. */
    method TakeStock(items: seq<OrderItem>)
      modifies this`inventory, this`products
      ensures old(StockValid()) && DemandInStock(old(inventory), items) ==> StockValid()
      ensures inventory == ApplyDecrements(old(inventory), items)
      ensures products == Restocked(old(products), inventory, ProductsOf(items))
    {
      ghost var covered := StockValid() && DemandInStock(inventory, items);
      if covered {
        DemandCheckKeepsStock(inventory, items);
      }
      inventory, products := DecrementInventory(inventory, products, items);
    }

    /** The order writes of an accepted capture: the order confirmed and paid
        under the capture reference, and exactly one transaction for it. */
    method MarkPaid(index: nat, reference: string)
      requires BooksValid()
      requires index < |orders| && !IsPaid(orders[index].paymentStatus)
      modifies this`orders, this`transactions
      ensures BooksValid()
      ensures orders == old(orders)[index := old(orders)[index].(status := "confirmed", paymentStatus := PaidStatus(reference))]
      ensures transactions == old(transactions) + [Transaction(index + 1, old(orders)[index].total)]
      ensures TxCount(old(transactions), index + 1) == 0 && TxCount(transactions, index + 1) == 1
    {
      PaidOrderConsistent(orders, orderItems, transactions, index, reference);
      var order := orders[index];
      orders, transactions := orders[index := order.(status := "confirmed", paymentStatus := PaidStatus(reference))],
                              transactions + [Transaction(index + 1, order.total)];
    }

    /** session["cart"] = {} */
    method ClearCart()
      modifies this`cart, this`cartOrder
      ensures CartValid()
      ensures cart == map[] && cartOrder == []
    {
      cart, cartOrder := map[], [];
    }

    /** capture_paypal_order. `check` chooses the stock pre-check: PerLine is
        the route as written, PerVariant the corrected one. Rejections come
        in the route's order: no PayPal id, no account, no order found,
        another customer's order, an order not waiting for this PayPal id (so
        an order already paid cannot be captured again), a failed or
        unconfigured gateway call, a payment not COMPLETED, stock short by the
        chosen check; none of them changes anything. An accepted capture
        decrements the stock, confirms the order as paid, records exactly one
        transaction for it and empties the cart. Only the corrected check
        keeps every inventory row non-negative. */
    method CapturePaypalOrder(paypalOrderField: string, localOrderId: Option<int>, userId: Option<int>,
                              reply: Result<CaptureReply, string>, check: PreCheck) returns (r: Result<int, Failure>)
      requires CartValid() && BooksValid()
      modifies this`inventory, this`products, this`orders, this`transactions, this`cart, this`cartOrder
      ensures CartValid() && BooksValid()
      ensures check == PerVariant && old(StockValid()) ==> StockValid()
      ensures r.Err? ==>
        && inventory == old(inventory) && products == old(products) && orders == old(orders)
        && transactions == old(transactions) && cart == old(cart) && cartOrder == old(cartOrder)
      ensures var id := Strip(paypalOrderField);
        && (id == "" ==> r == Err(Failure(400, MissingPaymentParameters)))
        && (id != "" && !(userId.Some? && userId.value in users) ==> r == Err(Failure(403, Forbidden)))
        && (id != "" && userId.Some? && userId.value in users ==>
              var email := users[userId.value];
              var found := ResolveOrder(old(orders), localOrderId, id, email);
              && (found.None? ==> r == Err(Failure(404, OrderNotFound)))
              && (found.Some? ==> CaptureOutcome(old(orders), old(inventory), old(products), old(transactions),
                                                 found.value, id, email, reply, check, r)))
    {
      var id := Strip(paypalOrderField);
      if id == "" {
        return Err(Failure(400, MissingPaymentParameters));
      }
      if userId.None? || userId.value !in users {
        return Err(Failure(403, Forbidden));
      }
      var email := users[userId.value];
      var found := ResolveOrder(orders, localOrderId, id, email);
      if found.None? {
        return Err(Failure(404, OrderNotFound));
      }
      r := CaptureResolved(found.value, id, email, reply, check);
    }

    /** capture_paypal_order from the email check on, for the order the
        lookup resolved. */
    method CaptureResolved(index: nat, id: string, email: string, reply: Result<CaptureReply, string>, check: PreCheck)
      returns (r: Result<int, Failure>)
      requires CartValid() && BooksValid()
      requires index < |orders| && orders[index].id == index + 1
      modifies this`inventory, this`products, this`orders, this`transactions, this`cart, this`cartOrder
      ensures CartValid() && BooksValid()
      ensures check == PerVariant && old(StockValid()) ==> StockValid()
      ensures r.Err? ==>
        && inventory == old(inventory) && products == old(products) && orders == old(orders)
        && transactions == old(transactions) && cart == old(cart) && cartOrder == old(cartOrder)
      ensures CaptureOutcome(old(orders), old(inventory), old(products), old(transactions), index, id, email, reply, check, r)
    {
      var order := orders[index];
      var answer := PaypalRequest(settings, reply);
      var items := ItemsOf(orderItems, index + 1);
      var covered := StockCheck(items, check);
      r := CaptureVerdict(order, id, email, answer, covered);
      if r.Ok? {
        PaidIsNotPending("", id);
        SettleCapture(index, items, PaymentReference(CaptureId(answer.value), id));
      }
    }

    /** The writes of an accepted capture of orders[index], in the route's
        order: the stock taken, the order paid with one transaction, then
        the session cart emptied. */
    method SettleCapture(index: nat, items: seq<OrderItem>, reference: string)
      requires BooksValid()
      requires index < |orders| && !IsPaid(orders[index].paymentStatus)
      modifies this`inventory, this`products, this`orders, this`transactions, this`cart, this`cartOrder
      ensures CartValid() && BooksValid()
      ensures old(StockValid()) && DemandInStock(old(inventory), items) ==> StockValid()
      ensures Settled(old(orders), old(inventory), old(products), old(transactions), index, items, reference)
    {
      TakeStock(items);
      ghost var stocked := inventory;
      MarkPaid(index, reference);
      ClearCart();
      assert inventory == stocked;
    }

    /** What a capture of the resolved order does, from the email check on,
        against the tables as they were before it: CaptureVerdict's answer
        with the chosen stock check, and on success the stock taken, the
        order paid, one transaction and an empty cart. */
    predicate CaptureOutcome(orders0: seq<Order>, inventory0: seq<InventoryRow>, products0: map<int, Product>,
                             transactions0: seq<Transaction>, index: nat, id: string, email: string,
                             reply: Result<CaptureReply, string>, check: PreCheck, r: Result<int, Failure>)
      reads this
    {
      index < |orders0| &&
      var answer := PaypalRequest(settings, reply);
      var items := ItemsOf(orderItems, index + 1);
      && r == CaptureVerdict(orders0[index], id, email, answer, Covered(check, inventory0, items))
      && (r.Ok? ==> answer.Ok? && Settled(orders0, inventory0, products0, transactions0, index, items,
                                          PaymentReference(CaptureId(answer.value), id)))
    }

    /** The state after an accepted capture of orders0[index] with these
        items under this reference. */
    predicate Settled(orders0: seq<Order>, inventory0: seq<InventoryRow>, products0: map<int, Product>,
                      transactions0: seq<Transaction>, index: nat, items: seq<OrderItem>, reference: string)
      reads this
    {
      index < |orders0|
      && inventory == ApplyDecrements(inventory0, items)
      && products == Restocked(products0, inventory, ProductsOf(items))
      && orders == orders0[index := orders0[index].(status := "confirmed", paymentStatus := PaidStatus(reference))]
      && transactions == transactions0 + [Transaction(index + 1, orders0[index].total)]
      && TxCount(transactions0, index + 1) == 0 && TxCount(transactions, index + 1) == 1
      && cart == map[] && cartOrder == []
    }

    /** The stock pre-check the capture runs, as chosen. */
    method StockCheck(items: seq<OrderItem>, check: PreCheck) returns (ok: bool)
      ensures ok == Covered(check, inventory, items)
    {
      match check {
        case PerLine => ok := LinesCovered(items);
        case PerVariant => ok := StockCovers(items);
      }
    }

    /** The stock pre-check of capture_paypal_order as written: each line's
        row must hold that line's quantity. */
    method LinesCovered(items: seq<OrderItem>) returns (ok: bool)
      ensures ok <==> LinesInStock(inventory, items)
    {
      var i := 0;
      while i < |items|
        invariant 0 <= i <= |items|
        invariant forall k :: 0 <= k < i ==>
          RowQuantity(inventory, ItemKey(items[k])).Some?
          && RowQuantity(inventory, ItemKey(items[k])).value >= items[k].quantity
      {
        var row := RowQuantity(inventory, ItemKey(items[i]));
        if row.None? || row.value < items[i].quantity {
          return false;
        }
        i := i + 1;
      }
      ok := true;
    }

    /** The corrected stock pre-check of capture_paypal_order: each line's
        row must hold what all the lines of its variant ask for together. */
    method StockCovers(items: seq<OrderItem>) returns (ok: bool)
      ensures ok <==> DemandInStock(inventory, items)
    {
      var i := 0;
      while i < |items|
        invariant 0 <= i <= |items|
        invariant forall k :: 0 <= k < i ==>
          RowQuantity(inventory, ItemKey(items[k])).Some?
          && RowQuantity(inventory, ItemKey(items[k])).value >= Demand(items, ItemKey(items[k]))
      {
        var row := RowQuantity(inventory, ItemKey(items[i]));
        if row.None? || row.value < Demand(items, ItemKey(items[i])) {
          return false;
        }
        i := i + 1;
      }
      ok := true;
    }
  }
}
