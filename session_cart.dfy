/** The session cart as a Python dict: a map from cart key to quantity plus
    the keys' insertion order, the count shown in the page header, and the
    priced lines load_cart_items lists. */
module SessionCart {
  import opened Wrappers
  import opened Text
  import opened CartKeys
  import opened Ledger

  /** The dict's keys, each once, in insertion order. */
  predicate KeyOrder(cart: map<string, int>, order: seq<string>)
  {
    (forall i, j :: 0 <= i < j < |order| ==> order[i] != order[j])
    && (forall k :: k in cart ==> k in order)
    && (forall i :: 0 <= i < |order| ==> order[i] in cart)
  }

  /** An empty dict has no keys to list, and a listing of keys is empty only
      for an empty dict. */
  lemma EmptyCartNoKeys(cart: map<string, int>, order: seq<string>)
    requires KeyOrder(cart, order)
    ensures cart == map[] <==> order == []
  {
    if order != [] {
      assert order[0] in cart;
    }
    if cart != map[] {
      var k :| k in cart;
      assert k in order;
    }
  }

  /** cart[key] = quantity: an existing key keeps its place, a new one goes last. */
  function Put(cart: map<string, int>, order: seq<string>, key: string, quantity: int): (r: (map<string, int>, seq<string>))
    requires KeyOrder(cart, order)
    ensures KeyOrder(r.0, r.1)
    ensures r.0 == cart[key := quantity]
    ensures key in cart ==> r.1 == order
    ensures key !in cart ==> r.1 == order + [key]
  {
    (cart[key := quantity], if key in cart then order else order + [key])
  }

  /** order with every occurrence of key removed. */
  function Without(order: seq<string>, key: string): (r: seq<string>)
    ensures key !in r
    ensures forall k :: k in r <==> k in order && k != key
    ensures |r| <= |order|
  {
    if order == [] then []
    else if order[|order| - 1] == key then Without(order[..|order| - 1], key)
    else Without(order[..|order| - 1], key) + [order[|order| - 1]]
  }

  /** Removing a key from a list of distinct keys leaves them distinct. */
  lemma {:induction false} WithoutDistinct(order: seq<string>, key: string)
    requires forall i, j :: 0 <= i < j < |order| ==> order[i] != order[j]
    ensures forall i, j :: 0 <= i < j < |Without(order, key)| ==> Without(order, key)[i] != Without(order, key)[j]
  {
    if order != [] {
      var init := order[..|order| - 1];
      WithoutDistinct(init, key);
      var r := Without(order, key);
      if order[|order| - 1] != key {
        var w, x := Without(init, key), order[|order| - 1];
        assert x !in init && x !in w;
        assert r == w + [x];
        forall i, j | 0 <= i < j < |r|
          ensures r[i] != r[j]
        {
          assert r[i] == w[i] && w[i] in w;
          if j < |w| {
            assert r[j] == w[j];
          } else {
            assert r[j] == x;
          }
        }
      }
    }
  }

  /** After pop the remaining keys still list the dict exactly. */
  lemma PopKeyOrder(cart: map<string, int>, order: seq<string>, key: string)
    requires KeyOrder(cart, order)
    ensures KeyOrder(cart - {key}, Without(order, key))
  {
    WithoutDistinct(order, key);
    var r := Without(order, key);
    forall i | 0 <= i < |r|
      ensures r[i] in cart - {key}
    {
      assert r[i] in r;
    }
  }

  /** cart.pop(key, None). */
  function Pop(cart: map<string, int>, order: seq<string>, key: string): (r: (map<string, int>, seq<string>))
    requires KeyOrder(cart, order)
    ensures KeyOrder(r.0, r.1)
    ensures r.0 == cart - {key} && key !in r.0
    ensures key !in cart ==> r == (cart, order)
  {
    PopKeyOrder(cart, order, key);
    if key in cart then (cart - {key}, Without(order, key)) else (cart, order)
  }

  /** Removing the same key twice is removing it once. */
  lemma PopIdempotent(cart: map<string, int>, order: seq<string>, key: string)
    requires KeyOrder(cart, order)
    ensures var once := Pop(cart, order, key); Pop(once.0, once.1, key) == once
  {
  }

  /** sum(cart.values()), added up along the insertion order: keys the cart
      lacks add nothing, and no negative quantity means no negative count. */
  function Count(cart: map<string, int>, keys: seq<string>): (n: int)
    ensures (forall i :: 0 <= i < |keys| ==> keys[i] !in cart) ==> n == 0
    ensures (forall k :: k in cart ==> cart[k] >= 0) ==> n >= 0
  {
    if keys == [] then 0
    else
      var k := keys[|keys| - 1];
      Count(cart, keys[..|keys| - 1]) + (if k in cart then cart[k] else 0)
  }

  /** Entries not listed do not contribute. */
  lemma {:induction false} CountIgnores(cart: map<string, int>, keys: seq<string>, key: string, quantity: int)
    requires key !in keys
    ensures Count(cart[key := quantity], keys) == Count(cart, keys)
  {
    if keys != [] {
      CountIgnores(cart, keys[..|keys| - 1], key, quantity);
    }
  }

  /** Setting one listed entry changes the count by the difference. */
  lemma {:induction false} CountPut(cart: map<string, int>, keys: seq<string>, key: string, quantity: int)
    requires forall i, j :: 0 <= i < j < |keys| ==> keys[i] != keys[j]
    requires key in cart && key in keys
    ensures Count(cart[key := quantity], keys) == Count(cart, keys) - cart[key] + quantity
  {
    var n := |keys| - 1;
    if keys[n] == key {
      assert key !in keys[..n];
      CountIgnores(cart, keys[..n], key, quantity);
    } else {
      assert key in keys[..n];
      CountPut(cart, keys[..n], key, quantity);
    }
  }

  /** add_to_cart adds exactly one to the count, whether the key is new or not. */
  lemma CountAfterPut(cart: map<string, int>, order: seq<string>, key: string, quantity: int)
    requires KeyOrder(cart, order)
    ensures var r := Put(cart, order, key, quantity);
      Count(r.0, r.1) == Count(cart, order) - (if key in cart then cart[key] else 0) + quantity
  {
    if key in cart {
      CountPut(cart, order, key, quantity);
    } else {
      CountIgnores(cart, order, key, quantity);
      assert (order + [key])[..|order|] == order;
    }
  }

  /** With every quantity at least one, the count is at least the number of lines. */
  lemma {:induction false} CountAtLeastLines(cart: map<string, int>, keys: seq<string>)
    requires forall k :: k in cart ==> cart[k] >= 1
    requires forall i :: 0 <= i < |keys| ==> keys[i] in cart
    ensures Count(cart, keys) >= |keys|
  {
    if keys != [] {
      CountAtLeastLines(cart, keys[..|keys| - 1]);
    }
  }

  // ---------------------------------------------------------------------
  // load_cart_items
  // ---------------------------------------------------------------------

  /** One entry of the list load_cart_items returns; line total in cents. */
  datatype CartLine = CartLine(
    productId: int,
    product: Product,
    quantity: int,
    lineTotal: int,
    color: string,
    size: string,
    cartKey: string)

  /** Every key of the cart can be read back as a variant. */
  predicate KeysParse(cart: map<string, int>)
  {
    forall k {:trigger ParseCartKey(k)} :: k in cart ==> ParseCartKey(k).Some?
  }

  /** Every listed key is a key of the cart. */
  predicate Listed(cart: map<string, int>, keys: seq<string>)
  {
    forall i :: 0 <= i < |keys| ==> keys[i] in cart
  }

  /** What the cart routes keep true of the session cart: its keys listed
      once each, every key readable as a variant, every quantity at least one. */
  predicate WellFormed(cart: map<string, int>, order: seq<string>)
  {
    KeyOrder(cart, order) && KeysParse(cart) && forall k :: k in cart ==> cart[k] >= 1
  }

  /** Storing a positive quantity under a readable key keeps the cart well formed. */
  lemma PutWellFormed(cart: map<string, int>, order: seq<string>, key: string, quantity: int)
    requires WellFormed(cart, order) && ParseCartKey(key).Some? && quantity >= 1
    ensures WellFormed(Put(cart, order, key, quantity).0, Put(cart, order, key, quantity).1)
  {
  }

  /** Storing a positive quantity under a key add_to_cart builds keeps the
      cart well formed: a built key always reads back. */
  lemma PutBuiltKeyWellFormed(cart: map<string, int>, order: seq<string>, productId: int, color: string, size: string,
                              quantity: int)
    requires WellFormed(cart, order) && quantity >= 1
    ensures var key := BuildCartKey(productId, color, size);
      WellFormed(Put(cart, order, key, quantity).0, Put(cart, order, key, quantity).1)
  {
    BuiltKeyParses(productId, color, size);
    PutWellFormed(cart, order, BuildCartKey(productId, color, size), quantity);
  }

  /** Removing a key keeps the cart well formed. */
  lemma PopWellFormed(cart: map<string, int>, order: seq<string>, key: string)
    requires WellFormed(cart, order)
    ensures WellFormed(Pop(cart, order, key).0, Pop(cart, order, key).1)
  {
  }

  /** A prefix of listed keys is listed. */
  lemma ListedPrefix(cart: map<string, int>, keys: seq<string>, n: nat)
    requires Listed(cart, keys) && n <= |keys|
    ensures Listed(cart, keys[..n])
  {
  }

  /** The lines for `keys`: one per key whose product exists, priced at the
      product's current price; keys of missing products are skipped. A key
      that does not parse would make load_cart_items raise; the store never
      holds one (KeysParse), and it contributes no line here. */
  function Lines(products: map<int, Product>, cart: map<string, int>, keys: seq<string>): (lines: seq<CartLine>)
    requires Listed(cart, keys)
    ensures |lines| <= |keys|
    ensures forall i :: 0 <= i < |lines| ==>
      lines[i].cartKey in cart && lines[i].quantity == cart[lines[i].cartKey]
      && lines[i].productId in products && lines[i].product == products[lines[i].productId]
  {
    if keys == [] then [] else Lines(products, cart, keys[..|keys| - 1]) + KeyLine(products, cart, keys[|keys| - 1])
  }

  /** The line one cart key contributes: none when its product is missing. */
  function KeyLine(products: map<int, Product>, cart: map<string, int>, key: string): (r: seq<CartLine>)
    requires key in cart
  {
    match ParseCartKey(key)
    case None => []
    case Some(v) =>
      if v.0 in products then
        var p := products[v.0];
        [CartLine(v.0, p, cart[key], p.price * cart[key], v.1, v.2, key)]
      else []
  }

  /** One more key of the list adds that key's line. */
  lemma LinesStep(products: map<int, Product>, cart: map<string, int>, keys: seq<string>, i: nat)
    requires Listed(cart, keys) && i < |keys|
    ensures Listed(cart, keys[..i]) && Listed(cart, keys[..i + 1])
    ensures Lines(products, cart, keys[..i + 1]) == Lines(products, cart, keys[..i]) + KeyLine(products, cart, keys[i])
  {
    assert keys[..i + 1][..i] == keys[..i];
  }

  /** Each line's total is the product's price times the quantity. */
  lemma {:induction false} LinesPriced(products: map<int, Product>, cart: map<string, int>, keys: seq<string>)
    requires Listed(cart, keys)
    ensures forall i :: 0 <= i < |Lines(products, cart, keys)| ==>
      Lines(products, cart, keys)[i].lineTotal == Lines(products, cart, keys)[i].product.price * Lines(products, cart, keys)[i].quantity
  {
    if keys != [] {
      LinesPriced(products, cart, keys[..|keys| - 1]);
    }
  }

  /** Each line is the variant its cart key names. */
  lemma {:induction false} LinesNameTheirKeys(products: map<int, Product>, cart: map<string, int>, keys: seq<string>)
    requires Listed(cart, keys)
    ensures forall i :: 0 <= i < |Lines(products, cart, keys)| ==>
      var line := Lines(products, cart, keys)[i];
      ParseCartKey(line.cartKey) == Some((line.productId, line.color, line.size))
  {
    if keys != [] {
      LinesNameTheirKeys(products, cart, keys[..|keys| - 1]);
    }
  }

  /** The keys whose product exists, in order: one line each. */
  lemma {:induction false} LinesCoverPresentProducts(products: map<int, Product>, cart: map<string, int>, keys: seq<string>)
    requires Listed(cart, keys)
    ensures |Lines(products, cart, keys)| == |PresentKeys(products, keys)|
    ensures forall i :: 0 <= i < |Lines(products, cart, keys)| ==>
      Lines(products, cart, keys)[i].cartKey == PresentKeys(products, keys)[i]
  {
    if keys != [] {
      LinesCoverPresentProducts(products, cart, keys[..|keys| - 1]);
    }
  }

  /** The keys whose product row exists. */
  function PresentKeys(products: map<int, Product>, keys: seq<string>): seq<string>
  {
    if keys == [] then []
    else
      var rest := PresentKeys(products, keys[..|keys| - 1]);
      var key := keys[|keys| - 1];
      match ParseCartKey(key)
      case Some(v) => if v.0 in products then rest + [key] else rest
      case None => rest
  }

  /** The subtotal: the sum of the line totals. */
  function Subtotal(lines: seq<CartLine>): int
  {
    if lines == [] then 0 else Subtotal(lines[..|lines| - 1]) + lines[|lines| - 1].lineTotal
  }

  /** Adding a key's line (or none) adds its total. */
  lemma SubtotalAppendLines(lines: seq<CartLine>, more: seq<CartLine>)
    requires |more| <= 1
    ensures Subtotal(lines + more) == Subtotal(lines) + Subtotal(more)
  {
    if more == [] { assert lines + more == lines; } else { assert (lines + more)[..|lines|] == lines; }
  }

  /** With no product at a negative price, the subtotal is not negative. */
  lemma {:induction false} SubtotalNonNegative(lines: seq<CartLine>)
    requires forall i :: 0 <= i < |lines| ==> lines[i].product.price >= 0 && lines[i].quantity >= 0
    requires forall i :: 0 <= i < |lines| ==> lines[i].lineTotal == lines[i].product.price * lines[i].quantity
    ensures Subtotal(lines) >= 0
  {
    if lines != [] {
      SubtotalNonNegative(lines[..|lines| - 1]);
    }
  }
}
