# ELIT21 storefront checkout, modelled in Dafny

This project models the customer-facing checkout of the ELIT21 shop
(`elit21/web/app.py`):

- Start-up configuration. The `.env` file is read into the environment, the
  PayPal settings are taken from it, and there is the configuration check,
  the API base address and the one retry of a request whose proxy tunnel
  failed.
- Money. Amounts are quantized to cents with half-up rounding and written
  as `0.00` text.
- The session cart. A dict maps cart keys `"<product id>|<color>|<size>"` to
  quantities. It is read back into priced lines and a subtotal. The add,
  update and remove routes change it.
- The shipping form, and the stored three-line address built from it.
- `create_paypal_order`. It checks the address, the cart, the account and
  the stock. It asks PayPal for an order, then records one pending order
  with one item per cart line.
- `capture_paypal_order`. It finds the order, checks the owner, the pending
  status, the gateway answer and the stock. It then decrements the
  inventory, refreshes the products' cached stock, marks the order paid,
  records one transaction and empties the cart.

Each file holds one module:

- `wrappers.dfy` (Option, Result, Outcome)
- `text.dfy` (the Python `str` operations used)
- `money.dfy`
- `config.dfy`
- `cart_keys.dfy`
- `shipping.dfy`
- `session_cart.dfy` (the cart dict and its lines)
- `ledger.dfy` (the tables, the stock arithmetic and the order books)
- `store.dfy`

`store.dfy` defines the `Store` class. Its fields are the tables and the
session cart, and its methods are the routes. Its invariant `Valid()` has
three parts:

- the cart is well formed: its keys are listed once each in insertion
  order, every key parses and every quantity is positive;
- no inventory row is negative;
- the order books are consistent: order ids are their positions plus one,
  items and transactions name existing orders, and an order has exactly one
  transaction when it is paid and none otherwise.

Every route keeps the cart and book parts, and no route needs more than
these to run. Only the capture writes the stock. Every other route leaves
the inventory as it found it, and none of them requires the stock part. The
stock part after a capture depends on its stock pre-check, which `CapturePaypalOrder` takes as a `PreCheck`
parameter:

- `PerLine` is the route as written. Each order line is compared with its
  row on its own. Two lines of one variant can then together take a row
  below zero (see Findings), so the model does not promise the stock part
  for it.
- `PerVariant` is the corrected check. Each line's row is compared with what
  all the lines of that variant ask for together. Under it the capture keeps
  every row non-negative.

The constructor establishes `Valid()` as a whole.

Outside inputs become parameters:

- the form and JSON fields;
- the session's user id;
- the contents of the `.env` file;
- PayPal's answer to each call, either the decoded reply or the
  `RuntimeError` message.

Amounts are integer cents. A `Decimal` (units, scale) stands for the
configured shipping fee.

## Model

| member | source | states |
|---|---|---|
| Text.IntToStrParses | elit21/web/app.py:82-89 | int(str(n)) == n for every integer, so the product id of a built key reads back |
| Text.ParseDigits | elit21/web/app.py:358-362 | a run of ASCII digits passes isdigit() and int() gives the number it denotes |
| Text.SplitOnceAt | elit21/web/app.py:85-89 | split(sep, 1) splits at the first separator: the part before it never contains it |
| Text.Contains | elit21/web/app.py:112-119 | `needle in s` holds exactly when the needle occurs at some position |
| Config.ParseEnvLine | elit21/web/app.py:33-42 | a line that strips to nothing or to a comment, or a line without '=', is skipped; otherwise the key is non-empty, has no '=' and does not start with '#' |
| Config.EmptyKeySkipped | elit21/web/app.py:38-40 | a line whose key is only whitespace, such as " =value", is skipped |
| Config.QuotedValue | elit21/web/app.py:33-42 | a line key="v" or key='v' is read back as (key, v), without the quotes |
| Config.EnvLineRoundTrip | elit21/web/app.py:33-42 | a line `key=value` with clean ends is read back as exactly (key, value) |
| Config.LoadEnvFile | elit21/web/app.py:28-42 | with no file the environment is unchanged; otherwise setdefault is applied to each line in order; a variable already set keeps its value |
| Config.EnvAfterKeepsExisting | elit21/web/app.py:42 | setdefault never overwrites a variable that was already set |
| Config.EnvAfterKeys | elit21/web/app.py:33-42 | loading adds exactly the keys the file defines |
| Config.EnvAfterFirstWins | elit21/web/app.py:42 | for a variable the environment lacks, its first definition in the file wins over later ones |
| Config.EnsurePaypalConfigured | elit21/web/app.py:94-99 | configured iff the client id is set and not the demo id and a secret is set; the message is empty iff configured; a missing client id is reported first |
| Config.ConfiguredFromEnvironment | elit21/web/app.py:48-53 | in terms of the environment: configured iff PAYPAL_CLIENT_ID is set to a real id and PAYPAL_CLIENT_SECRET or PAYPAL_SECRET_KEY_1 is non-empty |
| Config.CleanValue | elit21/web/app.py:41 | strip() then strip('"') then strip("'"): no longer than the raw value, only its characters, and no whitespace left at either end |
| Config.CleanQuoted | elit21/web/app.py:41 | the quotes around a value are removed: "v" and 'v' both clean to v |
| Config.StripQuotes | elit21/web/app.py:41 | strip(q) takes one quote q off each end of a value quoted with q |
| Config.SettingsFrom | elit21/web/app.py:48-53 | an unset client id gives the demo id; the secret is empty iff both secret variables are empty, and a non-empty PAYPAL_CLIENT_SECRET wins; the environment name holds no upper-case letter |
| Config.PaypalBaseUrl | elit21/web/app.py:56-61 | the live API is chosen iff the environment is "live"; otherwise the sandbox |
| Config.LiveIsCaseInsensitive | elit21/web/app.py:52 | PAYPAL_ENV=LIVE selects the live API, because the setting is lower-cased |
| Config.OpenRequest | elit21/web/app.py:112-119 | one attempt on success or on a failure other than a tunnel failure; with two attempts the direct attempt's outcome is final |
| Config.TunnelFailureRetriedOnce | elit21/web/app.py:112-119 | a tunnel failure is retried once without the proxy, whatever the retry gives |
| Money.ToMoney | elit21/web/app.py:480-481 | at two decimals or fewer the value is exact; with more, the result is a nearest cent and a tie goes away from zero |
| Money.RoundsHalfUpUnique | elit21/web/app.py:480-481 | ROUND_HALF_UP picks exactly one cent value, so ToMoney is the only rounding that satisfies it |
| Money.ToMoneyOfCents | elit21/web/app.py:500 | an amount already in cents is unchanged by to_money |
| Money.OrderTotal | elit21/web/app.py:500-502 | the order total is the subtotal plus the shipping fee rounded to the cent |
| Money.CentsTextParses | elit21/web/app.py:483-484 | the unsigned `digits.dd` text of an amount reads back as that amount |
| Money.MoneyTextRoundTrip | elit21/web/app.py:483-484 | format(value, ".2f") loses nothing: the text reads back as the same number of cents, sign included |
| Money.MoneyText | elit21/web/app.py:483-484 | at least four characters; a leading minus exactly for a negative amount; a point third from the end, followed by two digits |
| Money.TotalExample | elit21/web/app.py:500-502 | two units at 19.99 with a 9.99 fee total 49.97; 9.995 rounds to 10.00, -9.995 to -10.00 and 9.994 to 9.99 |
| CartKeys.ParseCartKey | elit21/web/app.py:85-89 | a key without '\|' does not parse; a parsed color contains no '\|' |
| CartKeys.FewBarsDoNotParse | elit21/web/app.py:85-89 | a key with fewer than two '\|' does not parse: split("\|", 2) gives fewer than three parts and the explicit len(parts) != 3 check raises |
| CartKeys.BuiltKeyParses | elit21/web/app.py:82-89 | every built key parses back to its product id, whatever the color and size |
| CartKeys.ParseBuildRoundTrip | elit21/web/app.py:82-89 | parse(build(p, c, s)) == (p, c, s) when the color has no '\|' |
| CartKeys.ParseKeyParts | elit21/web/app.py:85-89 | any key whose first part int() reads as the id, with a color free of '\|', parses to (id, color, size) |
| CartKeys.LeadingZero | elit21/web/app.py:89 | a leading zero does not change the number int() reads |
| CartKeys.DistinctKeysSameVariant | elit21/web/app.py:85-89 | "0"+key is a different cart key that parses to the same variant as key |
| Shipping.BlankAmongSeven | elit21/web/app.py:173-183 | not all(values) over the seven required values holds iff one of them is blank |
| Shipping.CollectShippingData | elit21/web/app.py:164-200 | a result exists iff none of the seven required stripped fields is blank; it carries the stripped name, city, country, postal code and the built address |
| Shipping.SplitThree | elit21/web/app.py:187-193 | three one-line parts joined with newlines split back into exactly those parts |
| Shipping.FirstLine | elit21/web/app.py:184-186 | the first line is "<house> <street>", followed by ", Apt <apartment>" when an apartment is given |
| Shipping.Address | elit21/web/app.py:187-193 | the stored address starts with the first line and a line break, and ends with a line break and "<country>, <postal code>" |
| Shipping.StripJoined | elit21/web/app.py:184 | strip() leaves "<a> <b>" alone when a and b are non-empty and stripped |
| Shipping.FirstLineOneLine | elit21/web/app.py:184-186 | the first line holds no line break when its fields hold none |
| Shipping.CommaJoinOneLine | elit21/web/app.py:190-191 | "<a>, <b>" is one line when a and b are |
| Shipping.AddressLines | elit21/web/app.py:184-193 | the stored address splits into exactly three lines: the street line, "<city>, <province>" and "<country>, <postal code>" |
| SessionCart.EmptyCartNoKeys | elit21/web/app.py:204-205 | the cart dict is empty iff its list of keys is empty |
| SessionCart.Put | elit21/web/app.py:350 | cart[key] = q: the map is updated; an existing key keeps its place and a new key goes last; the key list stays exact |
| SessionCart.Without | elit21/web/app.py:391 | the list without the key holds every other key and not this one |
| SessionCart.WithoutDistinct | elit21/web/app.py:391 | removing a key keeps the other keys listed once each |
| SessionCart.PopKeyOrder | elit21/web/app.py:391 | after pop the remaining keys still list the dict exactly |
| SessionCart.Pop | elit21/web/app.py:386-393 | cart.pop(key, None): the key is gone and the rest is unchanged; popping a missing key changes nothing |
| SessionCart.PopIdempotent | elit21/web/app.py:386-393 | popping a key twice is the same as popping it once |
| SessionCart.Count | elit21/web/app.py:91-92 | the sum of the cart's values: zero when no listed key is in the cart, never negative when no quantity is |
| SessionCart.CountIgnores | elit21/web/app.py:91-92 | entries that are not listed do not contribute to the count |
| SessionCart.CountPut | elit21/web/app.py:91-92 | setting a listed entry changes the count by the difference in quantity |
| SessionCart.CountAfterPut | elit21/web/app.py:346-350 | storing current+1 under a key raises the unit count by exactly one, whether the key is new or not |
| SessionCart.CountAtLeastLines | elit21/web/app.py:91-92 | with positive quantities, the unit count is at least the number of lines |
| SessionCart.PutWellFormed | elit21/web/app.py:382 | storing a positive quantity under a readable key keeps the cart well formed |
| SessionCart.PutBuiltKeyWellFormed | elit21/web/app.py:344-350 | storing a positive quantity under a built key keeps the cart well formed |
| SessionCart.PopWellFormed | elit21/web/app.py:386-393 | removing a key keeps the cart well formed |
| SessionCart.ListedPrefix | elit21/web/app.py:217 | a prefix of listed keys is listed |
| SessionCart.Lines | elit21/web/app.py:202-234 | at most one line per key; every line names a cart key, has that key's quantity and the product row of its id |
| SessionCart.LinesStep | elit21/web/app.py:217-233 | one more key adds exactly that key's line, or nothing when its product is missing |
| SessionCart.LinesPriced | elit21/web/app.py:225-233 | every line total is the product's price times the quantity |
| SessionCart.LinesNameTheirKeys | elit21/web/app.py:218-233 | every line is the variant its cart key names |
| SessionCart.LinesCoverPresentProducts | elit21/web/app.py:217-233 | the lines are exactly the keys whose product exists, one each, in insertion order |
| SessionCart.SubtotalAppendLines | elit21/web/app.py:233 | adding a key's line adds its total to the subtotal |
| SessionCart.SubtotalNonNegative | elit21/web/app.py:233 | with no negative price or quantity, the subtotal is not negative |
| Ledger.FindRow | elit21/web/app.py:767-775 | fetchone() of the variant query: the first row with that variant, or none when no row has it |
| Ledger.StockOf | elit21/web/app.py:794-797 | COALESCE(SUM(quantity), 0): zero for a product without rows, never negative when no row is |
| Ledger.FindRowSameKeys | elit21/web/app.py:785-793 | changing quantities never changes which row a variant's lookup finds |
| Ledger.StockOfUpdate | elit21/web/app.py:790-797 | updating one row changes its product's stock sum by the change and leaves the other products' sums alone |
| Ledger.Decrement | elit21/web/app.py:786-793 | one pass of the decrement loop changes quantities only |
| Ledger.ApplyDecrements | elit21/web/app.py:785-793 | the decrement loop changes quantities only: the same rows for the same variants, in the same order |
| Ledger.ApplyDecrementsStep | elit21/web/app.py:785-793 | the next pass of the loop extends the decrements by one line |
| Ledger.ApplyDecrementsAt | elit21/web/app.py:785-793 | the row a variant's lookup finds loses the lines' whole demand for that variant; other rows keep their quantity |
| Ledger.LinesInStock | elit21/web/app.py:767-783 | the pre-check as written holds iff each line, taken alone, finds its variant's row and would leave it non-negative |
| Ledger.DemandCheckKeepsStock | elit21/web/app.py:767-801 | when every variant's row covers the total demand for it, no row goes negative |
| Ledger.DemandedBy | elit21/web/app.py:767 | a variant with non-zero demand is asked for by some line |
| Ledger.DemandOfDistinct | elit21/web/app.py:767-776 | when the lines name distinct variants, a variant's demand is its one line's quantity |
| Ledger.NoDemand | elit21/web/app.py:767-776 | a variant no line names has zero demand |
| Ledger.DistinctLinesChecksAgree | elit21/web/app.py:767-801 | for lines with distinct variants the per-line check equals the demand check, and each row ends at its quantity minus its line's |
| Ledger.LinesCheckOverdraws | elit21/web/app.py:767-793 | two lines for one variant with one unit in stock pass the per-line check, fail the demand check and leave the row at -1 |
| Ledger.DecrementStock | elit21/web/app.py:794-801 | a decrement leaves the stock sum of every other product unchanged |
| Ledger.PaidIsNotPending | elit21/web/app.py:722-729 | a paid status is never a pending status, and "pending" is not paid |
| Ledger.TxCountAppend | elit21/web/app.py:810-813 | inserting a transaction adds one to the count of its order only |
| Ledger.TxCountNone | elit21/web/app.py:810-813 | an order that no transaction names has none |
| Ledger.PendingOrderConsistent | elit21/web/app.py:528-588 | appending an unpaid order with its own items keeps the books consistent, and those items are exactly the new order's |
| Ledger.PaidOrderConsistent | elit21/web/app.py:802-813 | marking an unpaid order paid and adding its transaction keeps the books; it had no transaction before and has exactly one after |
| Ledger.NewestMatching | elit21/web/app.py:700-710 | the highest-id order with that payment status and email, or none when no order matches |
| Ledger.ItemsOf | elit21/web/app.py:763-766 | the selected items all belong to the order |
| Ledger.ItemsOfNewOrder | elit21/web/app.py:554-588 | the items inserted for a new order are exactly its items |
| Ledger.ItemsOfNone | elit21/web/app.py:763-766 | an order that no item names has no items |
| Ledger.ItemsOfOtherOrder | elit21/web/app.py:554-588 | inserting a new order's items leaves every other order's items alone |
| Storefront.PaypalRequest | elit21/web/app.py:101-104 | an unconfigured gateway fails with the configuration message before any call; a configured call gives the gateway's answer |
| Storefront.ApproveUrl | elit21/web/app.py:652-656 | the href of the first link whose rel is "approve", or None when there is no such link |
| Storefront.ApproveFrom | elit21/web/app.py:652-656 | the same among the links from a given position on |
| Storefront.FindApproveUrl | elit21/web/app.py:652-656 | the loop with its break returns exactly ApproveUrl of the links |
| Storefront.CaptureId | elit21/web/app.py:745-752 | a capture id exists only when there is a first purchase unit with a first capture |
| Storefront.PaymentReference | elit21/web/app.py:808 | `capture_id or paypal_order_id`: a non-empty capture id, else the PayPal id; never empty when the PayPal id is not |
| Storefront.ResolveOrder | elit21/web/app.py:694-714 | a local id that names an order wins; otherwise the newest order pending for this PayPal id with this email |
| Storefront.PlacedItems | elit21/web/app.py:574-588 | one order_items row per cart line, in order, with the product's name and price at that moment |
| Storefront.Restocked | elit21/web/app.py:794-801 | same products; every touched product's stock is the sum of its rows and the others are unchanged |
| Storefront.RestockStep | elit21/web/app.py:794-801 | refreshing one line's product after its decrement extends the refresh of the products before it |
| Storefront.ProductsOfStep | elit21/web/app.py:785 | one more line adds its product to the set of touched products |
| Storefront.TakeFromRow | elit21/web/app.py:786-793 | one loop pass takes the line's quantity off the row its variant's lookup finds |
| Storefront.DecrementInventory | elit21/web/app.py:785-801 | the loop yields the table after all decrements in order, and each named product's stock is the sum of its rows |
| Storefront.AddCheck | elit21/web/app.py:331-349 | a form that passes names an active product, has a color and a size, and finds a row with a positive quantity |
| Storefront.AddCheckPasses | elit21/web/app.py:320-349 | add_to_cart accepts iff the product is active, a color and a size are chosen and the row holds one more unit than the cart has; the empty-row check rejects exactly a missing or non-positive row |
| Storefront.PriceLines | elit21/web/app.py:217-234 | the loop's lines are the cart's lines, and its subtotal is their sum |
| Storefront.CaptureVerdict | elit21/web/app.py:715-783 | a capture goes through iff the email matches, the order is pending for this PayPal id, the gateway answers COMPLETED and the stock pre-check passes; it then answers the order id |
| Storefront.PaidOrderNotCaptured | elit21/web/app.py:715-729 | an order already paid is refused whatever PayPal and the stock say |
| Storefront.CreateCheckMatchesCapture | elit21/web/app.py:554-573 | the stock check of create_paypal_order on the cart lines holds iff the capture's per-line check holds on the items stored for them |
| Storefront.Store.constructor | elit21/web/app.py:75-80 | no orders and an empty cart; the catalogue, inventory and accounts as given; the invariant holds |
| Storefront.Store.CartCount | elit21/web/app.py:91-92 | the unit count is at least the number of lines, and it is zero iff the cart is empty |
| Storefront.Store.LoadCartItems | elit21/web/app.py:202-234 | the cart's priced lines in insertion order and their subtotal; an empty cart gives no lines and 0 |
| Storefront.Store.AddToCart | elit21/web/app.py:320-353 | the verdict of the checks on the stripped color and size; on success one more unit under the built key, which is appended if new; on rejection the cart is unchanged |
| Storefront.Store.AddVariant | elit21/web/app.py:325-353 | the same, once color and size are stripped |
| Storefront.Store.AddOneUnit | elit21/web/app.py:346-350 | cart[key] = current + 1 under the built key: the new key goes last, an existing one keeps its place |
| Storefront.Store.UpdateCartItem | elit21/web/app.py:355-384 | non-digits are refused; no key changes nothing; 0 pops the key; otherwise an unreadable key or a short row is refused and the quantity is stored. A refusal changes nothing |
| Storefront.Store.RemoveCartItem | elit21/web/app.py:386-393 | a given key is popped and no longer in the cart; no key changes nothing |
| Storefront.Store.PlaceItems | elit21/web/app.py:554-588 | passes iff every line's row holds its quantity, and then gives the lines' item rows |
| Storefront.Store.CreatePaypalOrder | elit21/web/app.py:477-669 | each rejection in the route's order leaves no order and no item. It succeeds iff all checks pass and the gateway gives an id. It then appends one order pending for that id, with the account email, the address and the total, appends exactly the lines' items, and answers with the first approve link |
| Storefront.Store.RecordPendingOrder | elit21/web/app.py:646-650 | the commit appends the order and its items and keeps the books consistent |
| Storefront.Store.TakeStock | elit21/web/app.py:785-801 | the stock writes decrement every line and refresh every named product's stock; they leave no negative row when each variant's row covers the lines' total demand |
| Storefront.Store.MarkPaid | elit21/web/app.py:802-813 | the order is confirmed and paid under the reference; exactly one transaction for it, where it had none |
| Storefront.Store.ClearCart | elit21/web/app.py:822 | session["cart"] = {}: the cart is empty and well formed |
| Storefront.Store.CapturePaypalOrder | elit21/web/app.py:671-828 | rejections in the route's order change nothing; the stock check is the chosen one. An accepted capture decrements the stock, refreshes the products' stock, confirms and pays the order with exactly one transaction, and empties the cart. The cart and books stay valid; with the corrected check no row goes negative |
| Storefront.Store.CaptureResolved | elit21/web/app.py:715-828 | the same, from the email check on, for the resolved order |
| Storefront.Store.SettleCapture | elit21/web/app.py:785-822 | the writes of an accepted capture in the route's order; the cart and books stay valid, and the stock too when it covers each variant's total demand |
| Storefront.Store.StockCheck | elit21/web/app.py:767-783 | runs the chosen pre-check: its answer is Covered for that check |
| Storefront.Store.LinesCovered | elit21/web/app.py:767-783 | holds iff every line's row holds that line's quantity (the pre-check as written) |
| Storefront.Store.StockCovers | elit21/web/app.py:767-783 | holds iff every variant's row covers the total quantity the lines ask of it (the corrected pre-check) |

## Left out

- Flask, sessions as cookies, JSON and the network are not modelled:
  - request fields, the session user id and PayPal's replies are parameters;
  - the `.env` file is given as its lines;
  - urlopen's outcome is given to `Config.OpenRequest`.
- Floating point: prices and totals are integer cents. The shipping fee is a
  decimal (units, scale). The `float(total_money)` written to the orders
  table is the same cent amount.
- The clock: `created_at` and `completed_at` are not recorded.
- The `paypal_items` payload lines (app.py:503-518), with their `[:127]`
  truncations, and the rest of the request body are not modelled, because
  nothing in the checkout reads them back. `Money.MoneyTextRoundTrip`
  covers the amount texts in the payload.
- Logging is not modelled.
- `Text.ParseInt` models int() on ASCII text only: an optional sign,
  digits and surrounding whitespace. Unicode digits and `_` separators are
  not modelled.
- `Text.IsDigits` stands for str.isdigit() (app.py:359) on ASCII digits
  only. Python's isdigit() also accepts other Unicode digits, such as the
  Arabic-Indic three, which int() then reads. Those quantities are not
  modelled.
- Concurrency between sessions and database locking are not modelled. Each
  route runs alone against the tables.
- The admin application, `db.py` (schema and seeding) and `run.py` are not
  part of this model.
- The schema is the one app.py's queries use: a `product_inventory` table
  and `color` and `size` columns in `order_items` (app.py:576). The
  `init_db` of `db.py` (called at app.py:73) creates neither, so the model
  assumes a database in which they exist.
- The cart's key order is the insertion order within one request. Flask's
  default session serializer writes the cart's JSON with sorted keys, so a
  later request sees the keys in string order. That is framework behaviour
  outside app.py and is not modelled.
- `Text.Lower` lower-cases ASCII letters only, where Python's lower()
  covers all of Unicode. Non-ASCII capitals in PAYPAL_ENV or in a URL
  failure reason are left as they are. Both texts are compared with ASCII
  phrases ("live" and the tunnel failure phrase).
- `Money.MoneyText`: Python's Decimal keeps a negative zero. to_money of an
  amount in (-0.005, 0) is Decimal('-0.00'), which format(..., ".2f")
  prints as "-0.00" (app.py:480-484). Integer cents carry no sign on zero,
  so the model prints "0.00", and its leading-minus clause does not cover
  that amount.
- Non-integer JSON ids: `local_order_id` is modelled as an optional
  integer, and a string id that SQLite would coerce is not modelled.
- `@login_required` is not modelled. A missing session user is an absent
  `userId`, which the routes refuse as an unknown account.
- `SessionCart.Lines`: Python raises ValueError on a cart key that does not
  parse. The model skips such a key instead. The cart invariant (every key
  parses) keeps such keys out of the cart, so the difference never shows.
- `Storefront.Store.UpdateCartItem`: where parse_cart_key raises (an error
  page), the model returns `Fail(InvalidKey)` and leaves the cart unchanged.
- `Ledger.FindRow`: product_inventory is a sequence in row-id order, and
  `fetchone()` is the first matching row.
- `Storefront.PaypalRequest`: only the configuration check is modelled. The
  token request, the HTTP call and the JSON decoding are replaced by the
  given reply.
- `cursor.lastrowid` is modelled as the number of orders plus one, since
  orders are never deleted here.
- `Storefront.Store.AddToCart`: its contract gives the new cart; the rise
  in the unit count by exactly one is stated in
  `SessionCart.CountAfterPut`.
- `Storefront.Store.CaptureResolved`: the stock pre-check is evaluated
  before the gateway verdict is consulted. It only reads, so the order of
  evaluation does not change the outcome.
- `Storefront.Store.CapturePaypalOrder`: with `PerLine`, the check as
  written, the model does not promise that every inventory row stays
  non-negative, because the source does not keep that (Findings). It
  promises it under `PerVariant` only.
- `Storefront.Store.CaptureResolved`: the same as the route it serves; the
  stock stays non-negative under `PerVariant` only.
- `Storefront.Store.SettleCapture`: keeps the stock non-negative only when
  each variant's row covers the lines' total demand.
- `Storefront.Store.TakeStock`: the same condition as `SettleCapture`.

## Findings

| source | as written | input that shows it | evidently intended | confidence | as-written member | corrected member |
|---|---|---|---|---|---|---|
| elit21/web/app.py:767-793 | the capture's stock pre-check tests each order line on its own against its row, then decrements the lines one after another | a cart holding "5\|Red\|M" and "05\|Red\|M" (the second stored through update_cart_item, since int() accepts the leading zero), one unit each, with one unit in stock: both lines pass, and the row ends at -1 | the pre-check should compare each variant's row with the total the lines ask of that variant, so no row goes negative | not executed | Ledger.LinesCheckOverdraws | Ledger.DemandCheckKeepsStock |

The whole route as written is `Storefront.Store.CapturePaypalOrder` with
`PerLine`. Its contract admits the overdraft shown by
`Ledger.LinesCheckOverdraws`. The same method with `PerVariant` is the
corrected route.
