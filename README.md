# Cart of the Wooden Handicraft shop, in Dafny

The shop's front-end script (js/script.js) keeps a shopping cart: a global
array `cart` of lines `{id, name, price, image, quantity}`, loaded from the
browser's storage slot "CART" at start-up. Three handlers change it:

- `addToCart` merges a product into the line with the same id, or appends it.
- `changeQuantity` moves one line's quantity, and removes the id when the
  quantity reaches zero or below.
- `removeFromCart` filters out the id.

Each handler saves the cart back to the slot, except `changeQuantity` on an
id that has no line, which changes and saves nothing (js/script.js:123-124).
The cart panel and the checkout button both sum `price * quantity` over the lines. Checkout is refused when
the cart is empty. The product page looks its product up by id in the fixed
catalog `productsDB`.

The project has three modules:

- `CartLines` (cart_lines.dfy) gives the cart as a value: a `seq<CartLine>`.
  Each handler is a function on that sequence (`Added`, `ChangedQuantity`,
  `Removed`), with the first-match search `IndexOf` and the sum `Total`.
  It proves what each handler does line by line and per id. It proves that
  the handlers keep the two cart invariants, "one line per id" and
  "quantity at least 1". It proves how each handler moves the total.
- `Catalog` (catalog.dfy) holds the four products and the first-match lookup.
- `CartStore` (cart_store.dfy) holds the class `Cart`. Its `lines` field is
  rewritten in place by the handler methods. Its ghost field `saved` stands
  for the storage slot. Each method is proved to leave `lines` as the
  matching `CartLines` function says, and to update `saved` on exactly the
  paths where the script calls `saveCart`; `Click` and `ProductPageAdd`
  state the same of the handlers they call. The search and the totals are
  `while` loops proved against `IndexOf` and `Total`. `Click` dispatches the
  page's buttons. `ReplayWellFormed` shows that any run of clicks from a
  well-formed cart keeps both invariants.

Behaviour kept from the script as written:

- A merge keeps the existing line's name, price and image; only the quantity
  grows, even if the added product carries another price.
- `changeQuantity` acts on the first line with the id, but when that line
  drops to zero or below, `removeFromCart` drops every line with the id.
- `addToCart` takes whatever quantity it is given. The invariants hold
  because the page only adds single items (js/script.js:61, 200).
- A stored value that is not valid JSON makes `JSON.parse`
  (js/script.js:21) throw; the cart does NOT fall back to empty then. Only a
  missing slot gives an empty cart, and `Cart.Load` models just that.

## Model

| member | source | states |
|---|---|---|
| CartLines.IndexOf | js/script.js:115 | the result is -1 or a line index; at that index the id matches, and no earlier line (no line at all for -1) carries the id |
| CartLines.Total | js/script.js:149-152 | the total of an empty cart is 0; the total is never negative when no quantity is negative |
| CartLines.Added | js/script.js:114-117 | an id already present: same length, the matched line's quantity grows by the product's quantity, every other line is unchanged; a new id: the old lines are kept in order and the product is appended last |
| CartLines.AddedQuantities | js/script.js:114-117 | per id, adding raises the quantity recorded for the product's id by the product's quantity (from 0 when absent) and leaves every other id's quantity unchanged |
| CartLines.AddedCount | js/script.js:115-117 | adding creates a line for a new id and never a second line for an id already present |
| CartLines.AddedWellFormed | js/script.js:114-117 | adding a product with quantity at least 1 keeps the ids pairwise distinct and every quantity at least 1 |
| CartLines.RepeatedAdd | js/script.js:114-117 | adding the same id several times leaves exactly one line for it, whose quantity is the earlier quantity plus the sum of the added quantities |
| CartLines.Removed | js/script.js:132 | filtering never lengthens the cart |
| CartLines.RemovedMembers | js/script.js:132 | a line survives the filter exactly when it was in the cart and carries another id |
| CartLines.RemovedNone | js/script.js:132 | after removal no line carries the id |
| CartLines.RemovedAbsent | js/script.js:132 | removing an id with no line leaves the cart unchanged |
| CartLines.RemovedIdempotent | js/script.js:132 | removing the same id twice equals removing it once |
| CartLines.RemovedAppend | js/script.js:132 | removal works piecewise over concatenation, so the kept lines stay in their original order |
| CartLines.RemovedDistinct | js/script.js:131-132 | with one line per id, removal yields the cart with exactly the found line cut out |
| CartLines.QuantityOfRemoved | js/script.js:132 | removing one id leaves the quantity recorded for every other id unchanged |
| CartLines.RemovedUpdate | js/script.js:125-126 | writing a new quantity into the line before removing its id does not change what removal leaves |
| CartLines.RemovedAllPositive | js/script.js:132 | removal keeps every quantity at least 1 |
| CartLines.RemovedDistinctIds | js/script.js:132 | removal keeps the ids pairwise distinct |
| CartLines.RemovedWellFormed | js/script.js:131-135 | removal keeps both cart invariants |
| CartLines.ChangedQuantity | js/script.js:122-129 | an absent id leaves the cart unchanged; a present id whose quantity plus the change is at most 0 has no line afterwards, and with one line per id exactly that line is cut out; otherwise same length, only the matched line's quantity moves, by exactly the change |
| CartLines.ChangedQuantities | js/script.js:122-129 | per id, the quantity recorded for the id becomes the old quantity plus the change, or 0 when absent or dropped; every other id's quantity is unchanged |
| CartLines.ChangedWellFormed | js/script.js:122-129 | any change of quantity keeps both cart invariants, because a line that would fall to 0 or below is removed |
| CartLines.TotalAppend | js/script.js:149-152 | the total of two carts joined is the sum of their totals |
| CartLines.TotalAdded | js/script.js:114-117 | adding raises the total by the added quantity times the unit price of the line it lands on: the existing line's price, or the product's own price |
| CartLines.TotalChangedKept | js/script.js:125-127 | when the changed line stays, the total moves by its price times the change |
| CartLines.TotalChangedRemoved | js/script.js:125-126 | with one line per id, when the changed line goes, the total drops by that line's whole total |
| Catalog.FindProduct | js/script.js:184 | nothing is found exactly when no product has the id; a found product has the id and no earlier product has it |
| Catalog.FindProductDistinct | js/script.js:184 | in a catalog with one product per id, looking up a product's id finds that product |
| Catalog.CatalogLookup | js/script.js:13-18 | every product of the shop's catalog is found by its own id |
| CartStore.StepWellFormed | js/script.js:54-75 | one click on a grid add button, the product page add button, or a line's remove, plus or minus control keeps both cart invariants |
| CartStore.ReplayWellFormed | js/script.js:54-75 | any sequence of such clicks from a well-formed cart, the empty cart among them, ends in a well-formed cart |
| CartStore.Cart.Load | js/script.js:21 | the cart starts as the stored lines, or empty when the slot holds nothing; the slot is left as it was |
| CartStore.Cart.Save | js/script.js:137 | the slot now holds the current lines; the lines are unchanged |
| CartStore.Cart.Find | js/script.js:115 | the loop returns the index of the first line with the id, or -1 exactly when no line has it |
| CartStore.Cart.AddToCart | js/script.js:114-120 | the lines become `Added` of the old lines, the slot holds the new lines, and both invariants are kept for a product of quantity at least 1 |
| CartStore.Cart.RemoveFromCart | js/script.js:131-135 | the lines become `Removed` of the old lines, the slot holds them, and both invariants are kept |
| CartStore.Cart.ChangeQuantity | js/script.js:122-129 | the lines become `ChangedQuantity` of the old lines; the slot is rewritten when the id was present and untouched when it was absent; both invariants are kept |
| CartStore.Cart.CartTotal | js/script.js:92-96 | the loop's accumulated total equals the sum of price times quantity over the lines |
| CartStore.Cart.Checkout | js/script.js:80-101 | checkout is refused exactly when the cart is empty; otherwise the order lists the lines in cart order with their total, which is non-negative when every quantity is positive |
| CartStore.Cart.Click | js/script.js:54-75 | each click (the grid's add button, or a line's remove, plus or minus control) changes the lines as its handler does, as the dispatch function `Step` spells out; the slot is rewritten except for a plus or minus on an id with no line; both cart invariants are kept |
| CartStore.ProductPageAdd | js/script.js:184-201 | the product is looked up by exact id; when none is found the cart and the slot are unchanged, otherwise the line `NewLine` builds (`{ ...product, quantity: 1 }`, one item) is added and the slot holds the new lines |

## Left out

- DOM selection, the mobile menu, opening and closing the cart panel, and
  the HTML that `renderCart` builds (js/script.js:2-10, 31-45, 111-112,
  154-176) are presentation only. Of `renderCart` only the total is kept;
  its empty-cart branch shows 0, which is `Total([])`.
- The redraw after each change is not modelled. It reads the cart and
  changes nothing in it.
- The storage slot is a ghost snapshot. `JSON.stringify` and `JSON.parse`
  are not modelled, so the save/load round trip is an identity here. A
  malformed stored value, on which `JSON.parse` throws, is not modelled.
  Neither are stored values that parse to `null` or another falsy value
  and so fall back to `[]`.
- Price formatting with `toLocaleString`, the order message text, the
  wa.me address and `window.open` (js/script.js:86-106) are external
  output. `Checkout` returns the lines and the total the message is built
  from.
- `parseInt` of the grid button's price can give NaN (js/script.js:59).
  The model takes prices as natural numbers.
- The product page compares ids with loose `==` (js/script.js:184). The
  model compares strings exactly.
- The URL query parsing and the page-path test (js/script.js:180-182) are
  browser environment. `ProductPageAdd` takes the product id as a
  parameter.
- JavaScript numbers are doubles. Totals above 2^53 would lose precision;
  the model's integers are unbounded.
- Cart lines are values. The script increments the found line object in
  place. No other reference to that object exists: the grid builds a fresh
  object and the product page spreads the catalog entry into a fresh one.
  So aliasing is not modelled.
- `NewLine` drops the `description` that the spread at js/script.js:200
  copies into the line. Nothing reads it from a cart line.
- The script has no operation that empties the cart, so none is modelled.
