# Cart page controller, modelled in Dafny

This project models the controller class `CartApp` of a small shopping-cart page
(`script.js`). On each load the page fetches one cart from a catalog service, then
fetches every product the cart references, and builds one line item per cart entry.
A product whose fetch failed becomes a failure marker. The page renders the items
into a grid of cards and shows the cart total. Three panels (loading, error, cart)
report where the load stands.

The network is replaced by inputs. `LoadCart` receives the outcome of the cart fetch
(`Option<CartRecord>`) and one outcome per cart entry for the product fetches
(`seq<Option<Product>>`). From these inputs everything in the model is deterministic.

Modules:

- `Wrappers`: the `Option` type used for fetch outcomes and element lookups.
- `CartData`: the cart, cart entry, product and cart-summary records, and the total
  item count (the `reduce` over quantities).
- `LineItems`: the line item built for each cart entry, and the sums that specify the
  cart total. These are `SuccessTotal` (the filtered sum the code accumulates),
  `AllTotal`, and `ExpectedTotal` (price times quantity over the fetched products).
- `ProductGrid`: the grid as a sequence of cards keyed by product id, the placeholder
  grid, the `getElementById` lookup (`FindCard`), and `Paint`. `Paint` is the
  rendering pass of `displayProducts` written as a function.
- `CartPage`: the class `CartApp`. Its fields are the three panel flags, `cartData`,
  `products`, `totalAmount`, the cart-info panel, the grid and the total element. Its
  methods mirror `showLoading`/`showError`/`showCart`, `displayCartInfo`,
  `createProductPlaceholders`, `loadProducts`, `displayProducts` and `loadCart`. A
  ghost `events` trace records the order of the visible steps of a load.

Prices and totals are `real`, and quantities and ids are `int`.

Behaviour of `script.js` that the model keeps:

- One product fetch is made per cart entry, so a repeated product id is fetched twice.
- Line items are rendered after every product fetch has settled, in cart order.
- A failure marker has the title `Failed to load product`, price 0 and an empty image.
- Nothing guards against overlapping loads.
- If a line item's id names no card, assigning to the missing card throws. The load
  then ends on the error panel, after the cart panel had already been shown. The model
  keeps this path: `DisplayProducts` returns `false`. `SettleWhenResponsesMatch` shows
  that this path cannot be taken when every fetched product carries the id that was
  requested.

## Model

| member | source | states |
|---|---|---|
| CartData.TotalItems | script.js:101 | the total item count equals the sum of the entries' quantities, and is 0 for an empty cart |
| CartData.ReduceQuantityIsSum | script.js:101 | the left-to-right `reduce` started at any value adds exactly the sum of the quantities to it |
| CartData.TotalItemsAtLeastEntries | script.js:101 | when every quantity is positive, the count is at least the number of entries |
| CartData.Summarize | script.js:99-107 | the summary shows the cart's date, its user id, and the sum of its quantities |
| LineItems.BuildLineItems | script.js:129-152 | the ordered map yields exactly one line item per cart entry |
| LineItems.LineItemsFollowCart | script.js:129-149 | item i keeps entry i's quantity and is a failure marker exactly when fetch i failed. A fetched product's id, title, price and image are copied, with totalPrice = price × quantity. A failure marker has the entry's product id, the failure title, price 0, image '' and totalPrice 0 |
| LineItems.SuccessTotalIsExpected | script.js:161-176 | the sum of totalPrice over non-error line items equals price × quantity summed over the fetched products |
| LineItems.FailuresContributeNothing | script.js:139-147 | failure markers carry totalPrice 0, so the filtered sum equals the sum over all line items |
| LineItems.FailedFetchTakesOutItsShare | script.js:137-147 | a failed fetch at position k lowers the total by exactly that entry's price × quantity, compared with the same load where the fetch succeeded; every other line item is the same in both loads |
| LineItems.SingleItemTotal | script.js:135 | two units of a product priced 9.99 total 19.98 |
| ProductGrid.PlaceholdersKeyedByCart | script.js:110-123 | the placeholder grid has one loading card per cart entry, keyed `product-{productId}`, in cart order |
| ProductGrid.FindCardFirst | script.js:163 | the lookup finds a card exactly when some card has the id, and then it finds the first such card in document order |
| ProductGrid.PaintKeepsKeys | script.js:161-176 | rendering never adds, removes or renames a card |
| ProductGrid.PaintCompletes | script.js:161-176 | the rendering pass completes exactly when every line item's id names a card; when it does, the total grows by the sum of totalPrice over non-error items |
| ProductGrid.PaintSlotsFrom | script.js:161-176 | with distinct card ids, items matched to consecutive cards are each rendered into their own card, in product or error style, and the other cards are left unchanged |
| ProductGrid.PaintEachSlot | script.js:161-176 | rendering a cart's line items into its placeholder grid, with distinct product ids, puts each item into the card at its own position |
| CartPage.SettleWhenResponsesMatch | script.js:125-176 | when every fetched product has the requested id, the load finds every card and keeps the cart's keys, and the total is price × quantity summed over the fetched products |
| CartPage.SettleEachSlot | script.js:110-176 | when in addition the product ids are distinct, card j shows line item j: the product, or the failure marker |
| CartPage.CartApp.constructor | script.js:2-12 | the fields start as null, empty and 0, and the first load runs to completion: afterwards the cart, summary, line items, grid, total and total element are those of that load, and exactly one panel is visible |
| CartPage.CartApp.ShowLoading | script.js:30-34 | afterwards exactly one panel is visible, the loading panel |
| CartPage.CartApp.ShowError | script.js:36-40 | afterwards exactly one panel is visible, the error panel |
| CartPage.CartApp.ShowCart | script.js:42-46 | afterwards exactly one panel is visible, the cart panel |
| CartPage.CartApp.DisplayCartInfo | script.js:99-108 | the cart-info panel shows the summary of the current cart |
| CartPage.CartApp.CreateProductPlaceholders | script.js:110-123 | the grid is emptied, then holds exactly one loading card per cart entry, keyed by product id, in cart order |
| CartPage.CartApp.DisplayProducts | script.js:161-176 | the grid, the running total and completion are those of rendering `products` in order from the old grid and old total |
| CartPage.CartApp.LoadProducts | script.js:125-159 | `products` is the ordered line-item map. The total is reset to 0 before rendering, so on completion it equals the filtered sum and the price × quantity total, and no earlier total carries over. The total element is updated only when rendering completes |
| CartPage.CartApp.LoadCart | script.js:74-97 | a failed cart fetch shows only the error panel. No placeholders or line items are produced, nothing is requested, and every other field keeps its value. Otherwise the load stores the cart and renders its summary. It then shows the cart panel, rebuilds the placeholder grid, and only then requests the products. It ends on the cart panel or, if a card was missing, on the error panel. The resulting grid and total depend only on this load's inputs |

## Left out

- Fetching and decoding (`fetchCart`, `fetchProduct`, script.js:48-72): network I/O. Their outcomes are inputs, and the base URL and cart id are used only there.
- LoadCart, LoadProducts: they require one product outcome per cart entry. This is the shape of the input that replaces the per-entry fetches, not a check the code makes.
- Asynchronous scheduling: `Promise.all` is modelled as an ordered map, and the order in which fetches settle is not modelled. Overlapping loads are not modelled, because the code has no guard against them.
- Markup and DOM: HTML strings, class names and element handles. Cards are modelled as a key plus a state (spinner, product, error). The total element holds the number shown.
- Formatting: `toFixed(2)` and `toLocaleDateString` depend on floating point and locale. The model keeps the raw date and the exact total.
- JavaScript numbers are modelled as exact reals, so binary floating-point rounding of price × quantity and of the running sum is not modelled.
- Product fields other than id, title, price and image are not modelled. In the code the spread copies every field, and the `quantity` and `totalPrice` written after it override same-named product fields. The modelled product has no such fields, so the override holds trivially. A response carrying its own `error` field is not modelled either.
- Malformed responses are not modelled: a `null` cart body, a missing `products` array, or a non-numeric price. The code would throw or compute NaN. The model assumes the documented schema.
- PaintEachSlot, SettleEachSlot: per-slot rendering is stated only for carts with distinct product ids. With a repeated id, the lookup finds the first card twice and a later card keeps its spinner. `Paint` models this case, but no per-slot claim is made for it.
- Event wiring (`bindEvents`, the `DOMContentLoaded` listener, script.js:24-28, 209-212): the retry button calls `loadCart` again, which is `LoadCart` with new inputs.
- `console.error` logging.
- The panels' visibility, the grid, the cart-info panel and the total element before the first load come from the page markup, which is not part of this model (script.js:15-21 only looks the elements up). The constructor starts with all panels hidden, an empty grid, no summary and no total shown. The first load overrides the panels at once; after a failed cart fetch the grid, summary and total element keep these assumed starting values.
- CartPage.CartApp.constructor: script.js:11 calls `loadCart()` without awaiting it, so the real constructor returns while the loading panel is still showing and the fetches are pending. The model runs that first load to completion inside the constructor.
