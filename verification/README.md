# Cart page item-list model

A Dafny model of the state logic inside the storefront's cart page
(`src/CartPage.jsx`). The page keeps an ordered list of cart lines. Each line has a
product id, a unit price, a quantity and a line total. The page changes the list
only after the cart service confirms a change:

- **Remove** (`handleRemoveItem`) sends a delete. On status 204 exactly, it drops every
  line of that product and keeps the rest in order. Any other reply leaves the list
  as it was.
- **Change quantity** (`handleQuantityChange`) treats a new quantity of 0 or less as a
  removal. Otherwise it sends an update. On an ok reply (status 200-299), each line of
  that product gets the new quantity and a line total recomputed as unit price times
  the new quantity.
- **Derived figures.** The subtotal is the sum of the line totals. The header's cart
  count is the sum of the quantities. The grand total is the subtotal plus a flat
  370.00-rupee shipping charge.
- **Checkout.** Checkout sends a snapshot: the subtotal, plus one
  (product, quantity, unit price) entry per line.

Money is held as integer paise (1 rupee = 100 paise). The page keeps prices as
two-decimal strings made with `parseFloat`/`toFixed(2)` and adds them as JavaScript
doubles. The model states the intended exact two-decimal arithmetic. Under that
reading, the `toFixed(2)` rounding of a sum of two-decimal amounts is the identity.

Each handler is a pure function. It takes the current list, the session's username,
the product id, the new quantity (for a quantity change) and the server's reply. The
reply is an HTTP status code or a network error. The function returns a `Step`: the
next list and the request the handler sent. For a quantity of 0 or less, the reply
parameter is the reply to the delete request that the handler issues instead.

Modules: `Sums` (generic sum over a sequence), `Cart` (the line datatype, plus the
filter and map the handlers apply), `Totals` (subtotal, item count, shipping, grand
total, and the page's running-sum loops), `Handlers` (the two handlers), `Checkout`
(the order-creation body) and `View` (what the page renders).

## Model

| member | source | states |
|---|---|---|
| Cart.Without | src/CartPage.jsx:70 | The list after filtering out product `id` holds exactly the old lines whose id differs. It equals the old list iff no line has that id. It is empty iff every line has that id. |
| Cart.WithoutAppend | src/CartPage.jsx:70 | The filter preserves relative order: filtering a concatenation gives the concatenation of the filtered parts. |
| Cart.WithoutIdempotent | src/CartPage.jsx:70 | Removing a product a second time changes nothing. |
| Cart.WithoutCommutes | src/CartPage.jsx:70 | Removing two products in either order gives the same list. |
| Cart.SetQuantity | src/CartPage.jsx:90-100 | The updated list has the same length. Lines of other products are unchanged. Each line of the product takes the new quantity and the line total unit price × new quantity; its other fields stay the same. |
| Cart.WithoutAfterSetQuantity | src/CartPage.jsx:90-100 | Updating a product's quantity and then removing that product gives the same list as removing it directly. |
| Cart.SetQuantityLastWins | src/CartPage.jsx:90-100 | Of two successive updates to one product, the later one decides the list. |
| Cart.SetQuantityConsistent | src/CartPage.jsx:96 | If every line total equals unit price × quantity before an update, the same holds after it. |
| Cart.MatchingUnique | src/CartPage.jsx:92 | When product ids are unique, the update's id test matches exactly one line. |
| Totals.ComputeSubtotal | src/CartPage.jsx:56-59 | The page's left-to-right reduce over line totals equals the reference sum of line totals. It is 0 for an empty list. |
| Totals.TotalProducts | src/CartPage.jsx:183 | The page's reduce over quantities equals the reference sum of quantities. It is 0 for an empty list. |
| Totals.RemovalTotals | src/CartPage.jsx:70 | Filtering out a product lowers the subtotal by exactly that product's line totals, and the item count by exactly its quantities. |
| Totals.SetQuantityTotals | src/CartPage.jsx:90-100 | After an update, the subtotal is the other lines' total plus new quantity × the product's unit prices. The item count is the other lines' count plus new quantity × the number of the product's lines. |
| Totals.OneLineUpdateTotals | src/CartPage.jsx:90-100 | With unique ids, an update swaps one line's total for unit price × new quantity, and its quantity for the new quantity. |
| Handlers.RemoveItem | src/CartPage.jsx:61-75 | The handler always sends a delete for (username, id). On status 204 the list is exactly the filtered list `Cart.Without(items, id)`: no line of the product remains, every other line is kept exactly once, in order, and no line is added. On any other status or a network error, the list is unchanged. |
| Handlers.ChangeQuantity | src/CartPage.jsx:77-105 | For a new quantity of 0 or less, the result is exactly the removal's: a delete is sent, not an update. Otherwise an update for (username, id, quantity) is sent. On an ok reply, the length is kept, other products' lines are unchanged, and the product's lines get the new quantity and unit price × new quantity. On a non-ok reply or a network error, the list is unchanged. |
| Handlers.RemoveKeepsOrder | src/CartPage.jsx:69-70 | A confirmed removal keeps the remaining lines in their original relative order. |
| Handlers.RemoveTotals | src/CartPage.jsx:69-70 | After a confirmed removal, the subtotal drops by the removed lines' totals and the cart count by their quantities. |
| Handlers.ChangeQuantityTotals | src/CartPage.jsx:89-100 | After a confirmed quantity update, the subtotal and cart count change only through the product's lines, now priced at the new quantity. |
| Handlers.HandlersKeepConsistent | src/CartPage.jsx:69-100 | Neither handler, whatever the reply, breaks the agreement of line totals with unit price × quantity. |
| Handlers.IncrementAddsOneUnit | src/CartPage.jsx:217 | Pressing "+" on a line of a consistent cart with unique ids adds 1 to the cart count and one unit price to the subtotal, when the server accepts. |
| Handlers.DecrementLastUnitRemoves | src/CartPage.jsx:215 | Pressing "-" on a line with quantity 1 or less sends a delete, not an update. Once the server confirms, no line of the product remains and the list is shorter. |
| Handlers.RemoveLastProductEmptiesCart | src/CartPage.jsx:69-70 | A confirmed removal of the only product in the cart leaves an empty list. View.Render maps an empty list to the empty-cart page. |
| Checkout.OrderLines | src/CartPage.jsx:117-121 | The snapshot has one entry per cart line, in cart order. Each entry carries that line's product id, quantity and unit price. |
| Checkout.BuildCreateOrderBody | src/CartPage.jsx:115-122 | The order-creation body's total equals the sum of the line totals (0 for an empty cart). Its entries match the cart lines one for one, in order. |
| Checkout.ConsistentSnapshotPricesItself | src/CartPage.jsx:115-122 | If every line total equals unit price × quantity, the body's total equals the sum of price × quantity over its own entries. |
| Checkout.OrderLinesAppend | src/CartPage.jsx:117-121 | The snapshot of a concatenation is the concatenation of the snapshots, so the snapshot keeps cart order. |
| Totals.GrandTotal | src/CartPage.jsx:229 | The order-summary total is the subtotal plus the fixed shipping charge of 5.0 × 74 = 370.00 rupees (line 184), that is 37000 paise. |
| View.Render | src/CartPage.jsx:183-229 | The empty-cart page is shown iff the list has length 0. Otherwise: the header count is the sum of quantities, the "You have N items" label is the number of lines, one line total is shown per line in cart order, and the order total is the sum of line totals plus 37000 paise. |

## Left out

- HTTP I/O (`fetch`, credentials, headers, JSON bodies, base URLs). Each call becomes the request the handler sends plus a `Reply` parameter (a status code or a network error). The backend is not part of this model.
- The initial cart load and its `parseFloat`/`toFixed(2)` normalisation (src/CartPage.jsx:30-54). This is network I/O plus float-to-string formatting. The model starts from whatever list the server supplied. The server-reported overall total (line 46) is stored but never displayed, so it is left out as well.
- JavaScript floating-point rounding. All money is exact integer paise (see above). So is the shipping constant: 5.0 × 74 rupees = 37000 paise.
- The checkout orchestration around the body (src/CartPage.jsx:14-28, 107-113, 124-181): loading the payment script, the widget options, the `subtotal * 100` amount conversion, the verification callback, `alert` and navigation. These are third-party globals, DOM manipulation and asynchronous callbacks. In the source the body is only built after the script has loaded; `Checkout.BuildCreateOrderBody` models the body on its own, without that precondition. The decisions in this plumbing are left out with it: the abort when the script fails to load (line 110), the abort when order creation gets a non-ok reply (line 131), and the success/failure branch on the verify reply (line 154).
- React state and effect scheduling. Each handler's `setCartItems` is one atomic transition. The subtotal effect is taken to have run before the page renders or checks out. The one render in which the page shows a stale subtotal is not modelled.
- JSX markup beyond the figures in `View.Page`, and the `Header`/`Footer` components. This is view code; Header.jsx and Footer.jsx are not part of this model.
- `console.error` logging on failures. It has no effect on state.
- Duplicate or overlapping handler calls: the handlers run one at a time. Replies that arrive out of order are not modelled.
