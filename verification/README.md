# Gamestore cart and checkout, modelled in Dafny

This project models the session shopping cart of the Gamestore storefront
(`app.js`) and the checkout step that turns the cart into order rows. Each
Express handler becomes a pure function from the old session cart to the new
one, plus the reply it sends:

- `/cart/add` clamps the requested quantity (NaN or anything below 1 becomes
  1), then merges into the first line with the same product id or appends a
  new line carrying the request's name, price and image.
- `/cart/remove/:id` keeps exactly the lines whose id differs.
- `/cart/update` adds one unit on `sumar`, takes one away on `restar` only
  while more than one unit is left, and answers `{success, newQty, total}`
  with `newQty = 0` for an absent id.
- The cart page total and the header badge count are the left-to-right
  reductions the server runs; they are proved equal to independent recursive
  sums.
- `/checkout` redirects to `/login` without a user, then to `/` with an empty
  cart; otherwise it writes one `ventas` header with the cart total, one
  `detalle_ventas` row per cart line in cart order, and empties the cart.
- The middleware creates an empty cart for a new session and counts its
  units; a run of requests from a fresh session keeps every cart well formed
  (distinct product ids, every quantity at least 1).

Modules: `Wrappers` (the `Option` type), `CartLines` (line items, the
well-formedness invariant, totals, counts, `find`), `CartHandlers` (the
three cart handlers), `CartProperties` (properties relating handlers to each
other and to the totals), `Orders` (checkout and the two order tables),
`Sessions` (middleware, one request step, runs of steps).

Modelling choices:

- `parseInt` is an input of type `Option<int>`; `None` stands for NaN.
- Prices are exact integers, counted in cents, instead of JavaScript
  doubles from `parseFloat`; sums are exact.
- Product ids are one type (`string`), so the source's loose `==` and `!=`
  are ordinary equality.
- The database is two append-only sequences of rows. The id the database
  generates for a new `ventas` row is an input of the checkout.

The checkout has no rollback: the code ignores the error of the detail
insert and clears the cart once that insert returns, whatever its outcome.
The model treats both inserts as succeeding and has no abort path. Removal
drops every line with the id, not only one; in a well-formed cart this is
the same.

## Model

| member | source | states |
|---|---|---|
| CartLines.TotalFrom | app.js:146-147 | the running `total += precio * cantidad` over the lines equals the start value plus the sum of the line subtotals |
| CartLines.CartTotal | app.js:108-109 | the total shown on the cart page is the sum of price times quantity over the cart |
| CartLines.CountFrom | app.js:26-29 | the `reduce` over quantities equals the start value plus the sum of the quantities |
| CartLines.CartCount | app.js:26-29 | the badge count is the sum of the quantities in the cart |
| CartLines.FindIndex | app.js:119 | `find` returns the first line with the id, none exactly when no line has it, and in a cart with unique ids the one line that has it |
| CartLines.CountAtLeastLines | app.js:26-29 | when every quantity is at least 1 the badge shows at least one unit per line, and at least 1 for a non-empty cart |
| CartHandlers.ClampQuantity | app.js:116-117 | the added quantity is at least 1, equals the parsed value when that is at least 1, and is 1 for NaN or a value below 1 |
| CartHandlers.AddToCart | app.js:119-130 | a present id raises that line's quantity by the clamped amount and changes nothing else; an absent id appends one line with the request's fields after the unchanged old lines; well-formedness is kept |
| CartHandlers.RemoveFromCart | app.js:135 | no remaining line has the id, every remaining line was in the cart, every line with another id remains, and an absent id leaves the cart as it was |
| CartHandlers.UpdateQuantity | app.js:140-148 | only the first line with the id changes: `sumar` adds 1, `restar` subtracts 1 only above 1, other actions change nothing; an absent id leaves the cart and answers 0; the reported total is the sum over the new cart; well-formedness is kept |
| CartProperties.AddTotal | app.js:113-130 | an add raises the total by the clamped quantity times the price snapshot of the line it lands on (the existing line's price on a merge, the request's on an append) |
| CartProperties.AddCount | app.js:119-130 | an add raises the badge count by exactly the clamped quantity |
| CartProperties.AddTwiceMerges | app.js:119-121 | two adds of the same product in a well-formed cart leave a single line for it holding both clamped quantities on top of its old quantity |
| CartProperties.RemovePreservesWellFormed | app.js:135 | removal keeps product ids unique and quantities at least 1 |
| CartProperties.RemoveKeepsOrder | app.js:135 | for any cart, removal of a concatenation is the concatenation of the removals, and a single line goes exactly when it has the id, so the result is the other lines in their original order |
| CartProperties.RemoveDeletesOneLine | app.js:135 | in a well-formed cart, removing a present id deletes exactly its line and keeps the others in order |
| CartProperties.RemoveTotalAndCount | app.js:135 | removing a present line lowers the total by its subtotal and the count by its quantity |
| CartProperties.IncrementThenDecrement | app.js:143-144 | `sumar` followed by `restar` on the same id restores a well-formed cart exactly |
| CartProperties.DecrementAtOneIsNoOp | app.js:144 | `restar` on a line holding one unit leaves the cart unchanged and answers 1 |
| Orders.DetailRows | app.js:163-168 | one detail row per cart line, in cart order, each `(ventaId, id, cantidad, precio)` of its line |
| Orders.Checkout | app.js:151-175 | no user redirects to login and an empty cart to the catalog, both touching neither cart nor tables; otherwise one header with the user and the cart total, one detail row per line appended after the old rows, and an empty cart |
| Orders.RowsTotalIsCartTotal | app.js:155-168 | the detail rows built from a cart add up to the cart total |
| Orders.CheckoutHeaderMatchesRows | app.js:155-173 | a successful checkout writes exactly one header whose total equals the sum over the detail rows written with it, all carrying its id, as many as the cart had lines |
| Orders.CheckoutExample | app.js:151-175 | a cart of 2 x 10.00 and 1 x 5.00 gives one order of 25.00, rows (1,2,10.00) and (2,1,5.00), and an empty cart |
| Sessions.Middleware | app.js:23-29 | a session without a cart gets an empty one, an existing cart is kept, and the badge count is the sum of its quantities |
| Sessions.Step | app.js:107-175 | each request keeps the user, only a checkout writes to the tables, each handler gives its reply (redirect targets, JSON with the new total), and well-formedness is kept |
| Sessions.Run | app.js:23-24 | a run of requests keeps the user and well-formedness, and leaves the tables untouched when it contains no checkout |
| Sessions.FreshSessionStaysWellFormed | app.js:24 | from a session whose cart starts empty, every reachable cart has distinct product ids, quantities at least 1, and a badge count of at least one per line |

## Left out

- Express setup, routing glue, static files, EJS rendering and the `?added=true` toast flag (app.js:1-21, 30, 72-77): plumbing with no decisions; the redirect target is kept as a string.
- The MySQL connection and all queries other than the two checkout inserts: catalog search and category filter, registration, login, and order history (app.js:34-70, 79-105, 213-222). Their behaviour lives in the database engine.
- The PDF receipt (app.js:181-211): a wrapper around a layout library.
- Errors of the two checkout inserts (app.js:161-162, 172): a failed header insert leaves `result` undefined, so reading `result.insertId` throws and the request ends with no detail rows, no cart reset and no reply; a failed detail insert is ignored and the cart is cleared anyway. Both inserts are modelled as succeeding, and the generated header id is an input that is not checked to be fresh.
- CartHandlers.UpdateQuantity: quantities are modelled as exact integers, here and in CartHandlers.AddToCart, CartHandlers.ClampQuantity and CartProperties.IncrementThenDecrement. The source keeps them in JavaScript doubles, which round above 2^53 (there `sumar` on 9007199254740992 leaves it unchanged, so `sumar` then `restar` does not restore the cart) and can reach Infinity when `parseInt` reads a digit string of more than about 309 digits, which the clamp lets through.
- Concurrent requests of one session: requests are assumed not to overlap. In the source a checkout spans two asynchronous database round-trips (app.js:158-176) and each request works on its own copy of the session, so two overlapping checkouts can both see the full cart and both write an order, and an add arriving during a checkout can bring cleared lines back. Sessions.Run and Orders.Checkout handle one request at a time, each as one atomic step.
- Floating-point prices and string parsing: `parseFloat` becomes an exact price in cents and `parseInt` an already parsed `Option<int>`; a NaN price is not modelled.
- Session lifetime, expiry and logout (app.js:15-21, 74-77) beyond a cart that starts empty.
