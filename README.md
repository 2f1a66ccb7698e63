# Bookstore backend: cart ledger, orders and catalog edits

A Dafny model of the three controller files of a small bookstore backend that hold logic
beyond passing queries to the database:

- `src/controllers/cartControllers.js`. This is the session cart ledger.
  - It keeps one cart per session id. Each cart has one line per book.
  - A line's `priceAtAddition` is the book's price when the book was first added. Later adds to the line keep that price.
  - Every mutation recomputes `total` as Σ `priceAtAddition × quantity` over the lines that remain.
- `src/controllers/shopControllers.js`. This holds order placement and the admin book edits.
  - Book resolution in order placement is all-or-nothing.
  - Each order line snapshots the book's `numericPrice`, and the order stores the computed total.
  - Order statuses come from a fixed whitelist.
  - `updateBook` changes only the fields given truthy values.
- `src/controllers/categoriesControllers.ts`. This holds the guest-keyed add-to-cart, the sorted category list, and a second set of book edits.
  - Add-to-cart is keyed by `(bookId, userId || 'guest')`.
  - Its book edits check for required fields and missing ids.

The database is in-memory state held by one class per controller file:

- `CartLedger.Store` has a catalog `bookId → price in cents` and a cart table `sessionId → Cart`.
- `Shop.Shop` has the book and order tables, with autoincrement counters.
- `Categories.Catalog` has string-keyed books and the cart rows.

Each handler is a method. It returns a `Http.Status` (`Ok200 | Created201 | BadRequest400 | NotFound404`) and the response data. Its postcondition gives the whole new state.

Several pure parts of the handlers are functions:

- the `reduce` that computes a total;
- the `find` that locates a line;
- the status whitelist;
- the category `map/filter/sort` pipeline.

The lemmas about these functions carry the properties. The main ones are:

- the ledger invariant (one line per book, and the total equal to the sum) is kept by every cart mutation;
- the price lock;
- the count check of `createOrder` accepts exactly the requests whose ids are all known and all distinct;
- the category list is sorted, holds exactly the non-empty names, and does not depend on row order.

In three places one might expect behaviour the code does not have. The model follows the code:

- One might expect 404 when `createOrder` is given unknown books. The code answers 400.
- One might expect a quantity of 0 to delete the line in `updateCartItem`. The code turns away the number 0 with 400. Only a numeric string whose `parseInt` is 0, such as `"0"`, `"00"` or `"0.5"`, reaches the branch that deletes the line (`ZeroQuantityOnlyFromText`).
- `addToCart` in `cartControllers.js` does not validate the quantity. A zero or negative quantity is stored as given, and the total still equals the sum over the lines.

JavaScript truthiness is modelled explicitly (`JsValues`):

- an absent field, null and `""` are falsy strings;
- absent, null and `0` are falsy numbers.

The update quantity is `Absent | Num(n) | Text(n)`, so that a number and a numeric string are tested as JavaScript tests them.

## Model

| member | source | states |
|---|---|---|
| `CartLedger.Store.GetCart` | src/controllers/cartControllers.js:4-40 | Always 200. Returns the session's stored cart, or an empty cart with total 0 when the session has none. The cart returned satisfies the ledger invariant. |
| `CartLedger.Store.AddToCart` | src/controllers/cartControllers.js:51-166 | 400 iff the book id is absent or 0. Else 404 iff the book is not in the catalog. Both leave the carts unchanged. Otherwise 200, and only this session's cart changes, to `CartAfterAdd`. With no cart, that is a single line at the current price with total price × quantity (quantity defaults to 1). With a cart, the book is added by `AddLine` and the total recomputed. The invariant is kept. |
| `CartLedger.Store.UpdateCartItem` | src/controllers/cartControllers.js:177-252 | 400 iff the quantity is absent, or is a number ≤ 0, or a string parsing below 0. This is decided before any lookup. Then 404 iff the session has no cart or the cart has no line for the book. Both leave the store unchanged. Otherwise the line's quantity is set to the parsed value (0 deletes the line), the total is recomputed, the other sessions are untouched and the invariant is kept. |
| `CartLedger.Store.RemoveFromCart` | src/controllers/cartControllers.js:263-322 | 404 iff the session has no cart or no line for the book, with the store unchanged. Otherwise exactly the matching line is removed and the total is recomputed over the remaining lines. |
| `CartLedger.Store.ClearCart` | src/controllers/cartControllers.js:333-376 | 404 iff the session has no cart, with the store unchanged. Otherwise the cart has no lines and total 0, and the other sessions are untouched. |
| `CartLedger.ZeroQuantityOnlyFromText` | src/controllers/cartControllers.js:181-209 | An update quantity that passes the guard and parses to 0 can only be a string whose `parseInt` is 0 ("0", "00", "0.5"). The number 0 never gets there. |
| `CartLedger.QuantityToAdd` | src/controllers/cartControllers.js:54-115 | Definition, no contract: `quantity = 1` when absent, then `parseInt`. |
| `CartLedger.RejectedQuantity` | src/controllers/cartControllers.js:181 | Definition, no contract: the guard that turns away a falsy quantity (`!quantity`) or a negative one (`quantity < 0`). |
| `CartLedger.ParsedQuantity` | src/controllers/cartControllers.js:204-214 | Definition, no contract: `parseInt(quantity)` of a quantity that passed the guard. |
| `CartLedger.Total` | src/controllers/cartControllers.js:135-137 | Definition, no contract: the `reduce` of price × quantity over the lines. The lemmas below state its properties. |
| `CartLedger.TotalPermutation` | src/controllers/cartControllers.js:131-137 | Two line lists holding the same lines in any order have the same total. The store's `findMany` promises no row order, so the model's fold in creation order equals the source's `reduce` (also at :218-224 and :288-294). |
| `CartLedger.FindLine` | src/controllers/cartControllers.js:109 | Returns the index of the first line for the book, or none iff the cart has no line for it. |
| `CartLedger.AddLine` | src/controllers/cartControllers.js:109-129 | For a book already in the cart, the line count is unchanged and that line's quantity rises by the amount added. Otherwise one line `(book, quantity, current price)` is appended. No existing line changes its book or its locked price. Lines for other books are untouched. One line per book is kept. |
| `CartLedger.AddLineTotal` | src/controllers/cartControllers.js:109-137 | After an add, the recomputed total is the old total plus quantity × the price charged. That price is the line's locked price when the book is already in the cart, and the current price otherwise. |
| `CartLedger.CartAfterAddConsistent` | src/controllers/cartControllers.js:76-142 | The cart `addToCart` leaves satisfies the ledger invariant, on both the new-cart and the existing-cart path. Its total is price × quantity for a new cart, and old total + charged price × quantity for an existing one. |
| `CartLedger.TotalAppend` | src/controllers/cartControllers.js:135-137 | The reduce over the lines plus one appended line is the old sum plus that line's price × quantity. |
| `CartLedger.TotalUpdate` | src/controllers/cartControllers.js:222-224 | Replacing one line changes the reduced total by the new line's amount less the old one's. |
| `CartLedger.TotalRemove` | src/controllers/cartControllers.js:292-294 | Deleting a line lowers the reduced total by exactly that line's amount. |
| `CartLedger.RemoveAt` | src/controllers/cartControllers.js:284-286 | Deleting a line keeps every other line, in order. The multiset of lines loses exactly that line. |
| `CartLedger.RemoveAtOneLine` | src/controllers/cartControllers.js:276-286 | Under one line per book, after the deletion no line for that book remains, and one line per book still holds. |
| `CartLedger.SetLineQuantityTotal` | src/controllers/cartControllers.js:204-224 | Setting a line's quantity keeps one line per book. The total becomes old total − old line amount + locked price × new quantity; deletion is the case 0. |
| `CartLedger.SetLineQuantity` | src/controllers/cartControllers.js:204-216 | Definition, no contract: a quantity of 0 deletes the line, any other sets it. `SetLineQuantityTotal` states its effect. |
| `CartLedger.Recomputed` | src/controllers/cartControllers.js:217-231 | Definition, no contract: the cart row stored with its total recomputed from its lines. |
| `Shop.Shop.GetBookById` | src/controllers/shopControllers.js:26-44 | 200 with the stored book iff the id is in the catalog; 404 otherwise. |
| `Shop.Shop.CreateOrder` | src/controllers/shopControllers.js:108-172 | 400 iff the items are missing or empty, or some requested id is unknown, or some id is repeated; then nothing is stored. Otherwise 201. A new order is stored under a fresh id, with status PENDING and the given customer fields. It has one line per requested item, copying the book id and quantity and taking price = the book's numericPrice. Its totalAmount is Σ price × quantity over those lines. The books are unchanged. |
| `Shop.FoundIdsCount` | src/controllers/shopControllers.js:121-135 | The books the `in` query finds are at most as many as the requested ids. They are exactly as many iff every id is known and no id is repeated. |
| `Shop.OrderTotal` | src/controllers/shopControllers.js:120-143 | Definition, no contract: Σ price × quantity over the order lines, as `totalAmount` accumulates it. |
| `Shop.PriceItems` | src/controllers/shopControllers.js:120-149 | The `map` with `totalAmount +=` yields one line per item, each (bookId, quantity, book.numericPrice), and a running total equal to Σ price × quantity over the lines. |
| `Shop.ParseStatus` | src/controllers/shopControllers.js:254-255 | A status string is accepted iff it is one of PENDING, CONFIRMED, SHIPPED, DELIVERED, CANCELLED. |
| `Shop.StatusName` | src/controllers/shopControllers.js:254 | Every status has a whitelisted name that parses back to it. |
| `Shop.ParseStatusName` | src/controllers/shopControllers.js:254-255 | A whitelisted string is the name of the status it parses to. |
| `Shop.Shop.UpdateOrderStatus` | src/controllers/shopControllers.js:250-290 | 400 iff the status is off the whitelist, decided before the lookup. Then 404 iff the order is unknown. Both leave the orders unchanged. Otherwise only that order's status changes, to the one named. |
| `Shop.Shop.CreateBook` | src/controllers/shopControllers.js:300-328 | 201 iff all seven fields (title, author, publisher, price, numericPrice, image, pdfUrl) are truthy. The book is then stored with those values under a fresh id. Otherwise 400 and nothing is stored. |
| `Shop.BuildUpdateData` | src/controllers/shopControllers.js:344-358 | `updateData` sets exactly the fields given truthy values, each to the value given. |
| `Shop.ApplyChanges` | src/controllers/shopControllers.js:359-364 | Definition, no contract: what the store's `update` with `data: updateData` does. The fields set replace the book's, and the rest stay. |
| `Shop.Shop.UpdateBook` | src/controllers/shopControllers.js:340-378 | 404 iff the id is unknown, with the store unchanged. Otherwise every field given a truthy value is replaced and every other field keeps its old value. No other book changes. |
| `Shop.Shop.DeleteBook` | src/controllers/shopControllers.js:388-408 | 404 iff the id is unknown, with the store unchanged. Otherwise exactly that book is removed. |
| `Categories.NonEmptyNames` | src/controllers/categoriesControllers.ts:60-62 | After `map` and `filter(Boolean)`, a name is kept iff some row holds it and it is not empty. |
| `Categories.NonEmptyNamesCount` | src/controllers/categoriesControllers.ts:60-62 | The filter keeps each non-empty name as many times as the rows hold it, and drops null and empty names. |
| `Categories.CategoryNames` | src/controllers/categoriesControllers.ts:60-63 | The list returned is sorted. It holds a name iff some row holds it and it is non-empty, and as many times as the rows do. |
| `Categories.CategoryNamesIgnoreRowOrder` | src/controllers/categoriesControllers.ts:48-63 | Rows returned in any order give the same list. |
| `Categories.CategoryNamesDistinct` | src/controllers/categoriesControllers.ts:52-63 | Distinct rows, as the `distinct` query returns them, give a list without repeats, so it is strictly ascending. |
| `StringOrder.Sort` | src/controllers/categoriesControllers.ts:63 | The default `sort()` on strings returns the same strings, as a multiset, in ascending order. |
| `StringOrder.SortedUnique` | src/controllers/categoriesControllers.ts:63 | Two ascending arrangements of the same strings are equal, so the sorted result is fully determined. |
| `Categories.FindFirst` | src/controllers/categoriesControllers.ts:269-274 | Returns the first row with this book and user, or none iff there is no such row. |
| `Categories.Owner` | src/controllers/categoriesControllers.ts:272-294 | Definition, no contract: the given user id when truthy, else `'guest'`. |
| `Categories.AddGuestLine` | src/controllers/categoriesControllers.ts:278-301 | Definition, no contract: the key's row gains the quantity, or a new row is appended. `AddGuestLineEffect` states its effect. |
| `Categories.AddGuestLineEffect` | src/controllers/categoriesControllers.ts:269-301 | An add puts exactly the requested quantity more under the (book, user) key, and every other key's count is unchanged. It keeps one row per key. It adds a row only when the key had none. |
| `Categories.KeyQuantity` | src/controllers/categoriesControllers.ts:278-288 | Under one row per key, a row's quantity is all that its key holds. |
| `Categories.Catalog.AddToCart` | src/controllers/categoriesControllers.ts:240-306 | 400 iff the book id is falsy. Else 404 iff the book is unknown. Both leave the rows unchanged. Otherwise 201, and the rows become `AddGuestLine` for the key (book, userId or 'guest'), quantity defaulting to 1. One row per key is kept. The returned row's quantity is the key's old count plus the quantity. |
| `Categories.Catalog.CreateBook` | src/controllers/categoriesControllers.ts:319-351 | 201 iff title, author, publisher and price are truthy. The book is then stored under the new id, with a falsy image, pdfUrl or category stored as null. Otherwise 400 and nothing is stored. |
| `Categories.ApplyPatch` | src/controllers/categoriesControllers.ts:392-395 | Definition, no contract: what the store's `update` with the body as data does. |
| `Categories.Catalog.UpdateBook` | src/controllers/categoriesControllers.ts:363-401 | 400 iff the id is empty. Else 404 iff the book is unknown. Both leave the store unchanged. Otherwise exactly the fields in the body replace the book's, and nothing else changes. |
| `Categories.Catalog.DeleteBook` | src/controllers/categoriesControllers.ts:413-448 | 400 iff the id is empty. Else 404 iff the book is unknown. Both leave the store unchanged. Otherwise exactly that book is removed. |

## Left out

- Generic 500 answers are not modelled. This covers every `catch` that answers 500, the echoed `error.message`, and the logging. Each handler is a single sequential step that either answers one of the four modelled statuses or leaves the state as described.
- Concurrency is not modelled. The code uses no transactions. Interleaved requests on one session are outside the model.
- Timestamps (`updatedAt: new Date()`) and the `include`/`select` projections of the responses are not modelled. The data returned is the stored row.
- Prices, quantities and totals are assumed to stay within the range a JavaScript number holds exactly (below 2^53) and the store's columns can hold. The model's integers are unbounded. Beyond that range these values are rounded or refused:
  - the products `book.price * parseInt(quantity)` and `book.numericPrice * item.quantity`;
  - the sums `existingItem.quantity + parseInt(quantity)` and `totalAmount += itemTotal`;
  - the `reduce`s.

  Neither `addToCart` nor `createOrder` bounds the quantity. Beyond that range, `total == Total(items)` need not hold exactly.
- Prices are integers in cents. `numericPrice` is a float column in the source, and `parseFloat(numericPrice.toString())` is taken as the identity on that integer.
- The update quantity covers only three inputs: absent, an integer number, and a string whose `parseInt` and numeric comparison agree.
  - Fractional numbers, non-numeric strings and `"-0"` are not modelled.
  - For example, `parseInt(0.5)` is 0, so a quantity between 0 and 1 would also reach the delete branch.
- The add quantity in `categoriesControllers.ts` is a number. A string quantity would be concatenated by `+`, and that is not modelled.
- The book id of `cartControllers.js` `addToCart` is an integer, and `0` counts as falsy. A numeric string is not told apart from a number.
- The database fills in some values that are not modelled:
  - A new order's status is taken as PENDING. The database schema that supplies this default is not part of this model.
  - New ids in `shopControllers.js` come from counters.
  - `categoriesControllers.ts` `createBook` takes the generated id as a parameter and requires it to be unused.
- Foreign keys are not modelled. Order items and cart rows may point at a book, and a delete can then fail in the store. The store's referential integrity is not part of this model.
- `categoriesControllers.ts` `updateBook` passes the body as the update data. The model covers a body made of the book's own columns. A body with unknown keys, or with null for a required column, fails in the store (500).
- `getAllCategories` takes the result of its `distinct`, non-null database query as its input rows. Only the post-processing is modelled.
- `StringOrder.Le` compares characters as Unicode scalar values. JavaScript's default sort compares UTF-16 code units. The two orders differ only for characters outside the Basic Multilingual Plane.
- `Shop.PriceItems`: requires every requested book to be in the catalog. The count check before it guarantees this, so the `throw` in `createOrder`'s `map` cannot be reached.
- The remaining handlers of the three files are query pass-through and are not modelled: `getAllBooks`, `searchBooks`, `getAllOrders`, `getOrderById`, `getBooksByCategory`, and the `categoriesControllers.ts` `getBookById`.
- These files are not part of this model:
  - `src/controllers/cartControllers.ts`, a client page;
  - `homeController`, database queries;
  - `adminControllers`, float price conversion;
  - the token middleware, routes and entry points.
