# Bookstore cart and guest checkout, modelled in Dafny

This project models the cart and guest-checkout core of a Spring bookstore
(`libreria-spring`):

* `CarritoServiceImpl`, the cart service. It works along two identity paths:
  a registered customer's id and a guest's token. Its operations are:
  get-or-create a cart, add a book (merging into the book's existing line and
  re-pricing it), set a line's quantity (zero deletes the line), remove a
  line, clear the cart and read the cart. Every line change recomputes the
  totals; the guest clear sets all four money fields to zero instead, and a
  cart the guest path creates starts with all four at zero.
* `GuestCheckoutServiceImpl.checkoutByToken`, the guest checkout. It checks
  every line's stock first, then takes the quantities out of stock, then writes
  an invoice numbered from the clock and one invoice detail per line. Last, it
  empties the cart.

The persistent state is one object, `Store.Db`. It holds the carts, the cart
lines (keyed by line id), books, known customers, invoices and invoice
details. Repository saves and deletes are field updates. Its invariant
`Valid` says that every cart lists only lines it owns, with at most one line
per book. It also says that every stored line has a positive quantity and a
known book, and that no book has a negative copy count. Both services are
classes over a `Db`, and their operations are methods with `modifies db`.
What a cart operation did is stated as a relation between two snapshots of
the state (`Store.Tables`), before and after. For the operations that first
get or create a cart, the "before" is the state that get-or-create leaves
(`AfterGetOrCreate`): the old state, plus the new empty cart when one was
created.
Each method is proved against the pure specification functions in
`CartLines`, `Money`, `Checkout` and `InvoiceNumber`, and lemmas prove
what those functions promise.

Modules:

| file | module | contents |
|---|---|---|
| domain.dfy | Domain | entities, error kinds, repository look-ups, the blank-token test |
| money.dfy | Money | line totals and the totals recomputation, exact arithmetic |
| cart_lines.dfy | CartLines | a cart's lines as values: add-a-book and set-quantity |
| invoice_number.dfy | InvoiceNumber | the `F-yyyyMMddHHmmss` invoice number and its read-back |
| store.dfy | Store | class `Db`: state, invariant, primitive updates |
| cart_service.dfy | CartService | class `CartService`: both identity paths |
| checkout.dfy | Checkout | class `GuestCheckoutService`: the three checkout passes |

Facts about the code that the model keeps:

* A cart can carry both a customer and a token. `getOrCreateByClienteId`
  stores both the customer and the token it is given
  (`CarritoServiceImpl.java:45-46`).
* The two clears differ. The customer path empties the lines and recomputes
  the totals, so the stored discount is kept (`CarritoServiceImpl.java:114-118`).
  The token path sets all four money fields to zero
  (`CarritoServiceImpl.java:214-218`).
* Checkout empties the cart's lines and saves it without touching its money
  fields (`GuestCheckoutServiceImpl.java:72-73`).
* A customer without a saved cart reads an unsaved, empty cart
  (`CarritoServiceImpl.java:127-132`). Update-quantity by customer then fails
  for every line id: an unknown id fails first as not found
  (`CarritoServiceImpl.java:87-88`), and any stored line id fails the
  ownership check (`CarritoServiceImpl.java:89-91`). Clearing such a
  customer's cart saves a new, empty cart (`CarritoServiceImpl.java:115-118`).

## Model

| member | source | states |
|---|---|---|
| Domain.FindByToken | libreria-spring/src/main/java/com/distribuida/service/CarritoServiceImpl.java:141 | the cart found for a token carries that token and no earlier cart does; none is found exactly when no cart carries it |
| Domain.FindByCustomer | libreria-spring/src/main/java/com/distribuida/service/CarritoServiceImpl.java:41 | the cart found for a customer belongs to them and no earlier cart does; none is found exactly when no cart does |
| Domain.WhitespaceEdges | libreria-spring/src/main/java/com/distribuida/service/CarritoServiceImpl.java:138 | IsWhitespace, the test behind `isBlank`, holds for space, tab, the ASCII separators and the line separator and the ideographic space, and fails for the three non-breaking spaces, the zero-width space, NEL and letters |
| Domain.TokenAcceptedEdges | libreria-spring/src/main/java/com/distribuida/service/CarritoServiceImpl.java:138-140 | TokenAccepted rejects a null token, the empty string and a string of only white space, and accepts a string that is only one of the three non-breaking spaces, or a letter among spaces |
| Domain.IndexOf | libreria-spring/src/main/java/com/distribuida/service/CarritoServiceImpl.java:94 | the position found for a line id in a list holds that id, and no earlier position does |
| Domain.RemoveAt | libreria-spring/src/main/java/com/distribuida/service/CarritoServiceImpl.java:94 | removing a line from a list keeps the lines before it in place and shifts the ones after it down by one |
| Money.Recompute | libreria-spring/src/main/java/com/distribuida/service/CarritoServiceImpl.java:77 | subtotal is the sum of quantity times unit price; the discount is kept; tax is rate times (subtotal minus discount); total is subtotal minus discount plus tax; no lines and no discount give all-zero totals |
| Money.SubtotalRemoveAt | libreria-spring/src/main/java/com/distribuida/service/CarritoServiceImpl.java:93-95 | deleting a line lowers the subtotal by exactly that line's total, so totals are those of a cart that never had it |
| Money.SubtotalReplaceAt | libreria-spring/src/main/java/com/distribuida/service/CarritoServiceImpl.java:96-98 | replacing one line moves the subtotal by the difference of the two line totals |
| Money.SubtotalNonNegative | libreria-spring/src/main/java/com/distribuida/service/CarritoServiceImpl.java:77 | Subtotal, the sum of LineTotal over the lines, is never negative for lines with positive quantities and non-negative prices |
| Money.SubtotalConcat | libreria-spring/src/main/java/com/distribuida/service/CarritoServiceImpl.java:77 | Subtotal of two runs of lines is the sum of their subtotals |
| CartLines.LineFor | libreria-spring/src/main/java/com/distribuida/service/CarritoServiceImpl.java:60 | the line found for a book is for that book; none is found exactly when no line is for it |
| CartLines.AddLineMerges | libreria-spring/src/main/java/com/distribuida/service/CarritoServiceImpl.java:60-76 | about AddLine: after adding a book there is exactly one line for it, with old quantity plus the added quantity and the book's current price; a new line is appended only when there was none; other lines are untouched; the one-line-per-book property is kept |
| CartLines.AddTwice | libreria-spring/src/main/java/com/distribuida/service/CarritoServiceImpl.java:61-76 | adding a new book twice leaves one line with the summed quantity at the second price |
| CartLines.AddLineSubtotal | libreria-spring/src/main/java/com/distribuida/service/CarritoServiceImpl.java:61-77 | adding a book changes the subtotal by replacing the book's old line total with the merged quantity times the current price |
| CartLines.ApplyQty | libreria-spring/src/main/java/com/distribuida/service/CarritoServiceImpl.java:93-98 | setting a quantity of zero or less shortens the lines by one and a positive one keeps their number; the copies asked for the line's book change from the old quantity to the new one, or to none |
| CartLines.ApplyQtyEffect | libreria-spring/src/main/java/com/distribuida/service/CarritoServiceImpl.java:191-198 | setting a quantity of zero or less removes the line; a positive one becomes the line's quantity and keeps its unit price; other books' quantities and the one-line-per-book property are kept |
| CartLines.ApplyQtySubtotal | libreria-spring/src/main/java/com/distribuida/service/CarritoServiceImpl.java:191-200 | setting a quantity moves the subtotal by the old line total out and the new quantity times the kept price in |
| CartLines.QtyForDistinct | libreria-spring/src/main/java/com/distribuida/service/GuestCheckoutServiceImpl.java:54-58 | about QtyFor: with one line per book, the copies asked for a book are that line's quantity |
| CartLines.QtyForAbsent | libreria-spring/src/main/java/com/distribuida/service/GuestCheckoutServiceImpl.java:54-58 | a book no line mentions is asked for zero copies |
| InvoiceNumber.Number | libreria-spring/src/main/java/com/distribuida/service/GuestCheckoutServiceImpl.java:60-61 | the invoice number is 16 characters: "F-" followed by 14 decimal digits |
| InvoiceNumber.ParseNumber | libreria-spring/src/main/java/com/distribuida/service/GuestCheckoutServiceImpl.java:60-61 | every invoice number reads back as the time it was built from |
| InvoiceNumber.NumberOfParse | libreria-spring/src/main/java/com/distribuida/service/GuestCheckoutServiceImpl.java:60-61 | every string that reads as an invoice number is the number of the time it reads as |
| InvoiceNumber.NumberInjective | libreria-spring/src/main/java/com/distribuida/service/GuestCheckoutServiceImpl.java:60-61 | two checkouts get the same number exactly when they happen in the same second |
| InvoiceNumber.ValueOfDigits | libreria-spring/src/main/java/com/distribuida/service/GuestCheckoutServiceImpl.java:60-61 | a zero-padded field reads back as the number it prints |
| InvoiceNumber.DigitsOfValue | libreria-spring/src/main/java/com/distribuida/service/GuestCheckoutServiceImpl.java:60-61 | a run of digits, read as a number and printed back at its width, is the same run |
| InvoiceNumber.ThreeFields | libreria-spring/src/main/java/com/distribuida/service/GuestCheckoutServiceImpl.java:60-61 | three consecutive zero-padded fields of a digit string print back the digits they were read from |
| InvoiceNumber.StampOfFields | libreria-spring/src/main/java/com/distribuida/service/GuestCheckoutServiceImpl.java:60-61 | a 14-digit stamp is the yyyyMMddHHmmss stamp of the time its fields read as |
| Store.InsertLineKeeps | libreria-spring/src/main/java/com/distribuida/service/CarritoServiceImpl.java:67-76 | appending a line for a book the cart does not hold keeps the state invariant |
| Store.AddCartKeeps | libreria-spring/src/main/java/com/distribuida/service/CarritoServiceImpl.java:146-148 | saving a new cart with no lines keeps the state invariant |
| Store.SetLineKeeps | libreria-spring/src/main/java/com/distribuida/service/CarritoServiceImpl.java:62-65 | changing a stored line to a positive quantity and a new price keeps the state invariant |
| Store.SetCopiesKeeps | libreria-spring/src/main/java/com/distribuida/service/GuestCheckoutServiceImpl.java:56-57 | setting a known book's copy count to a non-negative number keeps the state invariant |
| Store.Lines | libreria-spring/src/main/java/com/distribuida/service/CarritoServiceImpl.java:60 | in any consistent state, the lines a cart lists are stored, owned by it, have positive quantities and known books, and no two are for the same book |
| Store.OthersKeptTrans | libreria-spring/src/main/java/com/distribuida/service/CarritoServiceImpl.java:77-78 | two changes confined to the same cart compose into one change confined to it |
| Store.DeleteLineKeeps | libreria-spring/src/main/java/com/distribuida/service/CarritoServiceImpl.java:93-95 | deleting a cart's line and unlisting it keeps the state invariant |
| Store.ClearLinesKeeps | libreria-spring/src/main/java/com/distribuida/service/CarritoServiceImpl.java:114-120 | clearing a cart keeps the invariant and deletes exactly the lines that cart owned |
| Store.Db.LinesOf | libreria-spring/src/main/java/com/distribuida/service/CarritoServiceImpl.java:60-76 | Store.Lines of the current state, with the same contract: a cart's lines are stored, owned by the cart, have positive quantities and known books, at most one per book |
| Store.Db.PositionOf | libreria-spring/src/main/java/com/distribuida/service/CarritoServiceImpl.java:94 | a stored line sits in its own cart's list at the position found |
| Store.Db.AddCart | libreria-spring/src/main/java/com/distribuida/service/CarritoServiceImpl.java:146-148 | a new cart is appended to the cart table and gets its position as id; nothing else changes |
| Store.Db.InsertLine | libreria-spring/src/main/java/com/distribuida/service/CarritoServiceImpl.java:67-76 | a new line gets a fresh id and is appended to its cart; nothing else changes |
| Store.Db.SetLine | libreria-spring/src/main/java/com/distribuida/service/CarritoServiceImpl.java:61-66 | one line gets a new quantity and price in place; nothing else changes |
| Store.Db.DeleteLine | libreria-spring/src/main/java/com/distribuida/service/CarritoServiceImpl.java:93-95 | the line is removed from the line table and from its cart's list; nothing else changes |
| Store.Db.ClearLines | libreria-spring/src/main/java/com/distribuida/service/CarritoServiceImpl.java:116 | the cart's list is emptied and exactly its lines are deleted; nothing else changes |
| Store.Db.SetTotals | libreria-spring/src/main/java/com/distribuida/service/CarritoServiceImpl.java:77-78 | only the money fields of one cart are replaced; its lines and everything else are kept |
| Store.Db.SetCopies | libreria-spring/src/main/java/com/distribuida/service/GuestCheckoutServiceImpl.java:56-57 | one book's copy count is replaced; nothing else changes |
| Store.Db.SaveInvoice | libreria-spring/src/main/java/com/distribuida/service/GuestCheckoutServiceImpl.java:65 | an invoice is appended to the invoice table and gets its position as id; nothing else changes |
| Store.Db.SaveInvoiceLine | libreria-spring/src/main/java/com/distribuida/service/GuestCheckoutServiceImpl.java:69 | one invoice detail is appended; nothing else changes |
| CartService.CartService.GetOrCreateByCustomer | libreria-spring/src/main/java/com/distribuida/service/CarritoServiceImpl.java:37-49 | an unknown customer fails and changes nothing; otherwise the customer's cart, or a new cart appended to the cart table with that customer and token, no lines and all four money fields at zero; the cart returned belongs to the customer; nothing else changes |
| CartService.CartService.AddItemByCustomer | libreria-spring/src/main/java/com/distribuida/service/CarritoServiceImpl.java:53-79 | a quantity of zero or less fails before any look-up or change; then an unknown customer fails with no change; an unknown book fails and leaves the state get-or-create left; otherwise, from that state, the book is merged into the cart (AddLine) at its current price, the totals are recomputed, and only that cart changes. A line the cart already had for the book keeps its id; otherwise the next line id is appended to the cart's id list. |
| CartService.CartService.AddToCart | libreria-spring/src/main/java/com/distribuida/service/CarritoServiceImpl.java:57-78 | unknown book fails with no change; otherwise the cart's lines become AddLine of the old lines and totals are recomputed. A line the cart already had for the book keeps its id; otherwise the next line id is appended to the cart's id list. |
| CartService.CartService.PutLine | libreria-spring/src/main/java/com/distribuida/service/CarritoServiceImpl.java:60-78 | the cart's lines become AddLine of the old lines at the book's price, totals are recomputed, and only that cart and its lines change. A line the cart already had for the book keeps its id; otherwise the next line id is appended to the cart's id list. |
| CartService.CartService.RepriceLine | libreria-spring/src/main/java/com/distribuida/service/CarritoServiceImpl.java:61-66 | the cart's line at the given position gets the new quantity and price in place: the cart's id list is unchanged; the totals and everything outside the cart are kept |
| CartService.CartService.AppendLine | libreria-spring/src/main/java/com/distribuida/service/CarritoServiceImpl.java:67-76 | a line for the book is appended to the cart's lines under the next line id, which no stored line had, and that id is appended to the cart's id list; the totals and everything outside the cart are kept |
| CartService.CartService.Recomputed | libreria-spring/src/main/java/com/distribuida/service/CarritoServiceImpl.java:77-78 | once only a cart's lines changed, storing totals recomputed from them gives a state where only that cart changed, with those lines and totals recomputed with the cart's discount |
| CartService.CartService.UpdateQtyByCustomer | libreria-spring/src/main/java/com/distribuida/service/CarritoServiceImpl.java:83-103 | a negative quantity fails first; then an unknown customer; then an unknown line; a line not in the customer's saved cart fails as not owned; each failure changes nothing; otherwise zero deletes the line and a positive quantity replaces it at the kept price, and totals are recomputed |
| CartService.CartService.ApplyQuantity | libreria-spring/src/main/java/com/distribuida/service/CarritoServiceImpl.java:87-102 | unknown line, or a line of another cart, fails and changes nothing; otherwise the cart's lines become ApplyQty of the old lines and totals are recomputed |
| CartService.CartService.SetQuantity | libreria-spring/src/main/java/com/distribuida/service/CarritoServiceImpl.java:191-200 | the cart's list loses the line for a quantity of zero or less and is otherwise kept; its lines become ApplyQty of the old ones; totals are recomputed; nothing outside the cart changes |
| CartService.CartService.DropLine | libreria-spring/src/main/java/com/distribuida/service/CarritoServiceImpl.java:191-193 | for a quantity of zero or less the line leaves the cart's list and the line table, and the totals are recomputed; nothing outside the cart changes |
| CartService.CartService.ChangeQty | libreria-spring/src/main/java/com/distribuida/service/CarritoServiceImpl.java:194-198 | a positive quantity replaces the line's quantity at its kept unit price, and the totals are recomputed; nothing outside the cart changes |
| CartService.CartService.RemoveItemByCustomer | libreria-spring/src/main/java/com/distribuida/service/CarritoServiceImpl.java:107-110 | the same outcomes as update-quantity to zero |
| CartService.CartService.ClearByCustomer | libreria-spring/src/main/java/com/distribuida/service/CarritoServiceImpl.java:114-120 | an unknown customer fails with no change; otherwise the customer's cart (created and saved if missing) loses every line, each deleted, and its totals are recomputed from no lines with its discount; nothing else changes |
| CartService.CartService.ClearCart | libreria-spring/src/main/java/com/distribuida/service/CarritoServiceImpl.java:214-219 | the cart loses every line, each deleted from the line table, and its money fields become the given totals; nothing outside the cart changes |
| CartService.CartService.GetByCustomer | libreria-spring/src/main/java/com/distribuida/service/CarritoServiceImpl.java:124-133 | fails exactly for an unknown customer; otherwise the saved cart, or an empty zero-total cart for the customer |
| CartService.CartService.GetOrCreateByToken | libreria-spring/src/main/java/com/distribuida/service/CarritoServiceImpl.java:137-150 | a null or blank token fails and changes nothing; otherwise the token's cart, or a new cart appended with that token, no customer, no lines and all four money fields at zero; the cart returned carries the token; nothing else changes |
| CartService.CartService.AddItemByToken | libreria-spring/src/main/java/com/distribuida/service/CarritoServiceImpl.java:154-181 | a quantity of zero or less fails first, then a bad token, each with no change; an unknown book fails and leaves the state get-or-create left; otherwise, from that state, the book is merged (AddLine) at its current price, the totals are recomputed, and only that cart changes. A line the cart already had for the book keeps its id; otherwise the next line id is appended to the cart's id list. |
| CartService.CartService.UpdateQtyByToken | libreria-spring/src/main/java/com/distribuida/service/CarritoServiceImpl.java:185-201 | a bad token fails with no change; the cart is got or created; an unknown line or one of another cart fails and leaves the state get-or-create left (a cart created just now owns no line); otherwise any quantity of zero or less, negatives included, deletes the line, and a positive one replaces it at the kept price; totals are recomputed |
| CartService.CartService.RemoveItemByToken | libreria-spring/src/main/java/com/distribuida/service/CarritoServiceImpl.java:205-208 | the same outcomes as update-quantity to zero |
| CartService.CartService.ClearByToken | libreria-spring/src/main/java/com/distribuida/service/CarritoServiceImpl.java:212-220 | a bad token fails with no change; otherwise the cart (got or created) loses every line, each deleted, and all four money fields become zero; nothing else changes |
| CartService.CartService.GetByToken | libreria-spring/src/main/java/com/distribuida/service/CarritoServiceImpl.java:224-235 | the token's saved cart, or an unsaved cart with that token, no lines and zero totals |
| Checkout.FirstShortage | libreria-spring/src/main/java/com/distribuida/service/GuestCheckoutServiceImpl.java:47-52 | the position of the first line whose book has fewer copies than its quantity; none exactly when every line is covered |
| Checkout.Decrement | libreria-spring/src/main/java/com/distribuida/service/GuestCheckoutServiceImpl.java:54-58 | taking a cart's lines out of stock keeps the set of known books |
| Checkout.DecrementEffect | libreria-spring/src/main/java/com/distribuida/service/GuestCheckoutServiceImpl.java:54-58 | taking the lines out of stock lowers each book's copies by the total quantity its lines ask for and changes nothing else |
| Checkout.StockAfterCheckout | libreria-spring/src/main/java/com/distribuida/service/GuestCheckoutServiceImpl.java:47-58 | with one line per book and every line covered, each line's book loses exactly that line's quantity, other books are unchanged and no count goes negative |
| Checkout.Detail | libreria-spring/src/main/java/com/distribuida/service/GuestCheckoutServiceImpl.java:68 | an invoice detail's quantity times unit price is the cart line's total |
| Checkout.Details | libreria-spring/src/main/java/com/distribuida/service/GuestCheckoutServiceImpl.java:67-70 | one invoice detail per cart line, in order, with that line's book, quantity and unit price |
| Checkout.GuestCheckoutService.CheckoutByToken | libreria-spring/src/main/java/com/distribuida/service/GuestCheckoutServiceImpl.java:39-75 | no cart for the token, an empty cart, or a short line (reported with its book's title) each fail with nothing changed; otherwise stock drops as Decrement says, one invoice numbered from the time is added, one detail per line is appended, and the cart's lines are deleted while its money fields stay; the line table loses exactly that cart's lines, and every other line keeps its contents |
| Checkout.GuestCheckoutService.FindShortage | libreria-spring/src/main/java/com/distribuida/service/GuestCheckoutServiceImpl.java:47-52 | the loop reports exactly FirstShortage of the lines |
| Checkout.GuestCheckoutService.TakeStock | libreria-spring/src/main/java/com/distribuida/service/GuestCheckoutServiceImpl.java:54-58 | the loop leaves the books as Decrement of the old books and keeps the invariant |
| Checkout.GuestCheckoutService.WriteDetails | libreria-spring/src/main/java/com/distribuida/service/GuestCheckoutServiceImpl.java:67-70 | the loop appends exactly Details of the lines to the invoice details |
| Checkout.GuestCheckoutService.Settle | libreria-spring/src/main/java/com/distribuida/service/GuestCheckoutServiceImpl.java:54-73 | after validation: stock decremented, invoice and details written, cart emptied; the line table loses exactly that cart's lines and every other line keeps its contents |

## Left out

- Transactions: `@Transactional` rollback, isolation and concurrency are not modelled. A call that fails keeps what it did before the failure. Only the token path and the customer add-item can do anything before failing: they may leave a newly created empty cart. The ensures clauses say this outright.
- Persistence: repositories are field updates on `Store.Db`. Cart ids and invoice ids are table positions, and line ids come from a counter. JPA cascade is the deletion of a cart's lines from the line table.
- Uniqueness: nothing enforces one cart per customer or per token. The look-ups return the first matching cart.
- Domain.FindByToken: the cart service looks carts up with the repository method `finByToken` (`CarritoServiceImpl.java:141`, `:225`) and the checkout with `findByToken` (`GuestCheckoutServiceImpl.java:40`). Neither query is part of this model. Both are taken to be the same first-match search by token.
- Entity code that is not part of this model: `Carrito.recomputarTotales`, `recomprobacionTotalesCompat`, `CarritoItem.calcTotal`/`jpaCalcTotal` and `CheckoutMapper`. Totals follow `Money.Recompute`, and a new cart starts with zero totals.
- Money.LineTotal: the stored per-line total is not kept; it is recomputed from quantity and unit price. So the customer path's update not calling `calcTotal` has no visible effect here.
- Checkout.GuestCheckoutService.CheckoutByToken: the invoice totals are assumed to be `Money.Recompute` of the cart's lines with its discount. Details carry book, quantity and unit price, not a stored line total.
- Numbers: money and the tax rate are exact reals. So the `double` rate 0.15 at checkout, and book prices held as `double`, carry no rounding here. The rate is a parameter of both services.
- CartLines.AddLine: quantities are unbounded integers, so Java's 32-bit overflow of old quantity plus added quantity is not modelled.
- Store.Db.constructor: a starting catalogue must have no negative copy count. The source puts no bound on a book's copy count. Within the model, the checkout's stock check keeps counts non-negative.
- CartService.CartService.GetByToken: a null token is not modelled; the read takes a present string, since what `finByToken(null)` returns depends on a repository query that is not part of this model (`CarritoServiceImpl.java:224-225`).
- Line ids: `Domain.LineId` is a natural number, while the source takes a Java `long`. A negative id finds no line and fails as not found (`CarritoServiceImpl.java:87-88`, `:187-188`), just as an unknown id does here.
- Clock: `LocalDateTime.now()` is the `now` parameter, a calendar time with a year from 1 to 9999.
- Nulls: the token is optional (`Option<string>`) where the source guards against null. `getOrCreateByToken` and the token paths through it reject a null token. `getOrCreateByClienteId` stores whatever token it is given, and the customer add-item passes none (`CarritoServiceImpl.java:56`). The read-by-token and checkout take a present string. A cart's line list is never null.
- Error messages: each exception is an `Error` value. The only text kept is the book title that the stock failure names.
- The HTTP controller and request binding are not modelled.
