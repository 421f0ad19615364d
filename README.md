# Storefront cart, checkout and dashboard statistics in Dafny

This project models the logic in a React storefront-plus-admin web client:

- **Cart store** (`cart.dfy`, module `Cart`). This is the `items` state cell of the cart context. `addToCart` merges lines by `id_key`. `removeFromCart` filters a line out. `updateQuantity` ignores quantities below 1. `clearCart` empties the cart, and `total` is Σ price × quantity. The per-operation transforms are pure functions (`AddLine`, `RemoveLine`, `UpdateLine`, `LinesTotal`). `CartStore` is a class whose `seq` field the four mutators replace, as `setItems` does.
- **Checkout submission** (`checkout.dfy`, module `Checkout`):
  - the subtotal, the 21% tax and the final total;
  - the form's required-field rules, including card fields for card payments;
  - the stock check against the stock recorded in each cart line;
  - the chain of remote creations: client → address → bill → order → one order detail per line.
  
  The backend is an oracle `respond: nat -> Response`: the call at position `k` of the issued-call log receives `respond(k)`. `Submission` is the specification function. `RunSubmission` is the step-by-step procedure, proved equal to it. `CheckoutPage.OnSubmit` wraps the procedure: it sets the `isProcessing` flag, clears the cart only on success, shows the toast and resets the flag.
- **Dashboard statistics** (`dashboard.dfy`, module `Dashboard`):
  - total revenue, the list lengths and the low-stock count;
  - the first five low-stock alerts;
  - product counts per category;
  - the five most recent orders, from a date-sorted copy;
  - the last seven bills by date;
  - the status badge.
- **Types** (`types.dfy`, module `Types`): the entity records keyed by `id_key`, and the integer code tables `DeliveryMethod`, `Status` and `PaymentType` with their decoders.

Money is integer cents and dates are integer timestamps. The tax is `subtotal × 21 / 100`, rounded half-up to the cent. Because the tax is already in whole cents, rounding `subtotal + tax` to the cent is exact.

Notes on the code's behaviour:

- `updateQuantity` with a quantity below 1 does nothing (src/context/CartContext.tsx:55). It does not remove the line. So the "−" button of a line at quantity 1 (src/pages/store/Cart.tsx:45) has no effect.
- The stock check compares each line's quantity with the `stock` stored in that line when it was added. No fresh stock is fetched.
- The detail creations are all issued at once, because `cart.map` starts every request before `Promise.all` waits. So whenever the order was created, all of them appear in the log, even when one fails.
- Failures carry no separate stage. A rejected call shows the service's own message, or the generic text when that message is empty. Only the missing-`id_key` errors mention their step, in their text (client, bill or order).
- The checkout page reads `cart` from the cart context (src/pages/store/Checkout.tsx:25). The context value (src/context/CartContext.tsx:68) exposes `items`, not `cart`. The navigation bar likewise reads an `itemCount` that the context does not provide. The model binds the checkout's `cart` to `CartStore.items`.
- The zip code and the card fields are validated but never sent. The client is created with the placeholder telephone "0000000000", and the address with the placeholder number "S/N".

## Model

| member | source | states |
|---|---|---|
| `Types.DeliveryMethod.Code` | src/types/index.ts:34-38 | delivery codes lie in 1..3 |
| `Types.DeliveryMethodOf` | src/types/index.ts:34-39 | exactly 1, 2 and 3 decode, each to the method with that code |
| `Types.DeliveryCodesInjective` | src/types/index.ts:34-38 | DRIVE_THRU=1, ON_HAND=2, HOME_DELIVERY=3 are pairwise distinct and decode back |
| `Types.Status.Code` | src/types/index.ts:41-46 | status codes lie in 1..4 |
| `Types.StatusOf` | src/types/index.ts:41-47 | exactly 1..4 decode, each to the status with that code |
| `Types.StatusCodesInjective` | src/types/index.ts:41-46 | PENDING=1 … CANCELED=4 are pairwise distinct and decode back |
| `Types.StatusCaption` | src/pages/store/Profile.tsx:247 | `status - 1` is always a valid index into the four-entry caption table |
| `Types.PaymentType.Code` | src/types/index.ts:49-55 | payment codes lie in 1..5 |
| `Types.PaymentTypeOf` | src/types/index.ts:49-56 | exactly 1..5 decode, each to the payment type with that code |
| `Types.PaymentCodesInjective` | src/types/index.ts:49-55 | CASH=1 … BANK_TRANSFER=5 are pairwise distinct and decode back |
| `Cart.AddLine` | src/context/CartContext.tsx:33-47 | the cart grows by one line exactly when the id is new; every earlier line keeps its product |
| `Cart.LineOf` | src/context/CartContext.tsx:37 | the line found for an id is one of the cart's lines and carries that id |
| `Cart.AddExisting` | src/context/CartContext.tsx:37-44 | adding a present `id_key` keeps the length, grows only matching lines by `quantity`, keeps their add-time product (price included) and leaves other lines unchanged |
| `Cart.AddNew` | src/context/CartContext.tsx:46 | adding a new `id_key` appends `{...product, quantity}` and keeps the earlier lines |
| `Cart.AddKeepsDistinct` | src/context/CartContext.tsx:33-47 | with distinct ids before, ids stay distinct and the product has a line |
| `Cart.AddKeepsPositive` | src/context/CartContext.tsx:33-47 | adding a quantity ≥ 1 keeps every quantity ≥ 1 |
| `Cart.AddTotal` | src/context/CartContext.tsx:33-65 | the total grows by `quantity` × the line's add-time price (existing snapshot, or the new product's price) |
| `Cart.RemoveLine` | src/context/CartContext.tsx:51 | no line with the id remains, and the cart does not grow |
| `Cart.RemoveDropsId` | src/context/CartContext.tsx:50-52 | no line with the id remains; the lines left are exactly the cart's lines with other ids |
| `Cart.RemoveDistributes` | src/context/CartContext.tsx:51 | removal distributes over concatenation, so the relative order of other lines is kept |
| `Cart.RemoveAbsent` | src/context/CartContext.tsx:51 | removing an absent id is a no-op |
| `Cart.RemoveLength` | src/context/CartContext.tsx:51 | removal shortens the cart by the number of lines with that id |
| `Cart.RemoveKeepsDistinct` | src/context/CartContext.tsx:51 | removal preserves distinct ids |
| `Cart.RemoveKeepsPositive` | src/context/CartContext.tsx:51 | removal preserves quantities ≥ 1 |
| `Cart.RemoveSplit` | src/context/CartContext.tsx:51 | with distinct ids, removing line k's id leaves the lines before and after it |
| `Cart.RemoveTotal` | src/context/CartContext.tsx:50-65 | the total drops by exactly the removed line's price × quantity, or stays the same when the id is absent |
| `Cart.LinesTotal` | src/context/CartContext.tsx:65 | the total is 0 for an empty cart and price × quantity for a one-line cart |
| `Cart.TotalAppend` | src/context/CartContext.tsx:65 | the total of a concatenation is the sum of the totals |
| `Cart.TotalNonNegative` | src/context/CartContext.tsx:65 | the total is 0 for an empty cart, and ≥ 0 whenever every price and quantity is |
| `Cart.UpdateLine` | src/context/CartContext.tsx:54-61 | updating keeps the number of lines and every line's product |
| `Cart.UpdateBelowOneIgnored` | src/context/CartContext.tsx:55 | a quantity below 1 leaves the cart unchanged |
| `Cart.UpdateSetsQuantity` | src/context/CartContext.tsx:56-60 | a quantity ≥ 1 sets only matching lines' quantity; length, order and every product snapshot are kept |
| `Cart.UpdateKeepsInvariant` | src/context/CartContext.tsx:54-61 | updating preserves distinct ids and quantities ≥ 1 |
| `Cart.UpdateTotal` | src/context/CartContext.tsx:54-65 | updating a present line changes the total by price × (new − old quantity) |
| `Cart.LineOfUnique` | src/context/CartContext.tsx:37 | with distinct ids, the line found for an id is the one at any index carrying it |
| `Cart.TotalOfPointwise` | src/context/CartContext.tsx:65 | carts differing at one line differ in total by that line's difference |
| `Cart.CartStore.constructor` | src/context/CartContext.tsx:20-27 | an absent or unparseable stored cart gives an empty cart, otherwise the stored lines |
| `Cart.CartStore.AddToCart` | src/context/CartContext.tsx:33-48 | new items = AddLine(old items); keeps the one-line-per-id, quantity ≥ 1 invariant for quantity ≥ 1 |
| `Cart.CartStore.RemoveFromCart` | src/context/CartContext.tsx:50-52 | new items = RemoveLine(old items); no line has the id; no-op when absent; invariant kept |
| `Cart.CartStore.UpdateQuantity` | src/context/CartContext.tsx:54-61 | new items = UpdateLine(old items); unchanged below 1; invariant kept |
| `Cart.CartStore.Total` | src/context/CartContext.tsx:65 | the cart's total is ≥ 0 when every price and quantity is |
| `Cart.CartStore.ClearCart` | src/context/CartContext.tsx:63 | the cart is empty and its total is 0 |
| `Checkout.RoundHalfUp` | src/pages/store/Checkout.tsx:37-38 | the result is the integer nearest n/d, with halves rounded up |
| `Checkout.TotalsOf` | src/pages/store/Checkout.tsx:35-38 | subtotal = Σ price × quantity; tax = subtotal × 0.21 rounded half-up to the cent; final = subtotal + tax exactly |
| `Checkout.TotalsExample` | src/pages/store/Checkout.tsx:35-38 | 10.00 × 2 + 15.00 × 1 gives 35.00, tax 7.35, total 42.35 |
| `Checkout.RendersForm` | src/pages/store/Checkout.tsx:44 | the form is rendered only for a non-empty cart |
| `Checkout.FormValid` | src/pages/store/Checkout.tsx:181-296 | the required fields are non-empty, and the card fields too for a card payment |
| `Checkout.DefaultRequiresCard` | src/pages/store/Checkout.tsx:29-41 | the form starts on CREDIT, a card payment, so it does not validate while a card field is empty |
| `Checkout.IsCardPayment` | src/pages/store/Checkout.tsx:41 | a card payment is exactly a CARD, DEBIT or CREDIT code |
| `Checkout.CardFieldsRequiredExactlyForCards` | src/pages/store/Checkout.tsx:278-296 | empty card fields pass validation exactly when the code is not 2, 3 or 4 |
| `Checkout.Shortages` | src/pages/store/Checkout.tsx:63 | the cart lines whose quantity exceeds their stock, as `Types.Filter` with `IsShort`: `Types.FilterAppend` and `Types.FilterMultiplicity` keep their cart order and multiplicity |
| `Checkout.ShortagesExact` | src/pages/store/Checkout.tsx:63-64 | the short lines are exactly those with quantity > stock; none exist iff every quantity ≤ stock |
| `Checkout.Names` | src/pages/store/Checkout.tsx:65 | one name per short line, in order |
| `Checkout.Join` | src/pages/store/Checkout.tsx:65 | no parts join to "", one part to itself; the joined text ends where the last part ends |
| `Checkout.JoinStep` | src/pages/store/Checkout.tsx:65 | joining two or more parts is joining all but the last, then the separator, then the last part at its offset |
| `Checkout.JoinPart` | src/pages/store/Checkout.tsx:65 | part i appears in the joined text at offset Σ earlier part lengths + i × separator length |
| `Checkout.JoinParts` | src/pages/store/Checkout.tsx:65 | every part appears in the joined text at its offset |
| `Checkout.JoinSeparator` | src/pages/store/Checkout.tsx:65 | just before part i > 0 the joined text holds exactly the separator |
| `Checkout.JoinSeparators` | src/pages/store/Checkout.tsx:65 | between every two neighbouring parts the joined text holds exactly the separator |
| `Checkout.StockMessage` | src/pages/store/Checkout.tsx:66 | the message holds the joined names between its fixed prefix and suffix |
| `Checkout.StockShortageIssuesNothing` | src/pages/store/Checkout.tsx:63-67 | any line with quantity > stock fails the submission with the message naming the short lines, and no call is issued |
| `Checkout.ReturnedId` | src/pages/store/Checkout.tsx:83-84 | an identifier is returned exactly when the response and its `id_key` are both truthy (0 is not) |
| `Checkout.Shown` | src/pages/store/Checkout.tsx:148 | the toast is never empty: it shows the error's message when there is one, and the generic text when the message is empty |
| `Checkout.ClientPayloadOf` | src/pages/store/Checkout.tsx:72-78 | the client carries the form's names and e-mail, and a ten-character placeholder telephone |
| `Checkout.AddressPayloadOf` | src/pages/store/Checkout.tsx:88-93 | the address carries the form's street and city, the created client's id and a non-empty placeholder number |
| `Checkout.BillPayloadOf` | src/pages/store/Checkout.tsx:100-106 | the bill carries the final total (lines total + tax), the selected payment code, the client id and the bill number |
| `Checkout.OrderPayloadOf` | src/pages/store/Checkout.tsx:114-121 | the order carries the final total, decodes to PENDING and HOME_DELIVERY, and carries the client and bill ids |
| `Checkout.DetailPayloadOf` | src/pages/store/Checkout.tsx:131-136 | the detail carries the order id, the line's `id_key` and quantity, and a price whose product with the quantity is the line's total |
| `Checkout.DetailCalls` | src/pages/store/Checkout.tsx:130-137 | one detail creation per cart line, in cart order |
| `Checkout.DetailCallsGrow` | src/pages/store/Checkout.tsx:130-137 | the detail calls for one more line extend the earlier ones by that line's call |
| `Checkout.FirstRejection` | src/pages/store/Checkout.tsx:139 | detail creation fails iff some detail response is rejected, with that rejection's message |
| `Checkout.ThrownMessage` | src/pages/store/Checkout.tsx:66-126 | a rejected call's error keeps its own message; the page's own errors (stock, client, bill, order) have non-empty messages |
| `Checkout.ToastText` | src/pages/store/Checkout.tsx:146-149 | the error toast is never empty: the page's own errors show their message, a rejected call shows its message or the generic text when that is empty |
| `Checkout.IssueDetails` | src/pages/store/Checkout.tsx:130-139 | one detail request per line in cart order, all issued; the failure is the first rejection by line order, none iff all were created |
| `Checkout.Submission` | src/pages/store/Checkout.tsx:58-144 | at most 4 + lines calls are issued, and none exactly when some line is short |
| `Checkout.RunSubmission` | src/pages/store/Checkout.tsx:61-144 | the step-by-step submission issues exactly the calls, and ends with exactly the outcome, of `Submission` |
| `Checkout.CallsInChainOrder` | src/pages/store/Checkout.tsx:81-139 | calls are issued in the order client, address, bill, order, details; at most 4 + lines calls |
| `Checkout.FullChainLog` | src/pages/store/Checkout.tsx:81-139 | when every step proceeds, the log is the client, address, bill and order calls, then the order's detail calls |
| `Checkout.BrokenChainLog` | src/pages/store/Checkout.tsx:63-126 | when the chain breaks, at most four calls were issued, each at its own stage |
| `Checkout.CallsStopAtFirstFailure` | src/pages/store/Checkout.tsx:81-139 | the number of calls issued is fixed by the first failing step; a client, bill or order without `id_key` stops the chain; the address result is not checked |
| `Checkout.IdentifiersThreaded` | src/pages/store/Checkout.tsx:84-132 | the address, bill and order carry the created client's id; the order carries the bill's id; each detail carries the order's id |
| `Checkout.PayloadsCarryTotals` | src/pages/store/Checkout.tsx:72-121 | bill and order carry the final total; order status PENDING (1) and delivery HOME_DELIVERY (3); the bill carries the selected payment code |
| `Checkout.DetailsFollowOrder` | src/pages/store/Checkout.tsx:126-139 | past the four chain calls the log holds only the order's detail calls, and only when the order returned an id |
| `Checkout.OneDetailPerLine` | src/pages/store/Checkout.tsx:130-139 | once the order exists, each line gets exactly one detail carrying its `id_key`, quantity and add-time price |
| `Checkout.SucceedsExactlyWhenAllCreated` | src/pages/store/Checkout.tsx:61-144 | success iff no shortage, every step returned what the chain needs, and no detail failed; success issues 4 + lines calls |
| `Checkout.SuccessPath` | src/pages/store/Checkout.tsx:61-144 | success exactly on the path with no shortage, every chain step proceeding and no rejected detail |
| `Checkout.FullChainOutcome` | src/pages/store/Checkout.tsx:130-143 | once every step proceeds, the submission succeeds exactly when no detail is rejected |
| `Checkout.BrokenChainFails` | src/pages/store/Checkout.tsx:63-126 | a short line, or a chain step that does not proceed, makes the submission fail |
| `Checkout.FailureCauses` | src/pages/store/Checkout.tsx:63-139 | the stock error iff a line is short; the client, bill and order errors only for a response without `id_key`; a service error only with the message of an issued, rejected call |
| `Checkout.CheckoutPage.constructor` | src/pages/store/Checkout.tsx:32 | the page starts not processing and with no toast |
| `Checkout.CheckoutPage.OnSubmit` | src/pages/store/Checkout.tsx:58-153 | the flag is set while the calls are issued and cleared on every path; the cart is cleared only on success and otherwise untouched; the toast shows the outcome |
| `Types.Filter` | src/pages/admin/Dashboard.tsx:46 | filtering keeps exactly the elements that satisfy the predicate |
| `Types.FilterMultiplicity` | src/pages/admin/Dashboard.tsx:46 | each kept element occurs as often as in the input; rejected ones do not occur |
| `Types.FilterAppend` | src/pages/admin/Dashboard.tsx:46 | filtering distributes over concatenation, so kept elements keep their order |
| `Types.FilterSingle` | src/pages/admin/Dashboard.tsx:46 | a single element is kept exactly when it satisfies the predicate |
| `Types.FilterStep` | src/pages/admin/Dashboard.tsx:46 | one more element lengthens the filtered sequence by one exactly when it is kept |
| `Types.FilterCount` | src/pages/admin/Dashboard.tsx:46 | the filtered length is the number of positions whose element is kept |
| `Dashboard.Revenue` | src/pages/admin/Dashboard.tsx:42 | the fold starts from 0; one bill's revenue is its total |
| `Dashboard.RevenueAppend` | src/pages/admin/Dashboard.tsx:42 | revenue is additive over concatenation and 0 with no bills |
| `Dashboard.RevenueWithout` | src/pages/admin/Dashboard.tsx:42 | taking one bill out lowers revenue by exactly its total |
| `Dashboard.RevenueOrderFree` | src/pages/admin/Dashboard.tsx:42 | revenue does not depend on the order of the bills |
| `Dashboard.RevenueNonNegative` | src/pages/admin/Dashboard.tsx:42 | revenue is ≥ 0 when every bill total is |
| `Dashboard.IsLowStock` | src/pages/admin/Dashboard.tsx:46 | a product is low on stock when it has fewer than 10 units |
| `Dashboard.KpisOf` | src/pages/admin/Dashboard.tsx:42-46 | revenue is the fold of the bill totals and low-stock the low-stock count; the order, client and product counts are the list lengths; low-stock ≤ products; revenue 0 with no bills and ≥ 0 for non-negative totals |
| `Dashboard.LowStockCount` | src/pages/admin/Dashboard.tsx:46 | the number of positions whose product has stock < 10; at most the product count, and 0 exactly when every product has stock ≥ 10 |
| `Dashboard.LowStockAlerts` | src/pages/admin/Dashboard.tsx:269 | the first min(5, lowStockCount) low-stock products, in product order |
| `Dashboard.CategoryCount` | src/pages/admin/Dashboard.tsx:52 | the number of positions whose product has that `category_id`; positive exactly when some product has it |
| `Dashboard.ProductsByCategory` | src/pages/admin/Dashboard.tsx:50-53 | one slice per category with a positive count: every slice has a positive count and comes from a category, and every category with products has its slice |
| `Dashboard.SliceCount` | src/pages/admin/Dashboard.tsx:50-53 | the number of kept slices is the number of categories with products |
| `Dashboard.SliceMembers` | src/pages/admin/Dashboard.tsx:50-52 | the mapped slices are exactly the name-and-count slices of the categories |
| `Dashboard.ProductsByCategoryAppend` | src/pages/admin/Dashboard.tsx:50-53 | the slices keep category order: those of a concatenation are those of each part in turn |
| `Dashboard.ProductsByCategorySingle` | src/pages/admin/Dashboard.tsx:50-53 | a single category gives its slice exactly when it has products |
| `Dashboard.InsertBy` | src/pages/admin/Dashboard.tsx:57 | insertion keeps a sequence sorted and adds exactly the new element |
| `Dashboard.SortBy` | src/pages/admin/Dashboard.tsx:56-62 | the sorted copy is ordered by the key and is a permutation of the input |
| `Dashboard.SortedCut` | src/pages/admin/Dashboard.tsx:58 | cutting a sorted sequence splits its multiset; nothing after the cut sorts before anything ahead of it |
| `Dashboard.RecencyMatchesComparator` | src/pages/admin/Dashboard.tsx:57 | sorting ascending by `Recency` orders two orders as the comparator `date(b) - date(a)` does |
| `Dashboard.BillDateMatchesComparator` | src/pages/admin/Dashboard.tsx:62 | sorting ascending by `BillDate` orders two bills as the comparator `date(a) - date(b)` does |
| `Dashboard.RecentOrders` | src/pages/admin/Dashboard.tsx:56-58 | min(5, orders) orders, newest first, drawn from the orders without duplication; none left out is newer |
| `Dashboard.NewestFirstCut` | src/pages/admin/Dashboard.tsx:56-58 | the head of a newest-first copy is date-descending and no order outside it is newer |
| `Dashboard.LatestBills` | src/pages/admin/Dashboard.tsx:61-63 | min(7, bills) bills, oldest first, drawn from the bills; none left out is later |
| `Dashboard.LatestLastCut` | src/pages/admin/Dashboard.tsx:61-63 | the tail of a date-sorted copy is in date order and no bill before it is later |
| `Dashboard.RevenueTrend` | src/pages/admin/Dashboard.tsx:61-67 | one point per latest bill, with its date and total, in ascending date order |
| `Dashboard.StatusBadge` | src/pages/admin/Dashboard.tsx:241-242 | "Delivered" exactly for status 3, "Pending" otherwise |

## Left out

- Local storage: writing the cart after each change and `JSON.parse` on load (src/context/CartContext.tsx:20-31) are browser I/O. The load is a parameter, already parsed, or None when absent or unparseable.
- HTTP: the create services (src/api/services.ts) and their axios client are not part of this model. Their answers come from the `respond` oracle.
- Floating point: amounts are integer cents, and `toFixed(2)` is rounding half-up to the cent. JavaScript's `toFixed` rounds the binary value of the float instead, so ties of either sign may come out differently. For example, a subtotal of 3.50 gives a tax of 0.735, which the source rounds to 0.73 while `TotalsOf` gives 74 cents. Likewise, a subtotal of 0.50 gives 0.10 in the source and 11 cents here. `toLocaleString` display formatting is left out.
- Dates and bill numbers: the ISO date string (src/pages/store/Checkout.tsx:69) and the `Date.now()`/`Math.random()` bill number (src/pages/store/Checkout.tsx:98) are the parameters `today` and `billNumber`. Entity dates are integer timestamps, and `new Date(...)` parsing of invalid dates is not modelled.
- The payment method is the integer code itself. The form's string value and its `Number(...)` conversion are not modelled.
- Concurrency: the detail requests run concurrently under `Promise.all`. The model issues them in cart order. `FirstRejection` picks the failure message of the first rejected detail by position, whereas `Promise.all` reports the first rejection in time.
- `Checkout.CheckoutPage.OnSubmit`: the submission runs as one step, with no other code running at the awaits of src/pages/store/Checkout.tsx:81-139. In the browser, the user can reach the shop and cart pages during those awaits and change the shared cart. `onSubmit` keeps using the lines it started with. On success, `clearCart()` (src/pages/store/Checkout.tsx:143) then also empties lines added meanwhile, and no detail call covered them; the model cannot show this. Also, `Promise.all` rejects at the first failed detail, and `finally` (src/pages/store/Checkout.tsx:150-151) resets `isProcessing` while other detail requests may still be pending. The model has every call returned before the flag is reset.
- Console logging is not modelled. After success, the page navigates to the home page; that navigation is not modelled either. The browser's e-mail format check is also out.
- `Dashboard.SortBy`: the contract states ordering and permutation but not stability. JavaScript's sort is stable, and so is this insertion sort, but the contract does not say so.
- Admin CRUD pages, the other store pages, layouts, navigation and the chart rendering are UI glue. They are outside this model.
