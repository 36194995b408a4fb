# A verified model of the ecommerce-app storefront core

This project models the stateful rules of the storefront's Express/Mongoose server and two pieces of its React client. It then proves what those rules guarantee.

- **Server cart.** One cart per user holds lines with a quantity, a price snapshot and a total that the save hook recomputes.
- **Order lifecycle.** Creating an order checks stock and decrements it. Cancelling puts the stock back. Admins can set any status. The status history is appended to by both the handlers and the save hook.
- **Slugs.** Product and category slugs are derived from the name.
- **User accounts.** Registration checks for a duplicate email. The address list keeps a single default. The wishlist is a toggle.
- **Catalog listing.** The server builds a query, a sort key and a page window. The client's Products page filters and sorts in memory.
- **Client cart.** The client's Redux cart reducer.

The document store is the class `Db.Store`:

- `products` and `orders` are sequences in their natural (insertion) order, with an `id` field.
- `carts` is a map keyed by user. The unique `user` index is the map key, so each user has at most one cart.
- `users` is a map keyed by user id.

`Store.Valid()` holds the invariants the schemas and indexes enforce:

- product ids are distinct;
- every stored cart line passed its validators, and line ids and products are distinct;
- every stored order passed its validators, and order ids and order numbers are distinct;
- emails are distinct.

Each handler is a method over the store. It returns the HTTP status it answers with, and its `modifies` clause names only the collections it writes. Its `ensures` clauses give the exact new state on every path. Handlers that only read are functions, or methods that change nothing.

The caller is a given `(user id, role)`. The clock, random order-number parts and fresh ObjectIds are parameters. Money is an `int` in the smallest currency unit. A rating average is in hundredths of a star, so 5 stars is `MaxRating = 500`.

The order of checks follows the code and its route guards:

- `authorize('admin')` answers 403 before the handler runs.
- `orderValidation` answers 400 before `createOrder` runs.
- A Mongoose validation failure on `save`/`create` is a 500, and nothing is written.
- `findOneAndUpdate`/`findByIdAndUpdate` do not run save hooks. So the cart emptied by `createOrder` keeps its old `totalAmount`, and a product renamed through `updateProduct` keeps its old slug.
- `isModified('status')` is false when a status is set to the value it already had, and true on a new document.

## Where the code and the documented design disagree

The model follows the code in each case:

- **History entries.** A status change by `updateOrderStatus` or `cancelOrder` appends two history entries, not one: the handler's entry and then the save hook's. Setting a status to its current value appends only the handler's entry. A new order that goes to shipped and then to delivered therefore has 5 entries, not 3 (`OrderController.TwoChangesFiveEntries`).
- **Transitions.** `updateOrderStatus` performs no transition check, so a delivered or cancelled order can be moved anywhere (`OrderController.AnyTransitionAllowed`).
- **Repeated cancel.** `cancelOrder` does not reject an order that is already cancelled. A second cancel puts the stock back again.
- **Per-line stock check.** `createOrder` checks each line against the stock alone. Two lines for one product can together oversell it (`OrderController.PerLineCheckCanOversell`).
- **Cart update to zero.** `updateCartItem` with a quantity below 1 is rejected by the line validator (500). It is not a removal.
- **Client cart price.** The client cart prices each line with the product record stored when the line was first added. A later add of the same product with a newer price record only bumps the quantity (`CartSlice.TotalKeepsFirstRecordPrice`).
- **First address.** `addAddress` clears the other defaults when the list is empty, but it does not mark a first address as default unless the body says so (`AuthController.FirstAddressNotDefault`).

## Model

| member | source | states |
|---|---|---|
| Text.Lower | server/src/models/Product.ts:115 | lower-casing keeps the length and maps each character by the ASCII letter rule |
| Text.IncludesIff | client/src/pages/Products.tsx:38-39 | `includes` holds exactly when the searched string occurs at some index |
| Text.EmptyIncluded | client/src/pages/Products.tsx:38-39 | every string includes the empty string |
| Text.LowerFixesSlugChars | server/src/models/Product.ts:115 | lower-casing leaves a string of `[a-z0-9-]` unchanged |
| Slug.DropHyphensAppend | server/src/models/Product.ts:116 | removing hyphens distributes over concatenation |
| Slug.CollapseShape | server/src/models/Product.ts:116 | the run-collapsing replace yields only `[a-z0-9-]`, never `--`, no leading hyphen inside a run, and exactly the name's letters and digits once hyphens are dropped |
| Slug.TrimShape | server/src/models/Product.ts:117 | the edge replace removes the edge hyphens of a collapsed string and nothing else |
| Slug.SlugShape | server/src/models/Product.ts:114-117 | a slug uses only `[a-z0-9-]`, has no edge hyphen and no `--`, and without its hyphens equals the lower-cased name's letters and digits |
| Slug.CollapseFixes | server/src/models/Product.ts:116 | a well-formed slug passes through the collapsing replace unchanged |
| Slug.SlugIdempotent | server/src/models/Product.ts:114-117 | slugging a slug gives the same slug |
| Slug.EmptySlug | server/src/models/Category.ts:51-52 | a name without ASCII letters or digits gets the empty slug |
| Slug.CollapseAlnumPrefix | server/src/models/Product.ts:116 | a leading block of letters and digits is copied unchanged by the collapsing replace |
| Catalog.ParseCondition | server/src/models/Product.ts:14-19 | exactly the spellings `new`, `refurbished`, `used` are accepted, each as its own condition |
| Catalog.ProductHookShape | server/src/models/Product.ts:112-120 | the hook changes only the slug; it recomputes the slug only when the name was modified, and the new slug is well-formed |
| Catalog.ProductHookIdempotent | server/src/models/Product.ts:112-120 | saving twice with a modified name gives the same product |
| Catalog.CategoryHookShape | server/src/models/Category.ts:47-55 | category slugs are well-formed and idempotent, and are not touched when the name was not modified |
| Catalog.SlugCollision | server/src/models/Category.ts:9-15 | "Hi Fi" and "hi-fi" are different names with the same slug "hi-fi" |
| Catalog.SlugCollisionBlocksSecond | server/src/models/Category.ts:9-15 | no category collection with both unique indexes can hold both of those categories once their hooks have run |
| CartModel.Total | server/src/models/Cart.ts:52-54 | the fold is 0 for no lines and at least 0 for lines with quantity ≥ 1 and price ≥ 0 |
| CartModel.TotalAppend | server/src/models/Cart.ts:52-54 | the fold over a concatenation is the sum of the folds |
| CartModel.TotalSingle | server/src/models/Cart.ts:52-54 | one line totals price × quantity |
| CartModel.TotalUpdate | server/src/models/Cart.ts:52-54 | changing one line changes the total by the difference of the line amounts |
| CartModel.TotalUsesSnapshotsOnly | server/src/models/Cart.ts:53 | lines that agree on stored price and quantity give the same total, whatever else differs |
| CartModel.NewCart | server/src/models/Cart.ts:36-43 | a new cart is empty with total 0 and expires 30 × 24 × 60 × 60 × 1000 ms after creation |
| CartModel.SavedShape | server/src/models/Cart.ts:51-56 | after the hook, `totalAmount` is the fold of the lines and is not negative for valid lines; lines and `expiresAt` are untouched; the hook is idempotent |
| CartModel.ClearedByQueryKeepsStaleTotal | server/src/controllers/orderController.ts:58-61 | emptying the lines by an update query leaves the old total (100 for a cart that held 100) |
| CartModel.ClearedAndSavedIsZero | server/src/controllers/cartController.ts:206-207 | emptying the lines through a save gives total 0 and keeps the expiry |
| CartController.AddMergesExisting | server/src/controllers/cartController.ts:64-70 | adding a product already in the cart adds the quantity to its line, keeps its price snapshot and id, adds no line and leaves the other lines alone |
| CartController.AddAppendsNew | server/src/controllers/cartController.ts:71-79 | adding a new product appends exactly one line with the requested quantity and the product's current price |
| CartController.AddKeepsDistinct | server/src/controllers/cartController.ts:64-79 | adding keeps line ids and products distinct |
| CartController.MergedLineCanExceedStock | server/src/controllers/cartController.ts:49-70 | with 3 in stock and 3 in the cart, adding 3 more passes the check and the line holds 6 |
| CartController.LinesAfterUpdate | server/src/controllers/cartController.ts:135 | only the chosen line changes, and only in its quantity |
| CartController.RemoveKeepsOthers | server/src/controllers/cartController.ts:169-171 | removal keeps exactly the lines with another id; an unknown id keeps every line |
| CartController.RemoveKeepsValid | server/src/controllers/cartController.ts:169-171 | the remaining lines stay valid with distinct ids and products |
| CartController.GetCart | server/src/controllers/cartController.ts:11-18 | an existing cart is returned unchanged; otherwise a new empty cart is stored and returned |
| CartController.AddToCart | server/src/controllers/cartController.ts:37-81 | 404 for an unknown product and 400 when stock < quantity, with the carts untouched; otherwise the cart (created if missing) gets the merged or appended line and is saved (200), or 500 when a line fails validation, leaving only the created cart |
| CartController.UpdateCartItem | server/src/controllers/cartController.ts:105-136 | 404 for a missing cart or item; 400 when the product exists and stock < quantity; 500 for a quantity below 1; otherwise only that line's quantity is set and the cart saved |
| CartController.RemoveFromCart | server/src/controllers/cartController.ts:160-173 | 404 without a cart; otherwise the lines with another id are kept and the cart saved |
| CartController.ClearCart | server/src/controllers/cartController.ts:197-207 | 404 without a cart; otherwise the lines are emptied and the total is 0 |
| OrderModel.ParseStatus | server/src/models/Order.ts:89-93 | exactly the five status spellings are accepted |
| OrderModel.ParsePaymentMethod | server/src/models/Order.ts:46-50 | exactly card, paypal, bank_transfer and cash_on_delivery are accepted |
| OrderModel.ParsePaymentStatus | server/src/models/Order.ts:52-56 | pending exactly for an absent status or `pending`, completed and failed exactly for their spellings, and a rejection exactly for anything else |
| OrderModel.OrderNumber | server/src/controllers/orderController.ts:35-37 | the order number starts with `ORD-` |
| OrderModel.SavedOrder | server/src/models/Order.ts:104-121 | an order without a number gets the generated one and an existing number is kept; exactly one entry with the current status, the clock and an empty note is appended when the status was modified, none otherwise; nothing else changes |
| OrderModel.SavedSettles | server/src/models/Order.ts:104-121 | saving again without a status change stores the same order |
| OrderModel.PreSave | server/src/models/Order.ts:104-121 | the hook's two steps store exactly `SavedOrder` |
| OrderController.Restocked | server/src/controllers/orderController.ts:51-55 | each product's stock moves by sign × the total quantity the lines name for its id; nothing else changes |
| OrderController.RestockRoundTrip | server/src/controllers/orderController.ts:271-275 | taking the lines out of stock and putting them back restores the catalog |
| OrderController.RestockedKeepsIds | server/src/controllers/orderController.ts:51-55 | adjusting stock keeps product ids distinct |
| OrderController.QtyOfDistinct | server/src/controllers/orderController.ts:51-55 | with distinct product lines, a product's total quantity is its one line's, or 0 |
| OrderController.LineError | server/src/controllers/orderController.ts:16-31 | a line is rejected with 404 exactly when its product is missing, and passes exactly when the product exists with stock ≥ quantity |
| OrderController.FirstStockError | server/src/controllers/orderController.ts:15-32 | no error exactly when every line passes; otherwise the error of a line preceded only by passing lines |
| OrderController.DistinctLinesKeepStock | server/src/controllers/orderController.ts:15-55 | with distinct product lines, a passed check leaves no non-negative stock negative |
| OrderController.PerLineCheckCanOversell | server/src/controllers/orderController.ts:15-55 | with 5 in stock, two lines of 3 pass the check and leave -1 |
| OrderController.AdjustStock | server/src/controllers/orderController.ts:51-55 | the loop of `$inc` updates leaves the catalog equal to `Restocked` of the lines |
| OrderController.CheckStock | server/src/controllers/orderController.ts:15-32 | the checking loop answers the first rejected line's error, or none |
| OrderController.PlaceOrder | server/src/controllers/orderController.ts:40-61 | the order is appended, the stock of each line's product goes down by its quantity, and the caller's cart is emptied by an update query |
| OrderController.CreatedOrder | server/src/controllers/orderController.ts:40-48 | the created order has status pending, one pending history entry, and the supplied items, pricing, owner and number |
| OrderController.CartsCleared | server/src/controllers/orderController.ts:58-61 | the caller's cart loses its lines but keeps its stale total; other carts are untouched |
| OrderController.CreateOrder | server/src/controllers/orderController.ts:10-74 | 400 on failed request validation; else the first stock error, with nothing written; 500 when the order fails its validators or reuses a number; otherwise 201, the order appended, the stock decremented by the lines and the caller's cart emptied |
| OrderController.CancelledOrder | server/src/controllers/orderController.ts:261-268 | status cancelled; the entry `Cancelled by user` is appended, then, exactly when the status changed, the save hook's entry with status cancelled and an empty note; it is defined as what the hook's `SavedOrder` stores for the handler's draft; nothing else changes |
| OrderController.CancelOrder | server/src/controllers/orderController.ts:233-275 | 404 for an unknown id; 403 for any non-owner, admins included; 400 for shipped or delivered, with order and stock unchanged; otherwise 200, the order cancelled and its lines' quantities put back |
| OrderController.StatusUpdated | server/src/controllers/orderController.ts:201-213 | the status is set, the tracking number is replaced only when one is given, the entry `{status, note}` is appended and, exactly when the status changed, the save hook's entry with an empty note after it; it is defined as what the hook's `SavedOrder` stores for the handler's draft |
| OrderController.AnyTransitionAllowed | server/src/controllers/orderController.ts:201 | a delivered order can be set back to pending |
| OrderController.TwoChangesFiveEntries | server/src/models/Order.ts:112-118 | a new order taken to shipped and then to delivered has five history entries |
| OrderController.UpdateOrderStatus | server/src/controllers/orderController.ts:189-213 | 403 for a non-admin; 404 for an unknown id; 500 for an unknown status with nothing saved; otherwise 200 and the order updated as `StatusUpdated` says |
| OrderController.GetOrder | server/src/controllers/orderController.ts:113-135 | 404 exactly for an unknown id; 403 when the caller neither owns it nor is admin; else the order itself |
| OrderController.OwnOrdersCounts | server/src/controllers/orderController.ts:81-98 | 500 exactly for a negative skip, otherwise 200; the total counts the caller's orders; the defaults are page 1 and limit 10 |
| OrderController.OwnOrdersPage | server/src/controllers/orderController.ts:85-88 | the page is `Page` of the caller's orders newest first: only the caller's orders, each at most as often as stored |
| OrderController.OwnOrdersNewest | server/src/controllers/orderController.ts:85-88 | the page is newest first, and page 1 leaves out no order of the caller's newer than one it shows |
| OrderController.GetOrders | server/src/controllers/orderController.ts:81-98 | 500 exactly for a negative skip; otherwise the page is `Page` of the caller's orders newest first (only the caller's, each at most as often as stored, at most `limit`, page 1 holding the newest), the total counts all the caller's orders, and the defaults are page 1 and limit 10 |
| OrderController.AllOrdersCounts | server/src/controllers/orderController.ts:149-174 | 500 exactly for a negative skip, otherwise 200; the total counts the orders the status filter keeps; the default limit is 20 |
| OrderController.AllOrdersUnfiltered | server/src/controllers/orderController.ts:155-166 | without a status the total is every order |
| OrderController.AllOrdersPage | server/src/controllers/orderController.ts:157-163 | the page is `Page` of the orders with the asked status, newest first, each at most as often as stored |
| OrderController.AllOrdersNewest | server/src/controllers/orderController.ts:157-163 | the page is newest first, and page 1 leaves out no order with the asked status newer than one it shows |
| OrderController.GetAllOrders | server/src/controllers/orderController.ts:149-174 | 403 exactly for non-admins; for admins 500 exactly for a negative skip; otherwise the page is `Page` of the orders the status filter keeps (the filter applies only when a status is given), newest first with page 1 holding the newest; the total counts those orders, and is every order without a status; the default limit is 20 |
| OrderController.CountAll | server/src/controllers/orderController.ts:166 | counting under a filter that keeps everything gives the length |
| OrderController.RevenueNonNegative | server/src/controllers/orderController.ts:303-308 | revenue is at least 0 over valid orders |
| OrderController.RevenueOfEarning | server/src/controllers/orderController.ts:303-305 | revenue depends only on the processing, shipped and delivered orders |
| OrderController.CountsPartition | server/src/controllers/orderController.ts:295-300 | the five per-status counts add up to the number of orders |
| OrderController.GetOrderStatistics | server/src/controllers/orderController.ts:293-321 | 403 exactly for non-admins and 200 for admins; each status count is the number of orders with that status, the total is every order and equals the sum of the counts, revenue is the `$sum` of the earning orders' totals, not negative, and 0 when no order earns |
| Paging.OrDefault | server/src/controllers/orderController.ts:81-82 | a given non-zero number is used; an absent, unparsable or zero one falls back to the default |
| Paging.Pages | server/src/controllers/orderController.ts:97 | for a positive limit, the least page count whose pages cover the total |
| Paging.Window | server/src/controllers/orderController.ts:86-88 | a contiguous run starting at `skip`, at most `limit` long, empty past the end, each element at most as often as in the input |
| Paging.Page | server/src/controllers/orderController.ts:85-88 | the documents a page shows: only kept documents, each at most as often as in the input, sorted, exactly `min(limit, total - skip)` of them before the end and none past it; the first page leaves out no kept document with a smaller key than one it shows |
| Paging.FirstPageSmallest | server/src/controllers/orderController.ts:85-88 | every kept document the first window leaves out has a key no smaller than any document in it |
| Paging.FirstPageBefore | server/src/controllers/orderController.ts:85-88 | the first page's order, for one left-out document and one position |
| Paging.WindowOfSorted | server/src/controllers/orderController.ts:85-88 | a window of the sorted matching documents holds only matching documents, still sorted |
| Paging.List | server/src/controllers/productController.ts:54-67 | 500 exactly for a negative skip; otherwise the data is exactly `Page` of the matching documents for that skip and limit, the total is their count, and pages is `ceil(total / limit)` |
| Paging.ListAgrees | server/src/controllers/productController.ts:54-60 | a listing depends only on which documents its filter accepts |
| Paging.ListFirstBefore | server/src/controllers/orderController.ts:85-88 | on page 1 of a listing, a left-out matching document has a key no smaller than a shown one |
| ProductController.BuildQuery | server/src/controllers/productController.ts:16-38 | the query matches exactly the products `Wanted` describes: active, and satisfying the category, condition and text filters when given and each price bound (inclusive) when given |
| ProductController.BuildSort | server/src/controllers/productController.ts:41-52 | `price-asc`, `price-desc` and `rating` select their sorts; every other value sorts newest first |
| ProductController.SpecOrder | server/src/controllers/productController.ts:41-52 | ordering by a spec's key is price ascending, price descending, rating descending or newest first |
| ProductController.QueryListing | server/src/controllers/productController.ts:16-60 | listing with the built query and sort is listing the wanted products on the asked key |
| ProductController.ListedCounts | server/src/controllers/productController.ts:10-67 | 500 exactly for a negative skip; the total counts the wanted products; the data is exactly `Page` of them on the asked key; defaults page 1 and limit 12 |
| ProductController.ListedFields | server/src/controllers/productController.ts:16-38 | every listed product is stored, active and satisfies each given filter |
| ProductController.ListedOrder | server/src/controllers/productController.ts:41-60 | the listing is ordered by price up, price down, rating down or newest first, as `sort` asks |
| ProductController.ListedFirstPage | server/src/controllers/productController.ts:54-58 | page 1 leaves out no wanted product that comes before a shown one on the asked key |
| ProductController.GetProducts | server/src/controllers/productController.ts:9-69 | the result is `List` of the wanted products on the asked key: 500 exactly for a negative skip; otherwise the page is `Page` of them, each at most as often as stored, all active and matching each given filter, in the order the sort mapping gives, page 1 holding the first ones; total and pages are counted over the wanted products; the defaults are page 1 and limit 12 |
| ProductController.GetProduct | server/src/controllers/productController.ts:83-96 | 404 exactly for an unknown id; otherwise that product |
| ProductController.Patched | server/src/controllers/productController.ts:163-170 | each of the nine body fields is replaced when given and kept otherwise; id, slug, creation time and rating count are kept; an empty body changes nothing |
| ProductController.PatchKeepsBounds | server/src/models/Product.ts:27-82 | a body that passes the update validators keeps stock and price ≥ 0 and the rating average within 0 to 5 stars |
| ProductController.RenameKeepsStaleSlug | server/src/controllers/productController.ts:163-170 | renaming through the update query keeps the old slug |
| ProductController.UpdateProduct | server/src/controllers/productController.ts:161-178 | 403 for non-admins; 500 for a body failing the validators; 404 for an unknown id; otherwise only that product is patched |
| ProductController.DeleteProduct | server/src/controllers/productController.ts:196-206 | 403 for non-admins; 404 for an unknown id with nothing changed; otherwise exactly that product is removed, the rest keep their order, and carts and orders are untouched |
| ProductController.FeaturedPage | server/src/controllers/productController.ts:225-228 | the first eight featured products by creation time number `min(8, featured count)`, all featured and active, newest first |
| ProductController.FeaturedNewest | server/src/controllers/productController.ts:225-228 | no featured active product left out is newer than one shown |
| ProductController.GetFeaturedProducts | server/src/controllers/productController.ts:225-228 | `min(8, featured count)` products, each featured and active and at most as often as stored, newest first, and no featured active product left out is newer than one shown |
| AuthController.Register | server/src/controllers/authController.ts:9-28 | 400 for a request failing validation or an email already taken, with no user created; otherwise 201 and exactly one new customer with no addresses and an empty wishlist |
| AuthController.Undefaulted | server/src/controllers/authController.ts:228-230 | every address keeps everything but its default flag, which is cleared |
| AuthController.ClearDefaults | server/src/controllers/authController.ts:228-230 | the `forEach` loop clears every default flag and changes nothing else |
| AuthController.AddAddressShape | server/src/controllers/authController.ts:227-233 | at most one default stays at most one; the new address comes last; with `isDefault` every prior flag is cleared; without it, into a non-empty list, the prior addresses are unchanged |
| AuthController.FirstAddressNotDefault | server/src/controllers/authController.ts:226-233 | a first address added without `isDefault` is stored as not default |
| AuthController.AddAddress | server/src/controllers/authController.ts:216-247 | 404 for an unknown user; 500 for a missing address field with nothing saved; otherwise 201, the list as `AddressesAfterAdd` gives, with at most one default kept |
| AuthController.Assigned | server/src/controllers/authController.ts:281 | `Object.assign` keeps the id and sets each of the seven address fields and the default flag to the body's value when given, the old one otherwise; an empty body changes nothing |
| AuthController.AssignTwice | server/src/controllers/authController.ts:281 | assigning the same body twice is assigning it once |
| AuthController.UpdateAddressShape | server/src/controllers/authController.ts:275-281 | at most one default is kept; the target becomes `Assigned` of the old address; with `isDefault` true the target is the only default and every other address only loses its flag; otherwise every other address is unchanged |
| AuthController.UpdateAddress | server/src/controllers/authController.ts:254-282 | 404 for an unknown user or address id with nothing changed; 500 when the result lacks a field; otherwise 200 and only that user's list updated |
| AuthController.DeleteKeepsOneDefault | server/src/controllers/authController.ts:312-314 | deleting keeps at most one default |
| AuthController.DeleteAddressShape | server/src/controllers/authController.ts:312-314 | exactly the addresses with another id remain; an unknown id keeps the list |
| AuthController.DeleteAddress | server/src/controllers/authController.ts:302-316 | 404 for an unknown user; otherwise 200 and the other addresses kept |
| AuthController.ToggleFlips | server/src/controllers/authController.ts:346-355 | toggling flips the product's membership, leaves every other product's, and keeps the list free of duplicates |
| AuthController.ToggleTwice | server/src/controllers/authController.ts:346-355 | toggling an absent product twice restores the list |
| AuthController.ToggleWishlist | server/src/controllers/authController.ts:336-357 | 404 for an unknown user; otherwise 200 and the first occurrence removed, or the product appended |
| CartSlice.CalculateTotal | client/src/store/slices/cartSlice.ts:34-36 | no lines total 0 |
| CartSlice.TotalAppend | client/src/store/slices/cartSlice.ts:34-36 | the total of a concatenation is the sum of the totals |
| CartSlice.TotalUpdate | client/src/store/slices/cartSlice.ts:34-36 | replacing one line changes the total by the difference of the line amounts |
| CartSlice.AddShape | client/src/store/slices/cartSlice.ts:44-53 | a present product gets one more on its line with the length kept; a new one is appended with quantity 1; ids stay distinct |
| CartSlice.TotalKeepsFirstRecordPrice | client/src/store/slices/cartSlice.ts:45-55 | adding a product again with a new price keeps pricing it by the first record |
| CartSlice.RemoveShape | client/src/store/slices/cartSlice.ts:60 | every line of that product goes, the other lines stay, and ids stay distinct |
| CartSlice.UpdateShape | client/src/store/slices/cartSlice.ts:69-81 | an unknown id changes nothing; a quantity ≤ 0 removes the line; a positive one sets exactly that line; ids stay distinct |
| CartSlice.CartState.AddToCart | client/src/store/slices/cartSlice.ts:44-56 | the lines become `AfterAdd` of the old lines and the total equals `calculateTotal` of the lines |
| CartSlice.CartState.RemoveFromCart | client/src/store/slices/cartSlice.ts:59-63 | the lines become `AfterRemove` of the old lines and the total is recomputed |
| CartSlice.CartState.UpdateQuantity | client/src/store/slices/cartSlice.ts:65-85 | the lines become `AfterUpdate` of the old lines and the total is recomputed |
| CartSlice.CartState.ClearCart | client/src/store/slices/cartSlice.ts:87-91 | no lines and total 0 |
| ProductsPage.EmptySearchMatchesAll | client/src/pages/Products.tsx:38-39 | the empty search matches every product |
| ProductsPage.SearchIsSubstring | client/src/pages/Products.tsx:38-39 | the search matches exactly when the lower-cased term occurs in the lower-cased name or description |
| ProductsPage.FilteredShape | client/src/pages/Products.tsx:37-46 | the filtered list holds exactly the products passing all four tests, and filtering a concatenation concatenates, so order is kept |
| ProductsPage.AllDisablesSelectors | client/src/pages/Products.tsx:40-43 | with `all` in both selectors and the price inside the range, only the search decides |
| ProductsPage.Sorted | client/src/pages/Products.tsx:49-61 | a permutation of the input in the mode's order: price up, price down, rating down with a missing rating counted as 0, or newest first |
| ProductsPage.Shown | client/src/pages/Products.tsx:37-61 | the shown list is a permutation of the filtered list |
| ProductsPage.ShownShape | client/src/pages/Products.tsx:37-61 | every shown product is a fetched product the filters keep, and every such product is shown |
| Seqs.Filter | client/src/pages/Products.tsx:37 | the kept elements all pass, form a sub-multiset of the input, and include every passing element |
| Seqs.FilterAppend | client/src/pages/Products.tsx:37 | filtering distributes over concatenation |
| Seqs.FilterAgrees | server/src/controllers/productController.ts:54-60 | filtering depends only on what the predicate accepts |
| Seqs.SliceIncluded | server/src/controllers/orderController.ts:86-88 | a slice holds each element at most as often as the whole |
| Seqs.FilterKeepsDistinct | server/src/controllers/cartController.ts:169-171 | filtering keeps pairwise distinct keys distinct |
| Seqs.PermutedFilter | client/src/pages/Products.tsx:37-61 | a permutation of a filtered list holds exactly the passing elements of the original |
| Seqs.FirstIndex | server/src/controllers/cartController.ts:64-66 | the first position that passes; none exactly when no element passes |
| Seqs.CountIsFilterLength | server/src/controllers/orderController.ts:90 | the document count equals the length of the filtered list |
| Seqs.RemoveAt | server/src/controllers/authController.ts:351 | `splice(k, 1)` keeps the elements before `k` and shifts the rest down by one |
| Sorting.Insert | client/src/pages/Products.tsx:49-61 | the insertion adds exactly one occurrence of the element to the multiset |
| Sorting.InsertSorted | client/src/pages/Products.tsx:49-61 | inserting into a sorted list keeps it sorted |
| Sorting.SortBy | client/src/pages/Products.tsx:49-61 | the result is sorted by the key and is a permutation of the input |
| Sorting.SortedDescending | server/src/controllers/productController.ts:44-49 | ascending on a negated key is descending on the key |
| Db.FindProduct | server/src/controllers/productController.ts:83 | the position of a product with that id; none exactly when there is no such product |
| Db.FindOrder | server/src/controllers/orderController.ts:113 | the position of an order with that id; none exactly when there is no such order |
| Db.FoundProductIsUnique | server/src/models/Product.ts:48-109 | with distinct ids, the product found is the one with that id |

## Left out

- Express routing, the HTTP response bodies and `populate` are not modelled. A handler answers only its status code, plus the data for the read-only ones.
- The `protect` middleware, JWT tokens, bcrypt hashing, Google sign-in, `login`, `getMe`, `updateProfile` and `updatePassword` are not modelled: they are foreign crypto and network code. The caller is a given user id and role.
- `createProduct`, `getProductBySlug` and server/src/controllers/categoryController.ts are not part of this model.
- `$text` search: the text index's matching is given as a predicate parameter of `ProductController.GetProducts`.
- Parsing query strings is abstracted: `parseInt` and `parseFloat` results are given as `Option<int>`, and NaN bounds are not modelled.
- `toLowerCase` is modelled on ASCII letters only. Other Unicode case mappings are not modelled.
- JavaScript numbers are modelled as unbounded integers. Floating-point prices and ratings are not modelled.
- Ties in a sort: the store's order for equal keys is unspecified. The model uses one stable order.
- express-validator's trimming and email checks are not modelled: `.trim()`, `isEmail`, `normalizeEmail`, the schema's email regex and its `lowercase`/`trim` setters. A field counts as present when it is non-empty.
- Casting of malformed ObjectIds, defaults such as `addedAt`, `updatedAt`, avatars and images, and the optional fields no handler reads are not modelled.
- Mongo's TTL deletion of expired carts is not modelled: only the `expiresAt` value is.
- Concurrency is not modelled. Each handler is one atomic step over the store, so the race between checking and decrementing stock, and the absence of a transaction around `createOrder`'s writes, are out of scope.
- The client cart's `localStorage` loading and saving is not modelled: it is I/O. The constructor models the state when nothing was saved.
- `OrderModel.SavedOrder`: not exercised for an order that lacks a number, since every handler supplies one. The random order-number parts are parameters.
- `ProductController.Patched`: the update body is limited to the nine flat fields of `ProductPatch`. A body that sets `slug` directly is not modelled: it is stored lower-cased, and a duplicate fails the unique index. A body with a `ratings` object is not modelled either: it replaces the whole sub-document, `ratings.count` included. The model keeps the slug and the rating count.
- `AuthController.Register`: the name-length and password-length rules are taken from the route's validation chain. The password is only checked, never stored.
