# Storefront client logic in Dafny

This project models the logic layer of an Angular storefront client, written in
TypeScript. That layer sits beneath its HTTP plumbing and templates. The model covers:

- the **cart snapshot store** (`CartService`): one optional cart with ordered items, the
  derived totals, and the local patch that each confirmed call applies;
- the **wishlist store** (`WishlistService`);
- the **checkout state** (`PaymentService`) and the **checkout saga**
  (`SummaryStepComponent.placeOrder`): address check, order, payment record, payment
  session, redirect;
- the **search-filter form** and the `ProductFilter` it emits;
- the **query-parameter builders**, **image-URL resolution** and **availability** rule of
  `ProductService`;
- the **product-list view state**: title, empty state, pagination, and the handlers that
  reset the page and reload;
- the **order-details** status labels, the status CSS class, and the gated order load.

Every server reply is an input parameter. A `Delivery<T>` is either `Delivered(value)` (the
`next` callback fires) or `Errored` (the `error` callback fires). Most replies are wrapped in
an `ApiEnvelope` with an `isSuccess` flag and an optional `result`. Each operation issues its
call and then applies its reply in one step. Methods return the remote calls they issue, as a
sequence of call values, so that the order of calls and their payloads can be stated.

Modules, one per source file:

- `Common`: Option, Delivery, ApiEnvelope, User, and JavaScript truthiness.
- `Text`: prefix and suffix tests, `trim`, `toLowerCase`.
- `CartStore`: `cart-service.ts`.
- `WishlistStore`: `wishlist-service.ts`.
- `Payments`: `payments.service.ts`.
- `Checkout`: `summery-step.component.ts`.
- `Products`: `product-service.ts`, with the `Product` and `ProductFilter` records of
  `product.models.ts`.
- `SearchFilter`: `search-filter.component.ts`.
- `ProductList`: `product-list-component.ts`.
- `OrderDetails`: `order-details-component.ts`.

Object state that the source updates in place is a Dafny `class`: the cart store, the
wishlist store, the payment state, the filter form, and the two components. Each of these
classes has `modifies` clauses on its methods. The list transformations (merge, patch,
filter, normalise) are functions on sequences. The loops of the parameter builders are
methods with loop invariants.

## Model

| member | source | states |
|---|---|---|
| CartStore.CartService.constructor | src/app/core/services/cart-service.ts:18 | Starts with no cart held |
| CartStore.CartService.TotalItems | src/app/core/services/cart-service.ts:21-23 | Is the sum of item quantities, and 0 without a cart |
| CartStore.CartService.TotalAmount | src/app/core/services/cart-service.ts:24-26 | Is the sum of item `totalPrice`, and 0 without a cart |
| CartStore.Normalized | src/app/core/services/cart-service.ts:38-45 | Keeps id, owner, creation time and item count; each item differs from the original only in `totalPrice`, which becomes `unitPrice * quantity` |
| CartStore.NormalizedIsConsistent | src/app/core/services/cart-service.ts:38-47 | After normalisation every item total equals its line total. `totalAmount` equals the sum of item totals and also the sum of the original items' line totals. Product uniqueness is kept, and normalising twice is normalising once |
| CartStore.ConsistentSums | src/app/core/services/cart-service.ts:45 | When each item's total is its line total, the two sums agree |
| CartStore.SumUpdate | src/app/core/services/cart-service.ts:21-26 | Replacing one item moves a reduce-sum by the difference of that item's terms |
| CartStore.CartService.LoadCart | src/app/core/services/cart-service.ts:31-55 | A successful load publishes the normalised cart, with a consistent amount. A success without a result changes nothing. A failed or errored load falls back to `createCart`, and the calls issued are listed |
| CartStore.CartService.CreateCart | src/app/core/services/cart-service.ts:60-78 | Without a user there is no call and no change. Otherwise it posts a cart for the user and holds the result only when the reply is a success |
| CartStore.IndexOf | src/app/core/services/cart-service.ts:114 | `find`: returns the first index whose key matches, or none when no item matches |
| CartStore.MergeAdded | src/app/core/services/cart-service.ts:114-121 | The list either keeps its length or is the old list plus the added item. It keeps its length whenever the product is already present, appends exactly when the product is absent, and never touches other products' items |
| CartStore.MergeIntoExisting | src/app/core/services/cart-service.ts:114-118 | On any cart, the first item for the product is replaced in place by one with its id, the summed quantity and total, and the new unit price. Every other item stays as it was, including later items for the same product |
| CartStore.MergeAddsToTotals | src/app/core/services/cart-service.ts:21-26 | After a merge, the quantity sum and the total sum each grow by exactly the added item's figures |
| CartStore.MergeKeepsProductsUnique | src/app/core/services/cart-service.ts:114-121 | If no product appeared twice before an add, none appears twice after it |
| CartStore.AddSameProductTwice | src/app/core/services/cart-service.ts:114-121 | Adding a new product twice leaves one line at the end holding both quantities, both totals and the later price |
| CartStore.CartService.AddToCart | src/app/core/services/cart-service.ts:84-126 | A signed-out user gets `NotLoggedIn` with no call. Without a cart it creates one and retries once. It posts `totalPrice = unitPrice * quantity` for the held cart, merges a confirmed item, issues at most two calls, and keeps products unique |
| CartStore.CartService.PostItem | src/app/core/services/cart-service.ts:95-123 | Posts the item for the held cart. A confirmed item is merged and both totals grow by its figures. A failed reply or one without a result leaves the cart unchanged |
| CartStore.PatchQuantity | src/app/core/services/cart-service.ts:145-151 | Keeps length, ids, products and unit prices. Items with other ids are unchanged, an unknown id changes nothing, and a changed item has exactly the server's quantity and total |
| CartStore.PatchFirstMatch | src/app/core/services/cart-service.ts:145-151 | The first item with the id is the one patched, and the amount moves by its new total minus its old one |
| CartStore.CartService.UpdateQuantity | src/app/core/services/cart-service.ts:134-154 | Sends the requested quantity. A reply with a result patches the held cart. No result, no cart or an unknown id changes nothing. Uniqueness is kept |
| CartStore.WithoutItem | src/app/core/services/cart-service.ts:167 | Keeps exactly the items whose id differs |
| CartStore.WithoutItemDistributes | src/app/core/services/cart-service.ts:167 | The filter distributes over concatenation, so the kept items keep their order and multiplicity |
| CartStore.RemoveAbsentIsNoop | src/app/core/services/cart-service.ts:167 | Removing an absent id leaves the list as it was |
| CartStore.RemoveKeepsProductsUnique | src/app/core/services/cart-service.ts:167 | Removing items never creates a duplicate product |
| CartStore.RemoveSubtracts | src/app/core/services/cart-service.ts:167 | After a remove, every item sum drops by exactly the removed items' share |
| CartStore.CartService.RemoveItem | src/app/core/services/cart-service.ts:160-171 | Deletes remotely; once acknowledged, the held cart keeps exactly the items with another id. An absent id or no cart changes nothing |
| CartStore.Cleared | src/app/core/services/cart-service.ts:184-190 | Same id, owner and creation time, no items, amount 0 |
| CartStore.CartService.ClearCart | src/app/core/services/cart-service.ts:177-193 | Without a cart there is no call and no change. Otherwise it deletes the cart's contents remotely and, once acknowledged, publishes the cleared cart, with both totals 0 |
| CartStore.AddToCartAsWritten | src/app/core/services/cart-service.ts:84-93 | `addToCart` as written, unrolled to a depth: it throws exactly when no user is signed in, posts the item exactly when a cart is already held, and issues at most one call per level |
| CartStore.RetryNeverReachesPost | src/app/core/services/cart-service.ts:90-93 | For a signed-in user with no cart, the recursion as written never posts the item: after any depth it has only sent that many create-cart requests |
| WishlistStore.WishlistService.constructor | src/app/core/services/wishlist-service.ts:13 | Starts with the empty list |
| WishlistStore.WishlistService.TotalItems | src/app/core/services/wishlist-service.ts:16 | Is the list length, and 0 exactly for the empty list |
| WishlistStore.WishlistService.LoadWishlist | src/app/core/services/wishlist-service.ts:20-24 | A delivered list replaces the held one wholesale; an error changes nothing |
| WishlistStore.WishlistService.AddToWishlist | src/app/core/services/wishlist-service.ts:26-32 | The returned entry goes at the end and earlier entries are unchanged, with no de-duplication; the count grows by one |
| WishlistStore.WithoutEntry | src/app/core/services/wishlist-service.ts:37 | Keeps exactly the entries whose id differs |
| WishlistStore.WithoutEntryDistributes | src/app/core/services/wishlist-service.ts:37 | The filter distributes over concatenation, so the kept entries keep their order |
| WishlistStore.RemoveAbsentEntryIsNoop | src/app/core/services/wishlist-service.ts:37 | Removing an absent id leaves the list as it was |
| WishlistStore.AddThenRemoveRestores | src/app/core/services/wishlist-service.ts:26-41 | Removing an entry just added under a fresh id restores the list |
| WishlistStore.WishlistService.RemoveFromWishlist | src/app/core/services/wishlist-service.ts:34-41 | Once acknowledged, keeps exactly the entries with another id; an absent id changes nothing |
| WishlistStore.WishlistService.ClearWishlist | src/app/core/services/wishlist-service.ts:43-45 | Empties the list, with no remote call |
| Payments.PaymentService.constructor | src/app/features/payments/payments.service.ts:9-15 | Starts with no address, Standard delivery, total 0 |
| Payments.PaymentService.SaveAddress | src/app/features/payments/payments.service.ts:17-19 | Sets the address and nothing else |
| Payments.PaymentService.SetDelivery | src/app/features/payments/payments.service.ts:22-24 | Sets the delivery type and nothing else |
| Payments.PaymentService.SetTotal | src/app/features/payments/payments.service.ts:26-28 | Sets the total and nothing else |
| Checkout.ShippingAddress | src/app/features/payments/steps/summery-step.component.ts:299 | Has the fields' total length plus six, starts with the street and ends with the zip code |
| Checkout.SplitShippingAddress | src/app/features/payments/steps/summery-step.component.ts:299 | When no field holds a comma, the shipping string splits into the street and the other three fields, each after its space |
| Checkout.ShippingAddressRoundTrip | src/app/features/payments/steps/summery-step.component.ts:299 | When no field holds a comma, the shipping string parses back to the same address |
| Checkout.CommaInFieldIsAmbiguous | src/app/features/payments/steps/summery-step.component.ts:299 | Two different addresses with a comma in a field give the same shipping string |
| Checkout.SummaryStep.constructor | src/app/features/payments/steps/summery-step.component.ts:281 | Holds the injected checkout state service |
| Checkout.SummaryStep.PlaceOrder | src/app/features/payments/steps/summery-step.component.ts:294-374 | No address means no call. A bad order reply means no payment call. The payment carries the order id, Card, the total and the user id. A bad payment reply means no session call. The session is keyed by the order id. There are at most three calls, in that order, and it redirects exactly to the session url iff every stage passed |
| Products.KeptExactlySent | src/app/core/services/product-service.ts:30-37 | A parameter is appended iff its key has that value and the value is not `''` |
| Products.KeptNothingSent | src/app/core/services/product-service.ts:30-37 | Entries with no values give no parameters |
| Products.GetAllProductsParams | src/app/core/services/product-service.ts:27-40 | No filter gives no parameters; otherwise the loop's parameters are those kept from the filter's entries, in order |
| Products.FilterTextParams | src/app/core/services/product-service.ts:30-37 | `search`, `sortBy` and `sortOrder` are sent with their own value iff present and not `''` |
| Products.FilterNumberParams | src/app/core/services/product-service.ts:30-37 | The prices and the rating are sent iff present, so 0 is kept |
| Products.FilterIdParams | src/app/core/services/product-service.ts:30-37 | Category and brand are sent iff present, and the empty filter sends nothing |
| Products.PriceSearchParams | src/app/core/services/product-service.ts:59-71 | Each bound is sent, with its value, iff it is given, and there are no other keys |
| Products.ProductImageUrl | src/app/core/services/product-service.ts:148-160 | A missing or empty path gives the default image. A path starting `https` is returned unchanged. Any other path is put under the images prefix. The result ends with the path and is never empty. A prefixed result is exactly the prefix followed by the path, with nothing between them |
| Products.ResolvedUrlIsFixedPoint | src/app/core/services/product-service.ts:148-160 | With an `https` API, resolving a resolved URL changes nothing |
| Products.HttpApiPrefixesTwice | src/app/core/services/product-service.ts:154-159 | With a plain `http` API, resolving twice applies the prefix twice |
| Products.ThumbnailUrl | src/app/core/services/product-service.ts:162-173 | Uses the thumbnail if set, else the first gallery image, else the default |
| Products.GalleryImages | src/app/core/services/product-service.ts:176-182 | Resolves every image in order, or gives the default alone when there are none |
| Products.ThumbnailLeadsGallery | src/app/core/services/product-service.ts:162-182 | Without its own thumbnail, a product's thumbnail is its first gallery image |
| Products.IsProductAvailable | src/app/core/services/product-service.ts:204-206 | A deleted product, or one out of stock, is never available |
| Products.AvailabilityDependsOnStockAndDeletion | src/app/core/services/product-service.ts:204-206 | Not available iff out of stock or deleted; nothing else matters |
| SearchFilter.PriceRangesAreContiguous | src/app/features/shopping/search-filter/search-filter.component.ts:23-30 | Each bounded range ends where the next begins, the starts increase, and only the last range is open |
| SearchFilter.SplitSortKey | src/app/features/shopping/search-filter/search-filter.component.ts:90-107 | Joining the parts gives the key back. An order appears iff the key is one of the four compound keys, and is then price or name with asc or desc |
| SearchFilter.SortOptionsSplit | src/app/features/shopping/search-filter/search-filter.component.ts:36-43 | Every sort option joins back to itself after the split; exactly `price_asc`, `price_desc`, `name_asc` and `name_desc` get an order, and `latest` and `rating` are sent as they are |
| SearchFilter.RatingOptionsDescend | src/app/features/shopping/search-filter/search-filter.component.ts:33 | The rating options are distinct, best first, and all within 0 to 5 stars |
| SearchFilter.SearchFilterForm.constructor | src/app/features/shopping/search-filter/search-filter.component.ts:47-53 | Starts with an empty search, no bounds, no rating, newest first |
| SearchFilter.SearchFilterForm.EmitFilterChange | src/app/features/shopping/search-filter/search-filter.component.ts:69-110 | The search is sent trimmed iff its trimmed form is non-empty. Prices and rating are sent iff truthy, so 0 is dropped. A non-empty sort key is sent split, and joining the parts gives it back. No category or brand is sent |
| SearchFilter.SearchFilterForm.ClearFilters | src/app/features/shopping/search-filter/search-filter.component.ts:113-121 | Resets to an empty search, null bounds and rating, and `latest` |
| SearchFilter.SearchFilterForm.SelectPriceRange | src/app/features/shopping/search-filter/search-filter.component.ts:124-129 | Sets both bounds, leaves the other fields, and the range then reads as selected |
| SearchFilter.SearchFilterForm.SelectRating | src/app/features/shopping/search-filter/search-filter.component.ts:132-136 | Sets the rating, leaves the other fields, and the rating then reads as selected |
| SearchFilter.SearchFilterForm.IsPriceRangeSelected | src/app/features/shopping/search-filter/search-filter.component.ts:139-142 | True exactly when both form bounds are strictly equal (`===`) to the given minimum and maximum, null included |
| SearchFilter.SearchFilterForm.IsRatingSelected | src/app/features/shopping/search-filter/search-filter.component.ts:145-147 | True exactly when the form rating is strictly equal (`===`) to the given rating |
| SearchFilter.AtMostOneRangeSelected | src/app/features/shopping/search-filter/search-filter.component.ts:139-142 | At most one predefined range reads as selected |
| ProductList.FindCategory | src/app/features/shopping/product-list-component/product-list-component.ts:42 | Finds the first listed category with that id, or none when no category has it |
| ProductList.PageTitle | src/app/features/shopping/product-list-component/product-list-component.ts:40-51 | Category first (`Category Products` when it is unknown or unnamed), then brand, then a search, else `All Products` |
| ProductList.TitlePriority | src/app/features/shopping/product-list-component/product-list-component.ts:40-51 | A selected category hides brand and search, and a selected brand hides the search |
| ProductList.ShowEmptyState | src/app/features/shopping/product-list-component/product-list-component.ts:53-55 | Never shown while loading or after an error, and only for an empty product list |
| ProductList.Paginate | src/app/features/shopping/product-list-component/product-list-component.ts:57-60 | Has at most `pageSize` products, is empty past the end, and holds the products from `page * size` on, in order |
| ProductList.PagesCoverList | src/app/features/shopping/product-list-component/product-list-component.ts:57-60 | With a positive page size, the pages laid end to end are exactly the product list |
| ProductList.ProductListView.constructor | src/app/features/shopping/product-list-component/product-list-component.ts:24-37 | Starts with no products, not loading, no error, page 0 of size 12, and the empty filter |
| ProductList.ProductListView.BeginLoad | src/app/features/shopping/product-list-component/product-list-component.ts:99-103 | Marks loading, clears the error, requests the current filter; the empty state is hidden |
| ProductList.ProductListView.CompleteLoad | src/app/features/shopping/product-list-component/product-list-component.ts:103-114 | A delivered list replaces the products and their count. An error sets the message. Loading ends either way. The empty state shows iff the delivered list is empty |
| ProductList.ProductListView.OnPageChange | src/app/features/shopping/product-list-component/product-list-component.ts:118-121 | Copies the page index and size and nothing else |
| ProductList.ProductListView.OnFilterChange | src/app/features/shopping/product-list-component/product-list-component.ts:123-127 | Replaces the filter, resets the page to 0, and reloads |
| ProductList.ProductListView.OnCategorySelect | src/app/features/shopping/product-list-component/product-list-component.ts:129-135 | Selects the category, clears the brand, sets the filter to the category alone, resets the page, and reloads |
| ProductList.ProductListView.ClearFilters | src/app/features/shopping/product-list-component/product-list-component.ts:140-145 | Clears category and brand, empties the filter, resets the page, and reloads; the title becomes `All Products` |
| OrderDetails.StatusLabelsTable | src/app/features/orders/order-details/order-details-component.ts:33-39 | The keys are exactly 0 to 4, each with its own label |
| OrderDetails.StatusClass | src/app/features/orders/order-details/order-details-component.ts:57-59 | Is `status-` followed by the status lower-cased character by character, with no upper-case ASCII letter after the prefix |
| OrderDetails.StatusClassOfLabels | src/app/features/orders/order-details/order-details-component.ts:33-59 | Lower-casing the status first changes nothing, and the labels give `status-pending` and `status-cancelled` |
| OrderDetails.OrderDetailsView.constructor | src/app/features/orders/order-details/order-details-component.ts:30 | Starts with no order held |
| OrderDetails.OrderDetailsView.LoadOrder | src/app/features/orders/order-details/order-details-component.ts:48-54 | Requests `api/order/{id}` and holds the result only when the reply is a success |
| OrderDetails.OrderDetailsView.NgOnInit | src/app/features/orders/order-details/order-details-component.ts:41-46 | Loads only when the route id is present and non-empty |
| Text.Trim | src/app/features/shopping/search-filter/search-filter.component.ts:74-76 | The result is no longer than the input and does not start or end with white space. It is empty iff the input is all white space |
| Text.TrimKeepsMiddle | src/app/features/shopping/search-filter/search-filter.component.ts:74-76 | The trimmed string is a contiguous part of the input, with only white space around it |
| Text.ToLower | src/app/features/orders/order-details/order-details-component.ts:58 | Keeps the length, lower-cases each character, and leaves no upper-case ASCII letter |
| Text.ToLowerIdempotent | src/app/features/orders/order-details/order-details-component.ts:58 | Lower-casing twice is lower-casing once |

## Left out

- HTTP, RxJS and timing: replies are parameters, and each callback is one atomic step. Overlapping in-flight requests are concurrency, and are not modelled.
- Money: prices and totals in the cart are JavaScript floating-point numbers. Here they are whole cents (`int`), so the sum properties are exact. No claim is made about float rounding. Filter prices and ratings are exact `real`s, and NaN is not modelled.
- CartStore.CartService.AddToCart: models the evidently intended create-then-retry-once, not the unbounded recursion of the source (see Findings).
- The default argument `quantity = 1` of `addToCart` is not modelled: `CartStore.CartService.AddToCart` always takes the quantity explicitly, and a caller that omits it is the call with 1.
- In-place mutation: `addToCart` and `updateQuantity` mutate the found item object, and `removeItem` reassigns `cartItems` on the held snapshot. Items here are values, so aliasing of an earlier snapshot that a caller still holds is not captured.
- A cart reply whose `cartItems` is null is not modelled; `cartItems` is always a list. A successful `loadCart` reply with no result makes the source's callback throw, and the model leaves the state unchanged.
- CartStore.CartService.UpdateQuantity: follows the source, which checks only that a result is present and never reads `isSuccess`.
- Query parameters carry typed values; their `toString()` rendering is not modelled. The order of the filter keys is the order in which the search-filter form and `{ categoryId }` insert them.
- Text.Trim and Text.ToLower: `trim` strips the white-space characters listed in `Text.IsSpace` (not every Unicode space separator), and `toLowerCase` maps only ASCII letters.
- OrderDetails.StatusClass: built on `Text.ToLower`, so only the ASCII letters of the status are lower-cased.
- Router navigation, the route-parameter and query-parameter subscriptions of the product list, `loadCategories`, `FormBuilder` and `valueChanges` wiring, and `console` output are left out. The order-details route id is a parameter. `window.location.href` is the `Redirect(url)` outcome.
- The payment-state total, the current user, the order service and the session service are inputs to `PlaceOrder`. The payment API's `createPayment` is not part of this model: `payments.service.ts` defines no such method, so its reply is a parameter too.
- `environment.apiURL` is an opaque string parameter.
- Commented-out code in `product-service.ts` and in the summary step is not live behaviour.
- Templates, styles, presentation-only components and the route table are left out. `product.models.ts` only supplies the record fields.

## Findings

| source | as written | input that shows it | evidently intended | confidence | as-written member | corrected member |
|---|---|---|---|---|---|---|
| src/app/core/services/cart-service.ts:90-93 | With no cart held, `addToCart` calls `createCart()` and then calls itself at once. `createCart` sets the cart only in a later callback, so every nested call again sees no cart: it sends another create-cart request and recurses without end | A signed-in user with no cart held calls `addToCart` | Create the cart, wait for the reply, then post the item once to the new cart | not executed | CartStore.RetryNeverReachesPost | CartStore.CartService.AddToCart |
