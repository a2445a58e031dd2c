# Storefront model

A Dafny model of the client-side logic of a small React storefront. The
storefront browses a product catalogue, keeps a shopping cart in browser
storage, and runs a three-step checkout that ends on a confirmation page.
The model covers six parts, one Dafny module each:

- **Cart store** (`cart_store.dfy`, from `src/App.jsx`). `class Store` holds the
  cart and its write-through copy under the storage key `'cart'`. Its
  `addToCart`, `removeFromCart` and `updateQuantity` apply value-level
  functions (`Added`, `Removed`, `Updated`) and write the result back.
  `Total` and `ItemCount` are the two `reduce` folds.
- **Checkout** (`checkout.dfy`, from `src/pages/Checkout.jsx`). `class
  CheckoutPage` holds `formData`, `formErrors`, `step` and `processing`.
  The validation is declared once, field by field (`FieldError`, `Errors`).
  The method `ValidateForm` makes its checks one assignment at a time, in
  the page's order, and is proved to build exactly that map.
- **Confirmation** (`checkout_success.dfy`, from `src/pages/CheckoutSuccess.jsx`).
  Entering the page either redirects home or clears the cart and its stored
  copy. With no order the page renders nothing.
- **Catalogue listing** (`product_listing.dfy`, from `src/pages/Products.jsx`).
  `class ProductListingPage` holds the page state. The filter-and-sort
  effect is specified by the pure `Project`: an inclusive price filter, then a
  stable sort by the chosen key.
- **Product detail** (`product_detail.dfy`, from `src/pages/ProductDetail.jsx`).
  `class ProductDetailPage` holds the load effect, the related-product
  selection, the positive-quantity guard and add-to-cart.
- **Catalogue client** (`products_api.dfy`, from `src/api/products.js`). It
  covers endpoint selection, the fall-back to empty results on failure, and
  the case-insensitive search.

Three shared modules support them:

- `seqs.dfy`: `filter`, `slice`, `map`, and a stable insertion sort standing
  for `Array.prototype.sort`, with its sortedness, permutation and stability
  lemmas.
- `text.dfy`: `trim`, the `\S` class, the e-mail regular expression, ASCII
  `toLowerCase`, `includes`, and integer-to-decimal text.
- `catalog.dfy` and `wrappers.dfy`: the product record and `Option`.

Conventions in the model:

- Prices are exact `real`s, so sums and the 10% tax are exact.
- Quantities are unbounded integers.
- Storage is a `map` from keys to carts. Serialising and parsing are the
  identity.
- An HTTP GET is a function parameter from URL to response.
  `String.prototype.localeCompare` is a comparator parameter.
- Random and parsed values are method parameters: the order number, and
  `parseInt`/`parseFloat` results.

## Model

| member | source | states |
|---|---|---|
| CartStore.Store.constructor | src/App.jsx:18-21 | the cart starts as the stored snapshot when the `'cart'` key is present, and empty otherwise; the snapshot invariant holds |
| CartStore.Store.AddToCart | src/App.jsx:24-43 | the cart becomes `Added(old cart, product, quantity)`; storage gets the new cart under `'cart'` and nothing else; the snapshot invariant and id-uniqueness are kept |
| CartStore.Store.RemoveFromCart | src/App.jsx:46-52 | the cart becomes `Removed(old cart, id)`; the new cart is written to storage; the invariants are kept |
| CartStore.Store.UpdateQuantity | src/App.jsx:55-68 | the cart becomes `Updated(old cart, id, quantity)`, a removal when quantity <= 0; the new cart is written to storage; the invariants are kept |
| CartStore.FindLine | src/App.jsx:26 | a line is found iff some line has the id, and the found line is in the cart with that id |
| CartStore.Added | src/App.jsx:25-37 | the `setCart` updater of `addToCart`: the length grows by one iff the id was absent, and every old line keeps its position and id; characterised by AddedAbsent and AddedPresent |
| CartStore.Updated | src/App.jsx:55-67 | a quantity <= 0 leaves no line with the id; a positive one keeps the length and every line's position and id; characterised by UpdatedPositive |
| CartStore.Total | src/App.jsx:71 | definition: the `reduce` of price*quantity; characterised by SumsNonNegative, AddedAbsent, AddedPresent and BumpTotal |
| CartStore.ItemCount | src/App.jsx:72 | definition: the `reduce` of quantities; characterised by SumsNonNegative, ItemCountAtLeastLines and BumpItemCount |
| CartStore.SumsNonNegative | src/App.jsx:71-72 | with no negative price or quantity, neither the total nor the unit count is negative |
| CartStore.ItemCountAtLeastLines | src/App.jsx:72 | when every line holds at least one unit, the unit count is at least the number of lines |
| CartStore.Store.CartTotal | src/App.jsx:71 | `cartTotal` of the current cart: 0 for an empty cart, non-negative for non-negative lines |
| CartStore.Store.CartItemCount | src/App.jsx:72 | `cartItemCount` of the current cart: 0 for an empty cart, at least the number of lines when every quantity is positive |
| CartStore.Store.SetCart | src/App.jsx:18 | the raw `setCart` exposed in the context: replaces the cart and writes nothing to storage |
| CartStore.Removed | src/App.jsx:48 | no line with the id remains, every other line remains, and nothing new appears |
| CartStore.AddedAbsent | src/App.jsx:35-37 | with the id absent, exactly one line `{product, quantity}` is appended after the unchanged lines; the total rises by price*quantity and the unit count by quantity |
| CartStore.AddedPresent | src/App.jsx:29-34 | with the id present at k, line k's quantity rises by `quantity`, keeping its position and its stored product (the price is not refreshed); every other line and the length are unchanged; the sums rise by the stored price*quantity and by quantity |
| CartStore.BumpTotal | src/App.jsx:71 | raising the one matching line's quantity by delta raises the total by its price*delta |
| CartStore.BumpItemCount | src/App.jsx:72 | raising the one matching line's quantity by delta raises the unit count by delta |
| CartStore.RemovedKeepsOrder | src/App.jsx:48 | the remaining lines keep their order (a subsequence of the old cart) |
| CartStore.RemovedAbsent | src/App.jsx:48 | removing an absent id leaves the cart unchanged |
| CartStore.UpdatedPositive | src/App.jsx:61-64 | with quantity > 0 the matching line's quantity is replaced, not added to; other lines are unchanged; an absent id leaves the cart unchanged |
| CartStore.AddedKeepsUnique | src/App.jsx:26-37 | adding keeps product ids distinct |
| CartStore.RemovedKeepsUnique | src/App.jsx:48 | removing keeps product ids distinct |
| CartStore.UpdatedKeepsUnique | src/App.jsx:55-67 | updating keeps product ids distinct |
| CartStore.ApplyAllKeepsUnique | src/App.jsx:24-68 | after any sequence of add/remove/update calls on a cart with distinct ids, no two lines share an id |
| CartStore.Reload | src/App.jsx:18-21 | rebuilding the store from storage after any mutation gives back the same cart |
| Checkout.Errors | src/pages/Checkout.jsx:65-95 | definition: the error map of a step, one entry per failing field; characterised by ErrorsEmptyIff, ShippingValidIff and PaymentValidIff, and ValidateForm is proved to build it |
| Checkout.RequireNonEmpty | src/pages/Checkout.jsx:86-89 | definition: a card field gets its required message iff it is the empty string (no trimming); characterised by RequireNonEmptyStep and PaymentValidIff |
| Checkout.RequireNonBlank | src/pages/Checkout.jsx:70-71 | `!value.trim()` holds exactly for an all-white-space value, so the field gets its required message exactly then |
| Checkout.CheckEmail | src/pages/Checkout.jsx:72-76 | the e-mail gets "required" when blank after trimming, otherwise "invalid" when the pattern fails, otherwise nothing |
| Checkout.ShippingChecksBuildErrors | src/pages/Checkout.jsx:69-81 | the seven sequential step-1 checks build exactly the declared step-1 error map |
| Checkout.CardChecksBuildErrors | src/pages/Checkout.jsx:84-91 | the step-2 checks build exactly the declared step-2 error map, for a card payment and for any other method |
| Checkout.ShippingValidIff | src/pages/Checkout.jsx:69-81 | step 1 passes iff each shipping field has a non-white-space character and the e-mail matches `\S+@\S+\.\S+` |
| Checkout.EmailError | src/pages/Checkout.jsx:72-76 | the e-mail field gets exactly one error: "Email is required" when blank, otherwise "Email is invalid" when the pattern fails |
| Checkout.PaymentValidIff | src/pages/Checkout.jsx:84-91 | step 2 passes iff the method is not `credit-card`, or all four card fields are non-empty (no trimming, no format check) |
| Checkout.FilledCardPasses | src/pages/Checkout.jsx:84-91 | four non-empty card fields pass step 2 whatever the method |
| Checkout.OtherCardChecksEmpty | src/pages/Checkout.jsx:84-85 | paying other than by card, step 2 records no error |
| Checkout.OtherStepsAlwaysValid | src/pages/Checkout.jsx:65-95 | the review step (any step other than 1 and 2) records no error |
| Checkout.ErrorsEmptyIff | src/pages/Checkout.jsx:93-94 | the error map is empty iff no field fails its check |
| Checkout.TotalWithTax | src/pages/Checkout.jsx:25-26 | the order total is the subtotal plus 10% tax, and is at least the subtotal when the subtotal is non-negative |
| Checkout.CheckoutPage.constructor | src/pages/Checkout.jsx:9-22 | the initial form (empty shipping fields, country "USA", method "credit-card"), no errors, not processing, step 1 |
| Checkout.CheckoutPage.View | src/pages/Checkout.jsx:29-47 | the empty-cart view is shown iff the cart is empty, so no step is reachable then; with items, step 3 shows the review |
| Checkout.CheckoutPage.HandleChange | src/pages/Checkout.jsx:49-63 | sets only that field; clears only that field's error, and only when it was set; nothing else changes |
| Checkout.CheckoutPage.ValidateForm | src/pages/Checkout.jsx:65-95 | replaces the whole error map with the current step's errors and returns true iff it is empty |
| Checkout.CheckoutPage.HandleNextStep | src/pages/Checkout.jsx:97-102 | the step rises by exactly one iff validation passes, and is otherwise unchanged |
| Checkout.CheckoutPage.HandlePrevStep | src/pages/Checkout.jsx:104-107 | the step falls by one unconditionally; the form is untouched |
| Checkout.CheckoutPage.EditShipping | src/pages/Checkout.jsx:507 | the review step's Edit jumps to step 1 without touching the form |
| Checkout.CheckoutPage.EditPayment | src/pages/Checkout.jsx:526 | the review step's Edit jumps to step 2 without touching the form |
| Checkout.CheckoutPage.HandleSubmit | src/pages/Checkout.jsx:109-116 | validates the current step, sets `processing` when it passes, and then returns the pending order the timer callback closes over: the form fields and the taxed total at submit time; `processing` itself is not tested |
| Checkout.CheckoutPage.PressPlaceOrder | src/pages/Checkout.jsx:579-582 | the button is disabled while processing, so a press then changes nothing and starts no timer; otherwise it is `handleSubmit`: the step's errors, `processing` set iff they are empty, and a pending order holding the submit-time form and taxed total |
| Checkout.CheckoutPage.CompleteSubmission | src/pages/Checkout.jsx:116-131 | the timer callback: clears `processing`; the order has the given number, the captured total, name = captured first + " " + last, and the other captured shipping fields |
| Checkout.EditDuringDelay | src/pages/Checkout.jsx:109-131 | editing the shipping form while the delay runs does not reach the order: it keeps the submit-time name and total |
| CheckoutSuccess.EnterConfirmation | src/pages/CheckoutSuccess.jsx:15-23 | with no order it redirects to "/" and leaves cart and storage alone; with one it removes the `'cart'` key and empties the cart, keeping the snapshot invariant |
| CheckoutSuccess.EnterTwice | src/pages/CheckoutSuccess.jsx:20-21 | clearing twice leaves the same state as clearing once |
| CheckoutSuccess.ConfirmThenReload | src/pages/CheckoutSuccess.jsx:20-21 | after the confirmation, a reload from storage starts with an empty cart |
| CheckoutSuccess.Render | src/pages/CheckoutSuccess.jsx:25-85 | renders nothing iff there is no order; the payment method always reads "Credit Card" |
| CheckoutSuccess.SampleShippingPasses | src/pages/Checkout.jsx:69-81 | a concrete complete set of shipping details passes step 1 |
| CheckoutSuccess.HundredOrderScenario | src/pages/Checkout.jsx:109-131 | end to end: a product priced 100 is added, the three steps pass, the order placed has total 110, and the confirmation leaves the cart empty |
| CheckoutSuccess.PlaceOrder | src/pages/Checkout.jsx:109-131 | on the review step, submitting and waiting yields an order whose total is the taxed cart total |
| ProductListing.SortKeyOf | src/pages/Products.jsx:69-85 | sorting falls back to ids exactly for options other than the four named ones |
| ProductListing.Ordering | src/pages/Products.jsx:70-84 | definition: the five comparators as "a sorts no later than b" (`cmp(a, b) <= 0`); characterised by OrderingIsPreorder and the five ordering lemmas below |
| ProductListing.InRange | src/pages/Products.jsx:64-66 | definition: min <= price <= max, both ends inclusive; characterised by ProjectInRange and EmptyWhenMinAboveMax |
| ProductListing.InRangeOnly | src/pages/Products.jsx:63-66 | definition: the price `filter` on the fetched list; characterised by ProjectPermutesInRange |
| ProductListing.OrderingIsPreorder | src/pages/Products.jsx:70-84 | each comparator gives a total preorder; the name orders need the comparator laws |
| ProductListing.ProjectPermutesInRange | src/pages/Products.jsx:61-66 | the shown list holds each in-range product as often as it was fetched and no other product: a permutation of the in-range subset |
| ProductListing.ProjectInRange | src/pages/Products.jsx:64-66 | every shown product has min <= price <= max |
| ProductListing.EmptyWhenMinAboveMax | src/pages/Products.jsx:64-66 | a range with min > max shows nothing |
| ProductListing.ProjectSorted | src/pages/Products.jsx:69-85 | the shown list is sorted by the chosen order |
| ProductListing.PriceLowHighAscends | src/pages/Products.jsx:70-72 | "price-low-high" gives non-decreasing prices |
| ProductListing.PriceHighLowDescends | src/pages/Products.jsx:73-75 | "price-high-low" gives non-increasing prices |
| ProductListing.DefaultAscendsById | src/pages/Products.jsx:82-84 | "default" and any unrecognised option give ascending ids |
| ProductListing.NameAZAscends | src/pages/Products.jsx:76-78 | "name-a-z" orders titles by the comparator |
| ProductListing.NameZADescends | src/pages/Products.jsx:79-81 | "name-z-a" orders titles by the comparator reversed |
| ProductListing.ProjectStable | src/pages/Products.jsx:69-85 | products the order ranks level keep their fetched order |
| ProductListing.Project | src/pages/Products.jsx:61 | the projection works on a copy and is no longer than the input |
| ProductListing.ProductListingPage.constructor | src/pages/Products.jsx:9-17 | the initial page state: empty lists, loading, no error, no category, "default", range 0..1000, panel closed |
| ProductListing.ProductListingPage.ReadQueryParams | src/pages/Products.jsx:20-26 | a present, non-empty `category` parameter selects that category; otherwise the selection is unchanged |
| ProductListing.ProductListingPage.FetchData | src/pages/Products.jsx:29-57 | fetches the selected category's products, or all of them when none is selected; shows them unfiltered; fetches the categories; clears loading and error |
| ProductListing.ProductListingPage.ApplyFilters | src/pages/Products.jsx:60-88 | the shown list becomes `Project` of the fetched list, range and option; the fetched list is untouched |
| ProductListing.ProductListingPage.HandleCategoryChange | src/pages/Products.jsx:91-94 | sets the category and closes the filter panel |
| ProductListing.ProductListingPage.HandlePriceChange | src/pages/Products.jsx:97-103 | updates only the named bound; min <= max is not enforced |
| ProductListing.ProductListingPage.ResetFilters | src/pages/Products.jsx:106-110 | category "", option "default", range 0..1000 |
| ProductListing.ProductListingPage.ToggleFilter | src/pages/Products.jsx:113-115 | flips the panel |
| ProductListing.ProductListingPage.SetSortOption | src/pages/Products.jsx:136 | the selector sets the option |
| ProductListing.ProductListingPage.View | src/pages/Products.jsx:310-330 | the grid shows iff loading is done, there is no error and the list is non-empty; it shows `filteredProducts`, which is the projection once `ApplyFilters` has run and the unfiltered fetch before |
| ProductListing.ResetShowsDefaultRange | src/pages/Products.jsx:106-110 | after a reset and the projection, every fetched product priced 0..1000 is shown |
| ProductDetail.Related | src/pages/ProductDetail.jsx:37-39 | at most four related products |
| Seqs.Take | src/pages/ProductDetail.jsx:39 | `slice(0, n)`: the first min(n, length) elements; characterised by RelatedAreFirstQualifying |
| ProductDetail.RelatedQualify | src/pages/ProductDetail.jsx:38 | every related product has the shown product's category and another id, and comes from the catalogue |
| ProductDetail.RelatedAreFirstQualifying | src/pages/ProductDetail.jsx:37-39 | the related products are the first min(4, n) qualifying ones, in catalogue order |
| ProductDetail.AddedIsInCart | src/pages/ProductDetail.jsx:18 | after an add, whatever the quantity, the product is in the cart |
| ProductDetail.ProductDetailPage.constructor | src/pages/ProductDetail.jsx:11-15 | no product, no related products, quantity 1, loading, no error |
| ProductDetail.ProductDetailPage.InCart | src/pages/ProductDetail.jsx:18 | `isInCart`'s `some` agrees with the `find` that `addToCart` uses: true iff a product is shown and `find` locates its line |
| ProductDetail.ProductDetailPage.FetchProduct | src/pages/ProductDetail.jsx:20-53 | a missing product sets "Product not found" and computes no related list; a found one is shown with its related products from the full catalogue |
| ProductDetail.ProductDetailPage.HandleQuantityChange | src/pages/ProductDetail.jsx:55-60 | the quantity changes only to a positive parsed value, so it stays >= 1 |
| ProductDetail.ProductDetailPage.HandleAddToCart | src/pages/ProductDetail.jsx:62-66 | with a product shown, it is added with the chosen quantity and is then in the cart; with none, cart and storage are unchanged |
| ProductDetail.ProductDetailPage.View | src/pages/ProductDetail.jsx:68-89 | the details show iff loading is done, there is no error and a product is loaded; otherwise the error, or "Product not found" |
| ProductsApi.ProductsEndpoint | src/api/products.js:9 | the path is "/products" iff `limit` is falsy (absent or 0); otherwise it is "/products?limit=" followed by the number |
| ProductsApi.ProductsEndpointInjective | src/api/products.js:9 | different set limits request different paths |
| ProductsApi.GetProducts | src/api/products.js:7-16 | a failed request gives [] |
| ProductsApi.GetProductById | src/api/products.js:19-27 | a failed request gives no product |
| ProductsApi.GetProductsByCategory | src/api/products.js:30-38 | a failed request gives [] |
| ProductsApi.GetCategories | src/api/products.js:41-49 | a failed request gives [] |
| ProductsApi.SearchProducts | src/api/products.js:52-68 | every result matches the lower-cased query; a failed request gives [] |
| ProductsApi.MatchesQuery | src/api/products.js:59-63 | definition: the lower-cased query is included in the lower-cased title, description or category; characterised by SearchIsOrderedSelection and SearchEmptyQueryKeepsAll |
| ProductsApi.SearchIsOrderedSelection | src/api/products.js:58-62 | a fetched product is kept iff its lower-cased title, description or category includes the lower-cased query; the result keeps catalogue order and every copy of a matching product |
| ProductsApi.SearchIgnoresCase | src/api/products.js:58 | queries that differ only in letter case give the same result |
| ProductsApi.SearchEmptyQueryKeepsAll | src/api/products.js:58-62 | the empty query keeps every fetched product |
| Text.Trim | src/pages/Checkout.jsx:70 | definition: `String.prototype.trim` as leading then trailing white-space removal; characterised by TrimEmptyIffBlank |
| Text.TrimEmptyIffBlank | src/pages/Checkout.jsx:70 | `trim` gives the empty string iff the value is all white space |
| Text.MatchesEmailPattern | src/pages/Checkout.jsx:74 | definition: `/\S+@\S+\.\S+/.test`, an unanchored match somewhere in the value; characterised by EmailPatternIff |
| Text.EmailPatternIff | src/pages/Checkout.jsx:74 | the unanchored pattern matches iff some `@` has a non-space before it, and a later `.` with non-space characters between and one after |
| Text.ToLower | src/api/products.js:58-62 | ASCII `toLowerCase`: same length, each character lower-cased on its own; characterised by SameUpToCaseLower |
| Text.Includes | src/api/products.js:59-62 | definition: `includes`, some occurrence of the needle in the text; characterised by IncludesEmpty |
| Text.SameUpToCaseLower | src/api/products.js:58 | strings that differ only in letter case lower-case to the same string |
| Text.IntToString | src/api/products.js:9 | definition: an integer in a template literal, a minus sign for negatives and then the decimal digits; never empty; characterised by IntToStringInjective |
| Text.IntToStringInjective | src/api/products.js:9 | different integers have different decimal texts |
| Seqs.Sort | src/pages/Products.jsx:68-85 | `Array.prototype.sort` as a stable insertion sort: the result is a permutation of the input (same length, same multiset); characterised by SortSorted and SortStable |
| Seqs.Filter | src/pages/Products.jsx:63-66 | `Array.prototype.filter`: no longer than the input, every element kept satisfies the test and comes from the input, every passing element is kept, and the multiset shrinks; characterised by FilterMultiset |
| Seqs.SortSorted | src/pages/Products.jsx:71-84 | sorting with a total preorder gives a sorted list; with the permutation in `Sort`'s contract |
| Seqs.SortStable | src/pages/Products.jsx:71-84 | the sort is stable: each tie class keeps its input order |
| Seqs.FilterMultiset | src/pages/Products.jsx:64-66 | `filter` keeps every copy of a kept value and no copy of another |

## Left out

- Network I/O. The Axios calls are a `get` parameter. A rejected request
  and a decoded body are the only outcomes; stale responses and races
  between effects are not modelled.
- Effect scheduling. `useEffect` ordering is not modelled. The page
  methods are called in the order the effects run: fetch, then projection
  on the listing page. The two-second delay is not modelled.
  `HandleSubmit` returns what the timer callback closes over, and
  `CompleteSubmission` is that callback, called explicitly.
- Navigation and window calls. `navigate` is the redirect result or left
  out. `window.scrollTo`, `window.print` and date formatting are left out.
- `Math.random`. The order number is a parameter in the source's range
  0..999999.
- Floating point. `toFixed`, IEEE sums, `parseFloat`/`parseInt` and NaN are
  not modelled. Prices are exact reals.
- ProductListing.ProductListingPage.HandlePriceChange: takes the parsed
  bound as a `real`, so a NaN bound from `parseFloat` is not modelled.
- ProductDetail.ProductDetailPage.HandleQuantityChange: takes `parseInt`'s
  result as `Option<int>`, with `None` for NaN.
- ProductDetail.ProductDetailPage.FetchProduct: takes the route id as an
  integer already parsed. A non-numeric id is not modelled.
- ProductListing.NameAZAscends: `localeCompare` is a parameter, so locale
  collation rules are not modelled. This lemma and
  ProductListing.NameZADescends assume only that the comparator is total
  and transitive.
- Text.ToLower: ASCII-only. Unicode case mapping is not modelled.
- Malformed JSON in storage. Parse errors are not modelled, since parsing
  is the identity. The source does not catch them. A stored empty string
  is treated the same as an absent key.
- Error branches unreachable for well-formed responses. The page `catch`
  branches in `src/pages/Products.jsx:49-53` and
  `src/pages/ProductDetail.jsx:43-47` are not modelled. The catalogue client
  turns every failed request into an empty result. With a well-formed body
  nothing in the pages then throws.
- Malformed response bodies. The client returns `response.data` unchecked
  (`src/api/products.js:11`). A `Response` here holds a typed value, so a
  list request whose body is not an array is not modelled. On the detail
  page such a body makes `allProducts.filter` throw. The `catch` then shows
  "Failed to load product. Please try again later.".
- Field names. The checkout form's inputs are a fixed enumeration of their
  `name` attributes. An input with any other name is not modelled.
- Checkout.CheckoutPage.HandleSubmit: modelled on any step, as in the
  source. The "Place Order" button that calls it exists only on step 3,
  where validation always passes.
- Unused fields. The product rating is carried but nothing reads it.
- JSX markup and presentational components are left out. Cart page
  buttons, the product card and the navigation badge are thin callers of
  the cart store.
- The model follows the code where it is more permissive than a reader
  might expect:
  - `addToCart` accepts any integer quantity, including zero and negative
    ones.
  - The price range does not keep min <= max.
  - The e-mail check is the unanchored `\S+@\S+\.\S+`, not a `local@domain`
    shape.
  - Card fields are checked for emptiness only, not for blankness.
  - A malformed stored cart is not recovered.
  - A second submission is prevented only by the disabled button.
