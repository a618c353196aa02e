# Pallet Now shopping app — a verified model of its core logic

This project models in Dafny the logic behind the screens of a React Native
grocery app:

- the Redux **cart slice** (an ordered list of cart lines keyed by product
  id, changed by `addToCart`, `updateQuantity`, `removeFromCart`,
  `clearCart` and `checkout`);
- the Redux **products slice** (the status flags and data of the catalog
  fetch);
- the **product list** (the request parameters, the normalisation of each
  fetched record, the page merge and the load-more guard);
- the **cart screen** (the totals, the line image, the checkout guard and
  the − / + buttons);
- the **product detail screen** (the quantity stepper, the add-to-cart gate
  and payload, the fallback image held for the screen's lifetime, the
  shown price and the discount tag);
- the **product card** (its discount tag, its picture and the placeholder
  it passes on to the detail screen);
- the **barcode scanner** debounce and the **barcode component**'s GTIN
  acceptance.

The JavaScript semantics the logic depends on are modelled explicitly in
module `Js`: a loose property is `Undefined`, `Null` or `Defined(v)`; `??`
is `Coalesce`; strings are truthy when present and non-empty; a number is
`Finite(real)`, an infinity or `NaN`, and `-`, `*`, `/` and `Math.round`
follow IEEE-754 on those cases; `String(n)` is the decimal digit string;
`length` counts UTF-16 code units.

Where a screen keeps state between events (a `useState`, a `useRef`, a
slice), the model is a class whose methods change its fields, each proved to
leave the state equal to a reference function of the old state; the
properties are then proved about those functions.

What the code does, as the model states it (each point is proved by the
member named):

- The discount derived for a record without `discount_percent`
  (`src/component/ProductList.tsx` lines 53-61) is not the percentage off
  the original price. `??` binds more loosely than `-`, so the numerator is
  `original_price ?? (100 - discounted_price)` and the result is 100
  whenever the original price is present and nonzero
  (`ProductList.DiscountWithOriginalPrice`; prices 200 and 150 give 100,
  not 25: `ProductList.AsWrittenIgnoresDiscountedPrice`). The model keeps
  the expression as written (`DiscountAsWritten`).
- A normalised record's discount can be NaN: when both prices are missing
  (`ProductList.NormalizeNoPricing`). Only the product card turns NaN into
  50 (`ProductCard.NormalizedTagIsFinite`).
- `addToCart` stores a new line whatever its quantity, 0 or negative
  included (`CartSlice.AddedNewNonPositive`); only the detail screen's
  `quantity > 0` gate keeps such lines out
  (`ProductDetails.GatedAddKeepsCartPositive`).
- The product card draws a fresh random placeholder on every render
  (`ProductCard.RenderNotMemoised`); the detail screen opened from it keeps
  the one drawn in the render that was tapped
  (`ProductCard.DetailsKeepCardPicture`).
- The list's merge replaces the list for page 1 and appends for every other
  page (`ProductList.AfterPagesConcatenates`,
  `ProductList.ProductListScreen.OnProductsData`).
- Merging into an existing cart line drops the payload's image and
  fallback, so a line's picture never changes after it is created
  (`CartScreen.MergeKeepsPictures`, `CartScreen.UpdateKeepsPictures`).
- The scanner screen navigates to the detail screen with only the scanned
  code; no code resolves a barcode to a product.

## Model

| member | source | states |
|---|---|---|
| CartSlice.Find | src/redux/slices/cartSlice.ts:28-30 | the index found holds the id and is the first such line; none is found exactly when no line has the id |
| CartSlice.AddedToExisting | src/redux/slices/cartSlice.ts:31-32 | adding an id already present raises that line's quantity by the payload's and leaves every other line and the order as they were |
| CartSlice.AddedNew | src/redux/slices/cartSlice.ts:33-34 | adding a new id appends the payload, unchanged, at the end |
| CartSlice.AddedKeepsUnique | src/redux/slices/cartSlice.ts:27-35 | adding keeps product ids distinct across lines |
| CartSlice.AddedKeepsPositive | src/redux/slices/cartSlice.ts:27-35 | adding a payload of positive quantity keeps every line at one unit or more |
| CartSlice.AddedNewNonPositive | src/redux/slices/cartSlice.ts:27-35 | nothing stops a payload of quantity 0 or less: a new id lands as a line with that quantity |
| CartSlice.WithoutMembers | src/redux/slices/cartSlice.ts:51 | the filter keeps exactly the lines whose id differs from the removed one |
| CartSlice.WithoutAppend | src/redux/slices/cartSlice.ts:51 | the filter distributes over concatenation |
| CartSlice.WithoutAbsent | src/redux/slices/cartSlice.ts:51 | removing an id that is not in the cart leaves it unchanged |
| CartSlice.WithoutAt | src/redux/slices/cartSlice.ts:51 | with distinct ids, removing a line's id cuts out exactly that line, keeping the order of the rest |
| CartSlice.WithoutKeepsUnique | src/redux/slices/cartSlice.ts:44 | removal keeps ids distinct |
| CartSlice.WithoutKeepsPositive | src/redux/slices/cartSlice.ts:44 | removal keeps every line positive |
| CartSlice.WithQuantityAt | src/redux/slices/cartSlice.ts:46 | setting the quantity of the first line with the id changes that field of that line only |
| CartSlice.QuantityUpdatedAt | src/redux/slices/cartSlice.ts:41-48 | `updateQuantity` on a present id removes its line when the quantity is 0 or less, else sets the quantity of that line alone |
| CartSlice.QuantityUpdatedKeepsUnique | src/redux/slices/cartSlice.ts:37-49 | `updateQuantity` keeps ids distinct |
| CartSlice.QuantityUpdatedKeepsPositive | src/redux/slices/cartSlice.ts:37-49 | `updateQuantity` never leaves a line at 0 or below: such a request removes the line |
| CartSlice.CartStore.constructor | src/redux/slices/cartSlice.ts:21 | the cart starts empty |
| CartSlice.CartStore.AddToCart | src/redux/slices/cartSlice.ts:27-36 | the new cart is `Added(old cart, payload)` and ids stay distinct |
| CartSlice.CartStore.UpdateQuantity | src/redux/slices/cartSlice.ts:37-49 | the new cart is `QuantityUpdated(old cart, id, q)`; an unknown id changes nothing |
| CartSlice.CartStore.RemoveFromCart | src/redux/slices/cartSlice.ts:50-52 | the new cart is the old one without the id's lines |
| CartSlice.CartStore.ClearCart | src/redux/slices/cartSlice.ts:53-55 | the cart becomes empty |
| CartSlice.CartStore.Checkout | src/redux/slices/cartSlice.ts:56-58 | the cart becomes empty |
| ProductsSlice.ProductsState.constructor | src/redux/slices/productsSlice.ts:30-36 | no data, no error, every flag clear |
| ProductsSlice.ProductsState.Pending | src/redux/slices/productsSlice.ts:62-66 | loading, no error; the previous data and success flag stay |
| ProductsSlice.ProductsState.Fulfilled | src/redux/slices/productsSlice.ts:67-73 | the payload becomes the data; success set; loading and error cleared |
| ProductsSlice.ProductsState.Rejected | src/redux/slices/productsSlice.ts:74-78 | error set with the action's message; loading cleared; the previous data and success flag stay |
| Js.Round | src/component/ProductList.tsx:55-61 | `Math.round` gives the integer within one half of a finite value and passes NaN and the infinities through |
| Js.DecimalString | src/component/ProductList.tsx:36 | `String(page)` is a non-empty run of decimal digits with no leading zero |
| Js.DecimalStringRoundTrip | src/component/ProductList.tsx:36 | reading the page string back gives the page number |
| Js.Utf16LengthBmp | src/component/BarcodeGenerator/index.tsx:11 | on text inside the Basic Multilingual Plane `length` is the character count |
| ProductList.DiscountWithOriginalPrice | src/component/ProductList.tsx:53-61 | with `original_price` present the derived discount is 100 (NaN when that price is 0), whatever the discounted price |
| ProductList.DiscountWithoutOriginalPrice | src/component/ProductList.tsx:53-61 | without `original_price` it is `100 - discounted_price`, 100 for a null discounted price, NaN when both are missing |
| ProductList.DiscountAsWrittenFiniteOrNaN | src/component/ProductList.tsx:53-61 | the derived discount is never an infinity |
| ProductList.AsWrittenIgnoresDiscountedPrice | src/component/ProductList.tsx:55-61 | prices 200 and 150 give 100, not the 25 percent off they denote |
| ProductList.NormalizeFields | src/component/ProductList.tsx:45-54 | prices fall back to 100 and 80 exactly when null or missing (0 is kept); a present discount is kept; every other property is copied |
| ProductList.NormalizeNoPricing | src/component/ProductList.tsx:51-61 | a record with no pricing at all becomes 100 / 80 with a NaN discount |
| ProductList.NormalizedDiscountNotInfinite | src/component/ProductList.tsx:53-61 | every normalised record's discount is finite or NaN |
| ProductList.NormalizeAll | src/component/ProductList.tsx:45 | one normalised product per record, in order |
| ProductList.AfterPagesConcatenates | src/component/ProductList.tsx:63-65 | the merge applied once per response for pages 1..n, in order, gives every record of every page, in order, whatever the list held before (page 1 replaces it, later pages append) |
| ProductList.ProductListScreen.constructor | src/component/ProductList.tsx:29-31 | not loading more, page 1, empty list |
| ProductList.ProductListScreen.Request | src/component/ProductList.tsx:33-41 | the page sent is a digit string denoting the current page; page size "20"; store "RLC_40" |
| ProductList.ProductListScreen.HandleLoadMore | src/component/ProductList.tsx:81-87 | accepted exactly when neither flag (as last written) is set; then the page moves on by one and `loadingMore` is set; otherwise nothing changes |
| ProductList.ProductListScreen.LoadingMoreTimer | src/component/ProductList.tsx:85 | clears `loadingMore` and nothing else |
| ProductList.ProductListScreen.OnProductsData | src/component/ProductList.tsx:43-67 | a response without a record array leaves the list; otherwise the normalised records are merged for the current page |
| ProductList.DoubleLoadMore | src/component/ProductList.tsx:81-86 | a second end-of-list event handled after the first one's update is rendered, and before the timer fires, is refused, so the page advances at most once |
| CartScreen.ReduceShift | src/screens/Cart.tsx:47-51 | a fold's start value is added once to its result |
| CartScreen.ReduceAppend | src/screens/Cart.tsx:47-51 | the totals of two carts put end to end add up |
| CartScreen.ReduceUpdate | src/screens/Cart.tsx:47-51 | replacing one line changes a total by the difference of that line's shares |
| CartScreen.ReduceDrop | src/screens/Cart.tsx:47-51 | cutting out a line takes away its share of a total |
| CartScreen.TotalsAfterAdd | src/screens/Cart.tsx:47-51 | after `addToCart` the item count grows by the payload's quantity and the price by that quantity at the unit price of the line it lands in |
| CartScreen.TotalsAfterAddExisting | src/screens/Cart.tsx:47-51 | merging into a line charges the added units at that line's price, not the payload's |
| CartScreen.TotalsAfterAddNew | src/screens/Cart.tsx:47-51 | a new line adds its quantity and its price times quantity |
| CartScreen.TotalsAfterUpdate | src/screens/Cart.tsx:47-55 | `updateQuantity` to 0 or less takes the line's whole share out of both totals; a positive one changes them by the quantity difference |
| CartScreen.MinusAtOneRemovesLine | src/screens/Cart.tsx:101-102 | − on a line at 1 removes the line (it never shows 0) and lowers the count by one |
| CartScreen.PlusMinusMoveByOne | src/screens/Cart.tsx:101-110 | − and + each move the item count by exactly one |
| CartScreen.MergeKeepsPictures | src/screens/Cart.tsx:86-91 | merging an `addToCart` payload into an existing line leaves the picture of every line as it was: the front URI, else the fallback captured when the line was first added, else the id-length placeholder |
| CartScreen.UpdateKeepsPictures | src/screens/Cart.tsx:86-91 | a positive `updateQuantity` (+, or − above 1) leaves the picture of every line as it was |
| CartScreen.LineImageDeterministic | src/screens/Cart.tsx:42-45 | lines without a picture whose ids have equal length show the same placeholder |
| CartScreen.HandleCheckout | src/screens/Cart.tsx:61-77 | an empty cart only alerts; otherwise the order is placed for the cart's total price, with no state changed |
| CartScreen.CheckoutTimer | src/screens/Cart.tsx:78-81 | the cart is cleared and both totals become 0 |
| CartScreen.HandleQuantityChange | src/screens/Cart.tsx:53-55 | the cart becomes `QuantityUpdated(old cart, id, q)` |
| CartScreen.HandleRemoveItem | src/screens/Cart.tsx:57-59 | the cart loses the id's line and no line with that id is left |
| ProductDetails.DiscountLabelOfFetched | src/screens/productDetails.tsx:79-82 | the tag shows `discount_percentage` or 50, and no change to `discount_percent` alters it |
| ProductDetails.ShownPriceIsLineTotal | src/screens/productDetails.tsx:107-117 | with a positive quantity the price shown equals the share the added line contributes to the cart's total; else it is the unit price |
| ProductDetails.SnapshotContents | src/screens/productDetails.tsx:48-59 | the payload carries the id, quantity, price and held fallback, and its cart line shows the picture this screen shows |
| ProductDetails.GatedAddKeepsCartPositive | src/screens/productDetails.tsx:46-60 | because of the `quantity > 0` gate, adding keeps every cart line positive and grows the count by the quantity |
| ProductDetails.ProductDetailsScreen.constructor | src/screens/productDetails.tsx:21-40 | the stepper starts at `initialQuantity || 0` (a missing, null or zero value gives 0) and the fallback is the route's image, else a drawn placeholder, fixed for the screen's lifetime |
| ProductDetails.ProductDetailsScreen.HandleAdd | src/screens/productDetails.tsx:42 | one more |
| ProductDetails.ProductDetailsScreen.HandleRemove | src/screens/productDetails.tsx:43 | one less, never below 0 |
| ProductDetails.ProductDetailsScreen.HandleAddToCart | src/screens/productDetails.tsx:46-73 | with a positive quantity the snapshot is added to the cart and the stepper returns to 0; otherwise nothing changes |
| ProductCard.DiscountTag | src/component/ProductCard.tsx:36-39 | the tag is never NaN: NaN shows as 50, any other number as itself |
| ProductCard.RenderContents | src/component/ProductCard.tsx:24-46 | the picture is the front URI or this render's placeholder, and the tap opens the details with the product and that placeholder |
| ProductCard.NormalizedTagIsFinite | src/component/ProductCard.tsx:36-39 | for every fetched record the card shows a finite discount, 50 for a record without prices |
| ProductCard.DetailsKeepCardPicture | src/component/ProductCard.tsx:29-31 | the detail screen opened from a card holds the card's placeholder and shows the same picture |
| ProductCard.RenderNotMemoised | src/component/ProductCard.tsx:24-25 | two renders can show different placeholders |
| BarcodeScanner.StepSpec | src/screens/BarcodeScanner.tsx:14-18 | a scan is acted on exactly when the flag is clear, navigating with the code verbatim; a scan leaves the flag set, a reset clears it |
| BarcodeScanner.StaysScanned | src/screens/BarcodeScanner.tsx:14-16 | once set, the flag stays set until a reset |
| BarcodeScanner.ResetBetweenAcceptedScans | src/screens/BarcodeScanner.tsx:14-18 | when each scan is handled after the previous flag update is rendered, between two scans acted on there is always a reset |
| BarcodeScanner.ScanAfterResetAccepted | src/screens/BarcodeScanner.tsx:18 | the first scan after a reset is acted on |
| BarcodeScanner.BarcodeScannerScreen.constructor | src/screens/BarcodeScanner.tsx:8 | the flag starts clear |
| BarcodeScanner.BarcodeScannerScreen.OnBarcodeScan | src/screens/BarcodeScanner.tsx:11-20 | navigates with the code exactly when the flag as last written was clear, and leaves it set |
| BarcodeScanner.BarcodeScannerScreen.OnResetTimer | src/screens/BarcodeScanner.tsx:18 | clears the flag |
| BarcodeGenerator.TrimStart | src/component/BarcodeGenerator/index.tsx:10 | the result is a suffix, only whitespace was dropped, and it starts with a non-whitespace character if any |
| BarcodeGenerator.TrimEnd | src/component/BarcodeGenerator/index.tsx:10 | the result is a prefix, only whitespace was dropped, and it ends with a non-whitespace character if any |
| BarcodeGenerator.TrimSpec | src/component/BarcodeGenerator/index.tsx:10 | `trim` returns a slice of its input with only whitespace around it and none at either end |
| BarcodeGenerator.TrimIdempotent | src/component/BarcodeGenerator/index.tsx:10 | trimming twice is trimming once |
| BarcodeGenerator.TrimSurrounded | src/component/BarcodeGenerator/index.tsx:10 | whitespace added around a text does not change its trimmed form |
| BarcodeGenerator.RenderAcceptsIff | src/component/BarcodeGenerator/index.tsx:10-18 | the barcode is drawn exactly when the trimmed text is 13 code units long, and it encodes that trimmed text |
| BarcodeGenerator.BlankRejected | src/component/BarcodeGenerator/index.tsx:11-12 | empty or blank input is rejected |
| BarcodeGenerator.MissingRejected | src/component/BarcodeGenerator/index.tsx:10-12 | a missing `gtin` becomes "undefined" and is rejected |
| BarcodeGenerator.SurroundingWhitespaceIrrelevant | src/component/BarcodeGenerator/index.tsx:10-18 | surrounding whitespace changes neither the verdict nor the value drawn |
| BarcodeGenerator.AnyThirteenCharactersAccepted | src/component/BarcodeGenerator/index.tsx:11 | no digit or check-digit test: any 13 characters without whitespace at the ends are drawn as they are |
| BarcodeGenerator.LettersAccepted | src/component/BarcodeGenerator/index.tsx:11 | "ABCDEFGHIJKLM" is drawn as a barcode |

## Left out

- The HTTP request of `fetchProducts` (`src/redux/slices/productsSlice.ts`
  lines 38-54): its outcome is the argument of `Fulfilled` or `Rejected`.
- Toasts, alerts, navigation calls other than their parameters, console
  logging and all layout (JSX, styles).
- Floating-point rounding and the sign of zero: finite numbers are reals;
  prices, quantities and ids of the cart are whole numbers and strings.
  `toFixed(2)` formatting of totals is not modelled; the totals are the
  numbers before formatting.
- Values of the wrong JSON type in a fetched record (a string price, a
  non-string id) and a missing `images` object; `images.front` is a loose
  string property.
- Effect scheduling: `OnProductsData` is the effect run for one new
  response at the current page; the model does not capture React re-running
  that effect when only `page` changes, which merges the previous response
  again before the new one arrives.
- Timer durations (1, 2 and 3 seconds): timer callbacks are separate event
  methods (`LoadingMoreTimer`, `CheckoutTimer`, `OnResetTimer`) that the
  caller invokes, in any order.
- `Math.random`: the placeholder drawn is a parameter (`draw`).
- Image assets are nine opaque placeholders, all assumed truthy.
- `String(null)` for the barcode component: the property is present or
  missing, not null.
- The barcode rendering library itself and the camera.
- The login screen, the navigator and the store wiring.
- The detail screen reached from the scanner: its route carries only
  `scannedCode` and no `product`, so the screen's reads of
  `product.initialQuantity` (`src/screens/productDetails.tsx` lines 21-22)
  throw a TypeError; only the parameters of that navigation are modelled.
- BarcodeScanner.BarcodeScannerScreen.OnBarcodeScan: each scan is assumed
  to run after the previous scan's `setScanned(true)` has been rendered. In
  the app the handler reads the `scanned` captured by its render, so camera
  reads delivered within one render all pass the guard, each navigating and
  starting a timer.
- BarcodeScanner.ResetBetweenAcceptedScans: holds only under the same
  assumption; within one render two scans can both be acted on with no
  reset between them.
- ProductList.ProductListScreen.HandleLoadMore: each end-of-list event is
  assumed to run after the previous event's `setLoadingMore(true)` has been
  rendered. In the app two `onEndReached` calls within one render both pass
  the guard and both run `setPage(prev => prev + 1)`, so the page advances
  by two and the page in between is never requested.
- ProductList.DoubleLoadMore: holds only under the same assumption.
- CartSlice.CartStore.AddToCart, UpdateQuantity, RemoveFromCart: they
  require distinct ids, which every reducer keeps from the empty initial
  cart; a cart built otherwise is outside the model.
