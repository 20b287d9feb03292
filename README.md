# MercadoFlash storefront — a verified model of its core logic

MercadoFlash is a marketplace front end. Buyers browse a catalog, filter it by
search text, category and price, sort it, look at a product page, keep a cart
and see their order history. Vendors see their shop's orders and sales
statistics and edit their products. This project models in Dafny the logic
inside those screens and proves what that logic promises:

- **The catalog listing** (`App.tsx`): the search → category → price filter
  chain and the three sort keys. The chain works on a copy of the catalog
  (`seq` values), so the catalog itself is never changed. The model also
  covers the category toggle and the page's initial filter state. The listing
  is computed the way the component does it: a method that narrows a copy step
  by step and sorts an array in place. That method is proved equal to a
  functional specification (`Catalog.Listing`). The lemmas about `Listing`
  state membership, order preservation, permutation, sortedness and stability.
- **The vendor panel** (`components/VendorPanel.tsx`):
  - every order is projected onto the shop's product ids, and orders left
    empty are dropped;
  - each kept order gets a shop-only total;
  - the kept orders are sorted newest first;
  - three statistics are folded from them;
  - the five most recent orders are shown;
  - deletion happens only after confirmation.
- **The product and profile forms** (`components/ProductForm.tsx`,
  `components/ProfileForm.tsx`): prefilling, single-field edits and submission.
  Submission parses numbers with the fallbacks of `parseFloat`/`parseInt`.
  The round trips are proved. Opening a user and saving the form unchanged
  gives the user back. Opening a product and saving it unchanged gives the
  product back with its original price normalised: an original price of 0 or
  NaN comes back absent, because the form shows it as an empty field.
- **The product page** (`components/ProductDetail.tsx`): the quantity counter
  (never below 1), the discount percentage and its badge, the line total, the
  star row, the image/zoom state and the empty-postal-code guard.
- **The cart drawer** (`components/Cart.tsx`), **the filter sidebar**
  (`components/Sidebar.tsx`) and **the order history**
  (`components/UserPanel.tsx`).

Units:

- Money is integer cents. A price written `19.99` is `1999`.
- Ratings are integer tenths. `4.7` is `47`.
- Dates are integer timestamps.
- The price range stays in whole currency units, as the slider reports it. A
  product is in range when `lo * 100 <= price <= hi * 100`.
- JavaScript's stable `Array.prototype.sort` with a numeric comparator is
  modelled as a stable insertion sort ascending by an integer rank:
  - `a.price - b.price` becomes the rank `price`;
  - `b.price - a.price` becomes `-price`;
  - `b.rating - a.rating` becomes `-rating`;
  - the vendor panel's date comparator becomes `-date`.

Components that keep React state slots become classes whose fields are those
slots: `App.Storefront`, `ProductForm.ProductFormState`,
`ProfileForm.ProfileFormState` and `ProductDetail.ProductDetailState`. Each
event handler is a method that states the whole new state.

Modules:

- `types.dfy`: the entities.
- `sequences.dfy`: filter, fold, stable sort, and the in-place sort method.
- `text.dfy`: lower-casing, substring search, `String(n)`, `parseInt` and
  `parseFloat`.
- One file per component: `catalog.dfy`, `app.dfy`, `sidebar.dfy`,
  `vendor_panel.dfy`, `product_form.dfy`, `profile_form.dfy`,
  `product_detail.dfy`, `cart.dfy`, `user_panel.dfy`.

## Model

| member | source | states |
|---|---|---|
| Catalog.Filtered | App.tsx:20-34 | The three `filter` steps, the search and category steps skipped when their input is empty; its meaning is stated by `ListingMembers` and `FilteredKeepsOrder` |
| Catalog.Listing | App.tsx:19-51 | The specification of the memoised listing: `Filtered` then the chosen stable sort; its meaning is stated by `ListingMembers`, `ListingIsPermutation`, `ListingOrder` and `ListingStable` |
| Catalog.FilteredProducts | App.tsx:19-51 | The memoised listing, computed by reassigning a copy through the filters and sorting an array in place, equals the specification `Listing(products, filters)` |
| Catalog.ListingMembers | App.tsx:22-34 | A product is listed exactly when it is in the catalog and passes all three filters: its lower-cased name contains the lower-cased search text, its category is among the selected ones (or none is selected), and `lo*100 <= price <= hi*100` |
| Catalog.FilteredKeepsOrder | App.tsx:20-34 | Before sorting, the listing is an order-preserving subsequence of the catalog |
| Catalog.EmptySearchMatchesAll | App.tsx:22-26 | The empty search text matches every product, so skipping the search filter for it changes nothing |
| Catalog.SearchIgnoresCase | App.tsx:22-26 | Two search texts that lower-case alike give the same listing |
| Catalog.SearchCaseExample | App.tsx:22-26 | Searching "SHIRT" lists exactly the products that searching "shirt" lists |
| Catalog.ListingIsPermutation | App.tsx:36-48 | The sorted listing holds the filtered products, each as often as before |
| Catalog.ListingOrder | App.tsx:36-48 | "price-asc" gives non-decreasing prices, "price-desc" non-increasing prices, "rating-desc" non-increasing ratings; any other key keeps the filtered order |
| Catalog.ListingStable | App.tsx:36-48 | Products that tie on the sort key keep their filtered order |
| Catalog.SortOrderOf | App.tsx:36-48 | Each of the three known keys selects its own order; every other key means no sorting |
| Catalog.InitialListing | App.tsx:13-16 | With the initial filters and every price within 0..2000, the listing is the whole catalog in catalog order |
| Catalog.ToggleCategory | App.tsx:53-59 | After a toggle, the category is selected exactly when it was not before; every other category keeps its membership |
| Catalog.ToggleNoDuplicates | App.tsx:53-59 | Toggling keeps a duplicate-free selection duplicate-free |
| Catalog.ToggleOnOff | App.tsx:53-59 | Toggling an unselected category on and off again restores the selection exactly |
| App.Storefront.constructor | App.tsx:12-17 | Initial state: no search text, no category, range [0, 2000], sort "relevance", sidebar closed |
| App.Storefront.OnSearchChange | App.tsx:13 | The search text is replaced; nothing else changes |
| App.Storefront.OnCategoryChange | App.tsx:53-59 | The selection becomes its toggle; the invariant (no duplicates, range within the slider) is kept |
| App.Storefront.OnSliderMove | components/Sidebar.tsx:48-53 | A slider move to `position` sets the upper bound to `position`, keeps the lower bound, and keeps the range inside the slider's domain |
| App.Storefront.OnSortByChange | App.tsx:16 | The sort key is replaced; nothing else changes |
| App.Storefront.ToggleSidebar | App.tsx:17 | The small-screen sidebar flag flips; the filters are unchanged |
| Sequences.Keep | App.tsx:23-33 | `Array.filter`: the result holds only elements of the input that pass, and every passing element |
| Sequences.KeepIsSubsequence | App.tsx:23-33 | A filter keeps the relative order of the elements it keeps |
| Sequences.KeepCount | App.tsx:23-33 | `filter` keeps every occurrence of a passing element, as often as the input has it, and no occurrence of a failing one |
| Sequences.SortByRank | App.tsx:38-44 | The stable sort is a permutation of its input |
| Sequences.SortByRankSorted | App.tsx:38-44 | The sort's result is ordered by the rank |
| Sequences.SortByRankStable | App.tsx:38-44 | For every rank, the elements of that rank appear in the sorted result in their input order |
| Sequences.SortInPlace | App.tsx:38-44 | `result.sort` on an array: afterwards the array holds `SortByRank` of its old contents |
| Sequences.SumOfConcat | components/Cart.tsx:14 | A `reduce` sum over two concatenated lists is the sum of the two sums |
| Sequences.SumOfSortByRank | components/VendorPanel.tsx:32-36 | Sorting does not change a sum, so revenue does not depend on the newest-first order |
| Text.LowerChar | App.tsx:24 | `toLowerCase` on one character: a capital (A-Z, À-Þ except ×) becomes its small letter, 32 code points on; every other character is unchanged |
| Text.Lower | App.tsx:24 | `toLowerCase` keeps the length and lower-cases each character on its own; idempotence is `LowerIdempotent` |
| Text.Includes | App.tsx:24 | `includes`; its meaning (an occurrence at some position) is stated by `IncludesWitness` and `IncludesAt` |
| Text.IncludesWitness | App.tsx:24 | `includes` holds only when the term occurs at some position of the text |
| Text.IncludesAt | App.tsx:24 | An occurrence at any position makes `includes` true |
| Text.LowerIdempotent | App.tsx:24 | Lower-casing twice is lower-casing once |
| Text.ParseInteger | components/ProductForm.tsx:62 | `parseInt` is NaN exactly when no digit follows the optional sign |
| Text.ParseIntegerOfIntToString | components/ProductForm.tsx:31 | `parseInt` reads back the integer that `String` wrote, stopping at the first non-digit |
| Text.IntToString | components/ProductForm.tsx:31 | `String(n)` for an integer: a non-empty text that `parseInt` reads back as `n` (`ParseIntegerOfIntToString`) |
| Text.ParseCents | components/ProductForm.tsx:60-61 | `parseFloat` in cents; that it reads back every amount `String` wrote is `CentsRoundTrip` |
| Text.CentsToString | components/ProductForm.tsx:29-30 | `String(x)` for an amount in cents; `parseFloat` reads it back exactly (`CentsRoundTrip`) |
| Text.CentsRoundTrip | components/ProductForm.tsx:29 | `parseFloat` reads back, exactly, the price that `String` wrote |
| Text.LeadingDigitsSpec | components/ProductForm.tsx:60 | The digit run the parsers read is all digits and is followed by a non-digit |
| Sidebar.OnSliderChange | components/Sidebar.tsx:53 | A slider change keeps the lower bound |
| Sidebar.SliderSetsUpperBound | components/Sidebar.tsx:49-53 | The upper bound becomes exactly the slider's position, read back with `parseInt` |
| Sidebar.IsChecked | components/Sidebar.tsx:35 | A box is ticked when the category's name is among the selected ones; `CheckboxClick` states how a click flips it |
| Sidebar.CheckboxClick | components/Sidebar.tsx:35-36 | Clicking a box flips that box's checked state (membership of the category's name) and no box of another name |
| Sidebar.OptionFor | components/Sidebar.tsx:71-74 | Every order the listing knows has an option in the selector, and that option selects it |
| Sidebar.SortOptionsDistinct | components/Sidebar.tsx:71-74 | The four options select four different orders, and each option is the one for its order |
| VendorPanel.ProductIds | components/VendorPanel.tsx:17 | Every product's id is in the shop's id set |
| VendorPanel.ProductIdsOnly | components/VendorPanel.tsx:17 | The id set holds nothing but the products' ids |
| VendorPanel.ShopSales | components/VendorPanel.tsx:24 | An order's shop share, `price * quantity` over its shop lines; `ProjectionsRevenue` and `StatsFromOrders` relate it to revenue |
| VendorPanel.ShopUnits | components/VendorPanel.tsx:37 | The units an order sells of the shop's products; `ProjectionsUnits` and `StatsFromOrders` relate it to units sold |
| VendorPanel.Project | components/VendorPanel.tsx:19-30 | An order is dropped exactly when none of its lines has a shop id; a kept order is the original with its items restricted to the shop's lines, in order, is non-empty, and its `shopTotal` is `price * quantity` summed over those lines |
| VendorPanel.Projections | components/VendorPanel.tsx:18-31 | `map` with `Project` then the null `filter`; its meaning is stated by `ProjectionListed`, `ListedIsProjection` and `ProjectionsCount` |
| VendorPanel.Emitted | components/VendorPanel.tsx:31 | After the null filter, an order contributes exactly its projection, if it has one |
| VendorPanel.ProjectionListed | components/VendorPanel.tsx:18-31 | Every order with a shop line yields its projection in the list |
| VendorPanel.ListedIsProjection | components/VendorPanel.tsx:18-31 | Every listed shop order is the projection of some order |
| VendorPanel.ShopOrders | components/VendorPanel.tsx:16-33 | `shopOrders`: the projections sorted newest first; its meaning is stated by `ShopOrdersMembers`, `ShopOrdersNewestFirst` and `ShopOrdersSameDateStable` |
| VendorPanel.ShopOrdersMembers | components/VendorPanel.tsx:16-33 | A shop order is in `shopOrders` exactly when it is the non-empty projection of some order |
| VendorPanel.ShopOrdersNewestFirst | components/VendorPanel.tsx:32 | `shopOrders` is sorted by date, most recent first |
| VendorPanel.ShopOrdersSameDateStable | components/VendorPanel.tsx:32 | Orders of the same date keep their relative order |
| VendorPanel.ComputeStats | components/VendorPanel.tsx:35-43 | The order count is the number of shop orders; `StatsFromOrders` ties all three statistics to the order list |
| VendorPanel.ProjectionsRevenue | components/VendorPanel.tsx:24 | The summed `shopTotal`s equal the shop's share of every order in the list; the stored order `total` plays no part |
| VendorPanel.ProjectionsUnits | components/VendorPanel.tsx:37 | The summed units equal the units of the shop's lines over every order |
| VendorPanel.ProjectionsCount | components/VendorPanel.tsx:31 | The null filter keeps exactly one entry per order that has a line from the shop |
| VendorPanel.StatsFromOrders | components/VendorPanel.tsx:35-43 | Revenue and units sold are the sums of the shop's sales and units over the original order list, and the order count is the number of orders with a line from the shop |
| VendorPanel.AggregationExample | components/VendorPanel.tsx:16-43 | Two orders, one shop: only the order with a shop line is kept, with its shop lines alone; revenue 20.00, 2 units, 1 order |
| VendorPanel.RecentOrders | components/VendorPanel.tsx:120 | `slice(0, 5)`: a prefix of the list with exactly min(5, n) shop orders, so all of them when there are at most five |
| VendorPanel.RecentAreNewest | components/VendorPanel.tsx:120 | No recent order shown is older than one left out |
| VendorPanel.DeleteRequest | components/VendorPanel.tsx:45-49 | The deletion is requested exactly when the user confirms, and for the given product |
| ProductForm.WithField | components/ProductForm.tsx:48-51 | `handleChange` sets exactly the named field and leaves every other field alone |
| ProductForm.BlankFields | components/ProductForm.tsx:35-45 | The reset form is blank except the category, which is the first category's name, or "" when there is none |
| ProductForm.OriginalPriceText | components/ProductForm.tsx:30 | The original-price field is empty exactly when the price is absent, zero or NaN |
| ProductForm.FieldsOf | components/ProductForm.tsx:26-34 | The prefilled form; that saving it unchanged gives the product back is `EditRoundTrip`, and that its number texts read back is `NumbersRoundTrip` |
| ProductForm.Prefill | components/ProductForm.tsx:24-46 | With no product to edit, the form is reset |
| ProductForm.ParsePrice | components/ProductForm.tsx:60 | `parseFloat(price) \|\| 0`: the parsed amount, or 0 for unparsable text |
| ProductForm.ParseOriginalPrice | components/ProductForm.tsx:61 | An empty field gives an absent original price (not 0); a non-empty unparsable field gives NaN; a parsable field gives the price `parseFloat` reads |
| ProductForm.ParseStock | components/ProductForm.tsx:62 | `parseInt(stock) \|\| 0`: the parsed integer, or 0 for unparsable text |
| ProductForm.Submit | components/ProductForm.tsx:53-71 | The submitted product takes name, category, description, image URL and original price from the form, and its price and stock are the fields parsed with their fallbacks; editing keeps id, shop, images, rating and review count; creating gives no id, no images, zero rating and reviews, and a blank shop |
| ProductForm.NumbersRoundTrip | components/ProductForm.tsx:29-31 | The price, original-price and stock texts read back as the numbers they came from; the original price is normalised (zero and NaN become absent) |
| ProductForm.EditRoundTrip | components/ProductForm.tsx:24-71 | Opening a product and saving without edits gives the product back, with its original price normalised |
| ProductForm.PriceOnlyEdit | components/ProductForm.tsx:48-71 | Editing only the price changes only the price; rating and review count are kept |
| ProductForm.CreateWithBadPrice | components/ProductForm.tsx:57-60 | A new product whose price does not parse is saved with price 0 and no id |
| ProductForm.ProductFormState.constructor | components/ProductForm.tsx:14-22 | The first render holds the blank form |
| ProductForm.ProductFormState.Sync | components/ProductForm.tsx:24-46 | The effect overwrites the form with the prefill for the edited product, or with the reset |
| ProductForm.ProductFormState.HandleChange | components/ProductForm.tsx:48-51 | One input change updates that field only |
| ProfileForm.WithField | components/ProfileForm.tsx:33-36 | `handleChange` sets exactly the named field and leaves every other field alone |
| ProfileForm.FieldsOf | components/ProfileForm.tsx:22-29 | The prefilled form; that saving it unchanged gives the user back is `ProfileRoundTrip` |
| ProfileForm.Submit | components/ProfileForm.tsx:38-51 | The submitted user keeps the id; its name, email and the three address fields are exactly the form's; the address is replaced as a whole |
| ProfileForm.SaveRequest | components/ProfileForm.tsx:53 | A save is possible exactly when the form is open |
| ProfileForm.ProfileRoundTrip | components/ProfileForm.tsx:21-51 | Prefilling from the current user and saving without edits gives that user back |
| ProfileForm.SubmitInjective | components/ProfileForm.tsx:38-51 | Two submissions for the same user agree exactly when their form fields agree |
| ProfileForm.OneFieldEdit | components/ProfileForm.tsx:33-51 | Editing one field and saving changes the user in that field only |
| ProfileForm.ProfileFormState.constructor | components/ProfileForm.tsx:13-19 | The first render holds empty fields |
| ProfileForm.ProfileFormState.Sync | components/ProfileForm.tsx:21-31 | With a user the effect prefills from it; without one the fields stay as they are |
| ProfileForm.ProfileFormState.HandleChange | components/ProfileForm.tsx:33-36 | One input change updates that field only |
| ProductDetail.NextQuantity | components/ProductDetail.tsx:25-30 | The new quantity is `prev + amount` when that is positive and exactly 1 otherwise |
| ProductDetail.QuantityButtons | components/ProductDetail.tsx:25-30 | Minus at 1 stays at 1; plus adds one; above 1, minus then plus restores the quantity |
| ProductDetail.RoundHalfUp | components/ProductDetail.tsx:59 | `Math.round(n / d)` is the integer within half of `n / d`, with halves rounded up |
| ProductDetail.DiscountPercent | components/ProductDetail.tsx:58-60 | The discount is 0 when the original price is absent, zero or NaN |
| ProductDetail.ShowsDiscountBadge | components/ProductDetail.tsx:121 | The badge shows for a positive discount; `BadgeExactly` states when that is |
| ProductDetail.DiscountBounds | components/ProductDetail.tsx:58-60 | For `0 <= price < orig` the discount lies in [0, 100], and it is 100 for a free product |
| ProductDetail.BadgeExactly | components/ProductDetail.tsx:121 | The "% OFF" badge shows exactly when the saving is at least half a percent of the original price, so never when the price is not below it |
| ProductDetail.Total | components/ProductDetail.tsx:62 | `price * quantity` in cents; `TotalIsCartSubtotal` ties it to the cart |
| ProductDetail.TotalIsCartSubtotal | components/ProductDetail.tsx:62 | The page's total, `price * quantity`, is what the cart charges for that product and quantity |
| ProductDetail.StarRow | components/ProductDetail.tsx:134-135 | Star `i` is filled exactly when `i` is below the rounded rating |
| ProductDetail.Stars | components/ProductDetail.tsx:134-136 | The five stars for a rating; `StarsFilled` states how many are filled and that they come first |
| ProductDetail.StarsFilled | components/ProductDetail.tsx:134-135 | The number of filled stars is the rounded rating clamped to [0, 5], and the filled stars come first |
| ProductDetail.ProductDetailState.constructor | components/ProductDetail.tsx:15-23 | The page opens on the first image, quantity 1, no zoom, no postal code, no estimate |
| ProductDetail.ProductDetailState.HandleQuantityChange | components/ProductDetail.tsx:25-30 | The counter moves to `NextQuantity` and stays at least 1; nothing else changes |
| ProductDetail.ProductDetailState.SelectThumbnail | components/ProductDetail.tsx:82-85 | A thumbnail click shows that image and turns zoom off |
| ProductDetail.ProductDetailState.ToggleZoom | components/ProductDetail.tsx:96 | A click on the main image flips zoom and nothing else |
| ProductDetail.ProductDetailState.SetPostalCode | components/ProductDetail.tsx:198 | Typing sets the postal code and nothing else |
| ProductDetail.ProductDetailState.CalculateShipping | components/ProductDetail.tsx:41-44 | With an empty postal code nothing changes; otherwise the page starts waiting and clears the previous estimate |
| ProductDetail.ProductDetailState.AddToCart | components/ProductDetail.tsx:171 | "Add to cart" hands over the product and the current quantity, which is at least 1 |
| Cart.Panel | components/Cart.tsx:37-78 | The empty message shows exactly for an empty cart; the line list and the subtotal footer show exactly for a non-empty one |
| Cart.PanelExclusive | components/Cart.tsx:37-78 | Exactly one of the empty message and the footer is shown |
| Cart.MinusRequest | components/Cart.tsx:58 | The minus button requests the line's quantity less one, for that line's product |
| Cart.PlusRequest | components/Cart.tsx:62 | The plus button requests the line's quantity plus one, for that line's product |
| Cart.RemoveRequest | components/Cart.tsx:66 | The bin button requests removal of exactly that line's product |
| Cart.Subtotal | components/Cart.tsx:14 | The `reduce` over the cart; `SubtotalConcat`, `SubtotalNonNegative` and `TotalIsCartSubtotal` state what it adds up |
| Cart.SubtotalConcat | components/Cart.tsx:14 | The subtotal is additive over concatenation and is 0 for an empty cart |
| Cart.SubtotalNonNegative | components/Cart.tsx:14 | With non-negative prices and quantities the subtotal is non-negative |
| Cart.SubtotalExample | components/Cart.tsx:14 | 10.00 twice and 5.50 once add up to 25.50 |
| UserPanel.StatusBadgeClass | components/UserPanel.tsx:11-22 | "Entregado" gets green, "En Camino" blue, "Procesando" yellow, each exactly for that status; every other status gets gray |
| UserPanel.BadgeClassesDistinct | components/UserPanel.tsx:12-21 | A known status's badge differs from that of every other status |
| UserPanel.Row | components/UserPanel.tsx:76-97 | A history row shows the order's id, status, badge and stored total, and one amount per line, equal to `price * quantity` |
| UserPanel.HistoryView | components/UserPanel.tsx:68-72 | The "no orders yet" message shows exactly when there are no orders; otherwise one row per order, in the given order |

## Left out

- `services/cloudinary.ts` (image upload) is not part of this model. It is network I/O, environment variables, a timer and a random placeholder URL.
- The shipping estimate after the guard (`components/ProductDetail.tsx:45-55`) is left out. It is a timer, a random cost and a locale-formatted date. `CalculateShipping` models only the guard and the state set before the timer.
- The zoom origin that follows the mouse (`components/ProductDetail.tsx:32-39`) is left out. It is DOM geometry in floating point.
- All `toFixed(2)` and `toLocaleDateString` formatting is left out. Amounts are stated in cents, before formatting.
- The `window.confirm` dialog is a boolean input of `VendorPanel.DeleteRequest`.
- The storefront's cart add/merge, set-quantity and remove handlers are not part of this model. The same goes for product create/update/delete with id generation. The components only call them through callbacks, so `Cart` models the requests the buttons send. Switching between the screens is outside the core files.
- `Text.ParseCents` and `Text.ParseInteger` model `parseFloat` and `parseInt` on decimal text. They read an optional sign, the longest digit run and (for `parseFloat`) a fraction after `.`. They do not skip leading white space. They do not read exponents or `Infinity`. Fraction digits past the second are dropped, because the model counts cents.
- `Text.LowerChar` lower-cases ASCII and the Latin-1 capitals only. Other Unicode case mappings of `toLowerCase` are left out.
- Ratings are whole tenths, so a finer rating such as 4.45 cannot be represented. Such ratings would order differently under "rating-desc" (4.45 against 4.4 or 4.5). They would also round differently for the stars: `Math.round(4.45)` fills four stars, and 4.5 fills five.
- Floating-point rounding is left out: JavaScript numbers are binary floats, and the model computes in exact integers. `ProductDetail.DiscountPercent` rounds the exact quotient `(orig - price) * 100 / orig`.
- `ProductForm.Submit`: the `...productToEdit` spread carries no extra fields, because the `Product` datatype lists every field the components read.
- `ProductForm.Submit`: `imageUrl` is not checked against `images[0]`, because the source does not relate them either.
- `Sidebar.OnSliderChange` requires that the reported value parses as an integer. A range input always reports a number. `App.Storefront.OnSliderMove` discharges this for every slider position.
- `Text.LeadingDigits`: its contract states only the bound. Its other facts (the run is all digits and is followed by a non-digit) are the lemma `Text.LeadingDigitsSpec`.
- The star rule of `components/ProductCard.tsx` repeats `components/ProductDetail.tsx:135` and is not modelled twice.
