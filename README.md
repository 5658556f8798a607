# Storefront listing, image and product-page logic in Dafny

The repository is a clothing storefront: a React client over a small REST server. The server's
order code is only a table schema and a route binding, so the behaviour worth stating
lives in the client. This project models that logic:

- **Catalog listings** (`Kids.jsx`, `Sale.jsx`). The Kids listing keeps the products
  priced at or below the slider's `priceRange`. It sorts them with the comparator the
  "Sort By" select picks. Both listings then cut the list into pages of twelve. The
  Previous, numbered and Next buttons move `currentPage`.
- **Image addresses**. The Kids listing, the Sale listing and the product detail page
  each turn a product's `image` field into an `<img>` address in their own way.
- **Product detail page** (`ProductDetails.jsx`). The shopper picks a size and a colour
  from fixed lists. "Add to cart" sends the product extended with those picks. A review
  form has a 1-to-5 star rating, a text and an optional photo. Submitting it puts a new
  numbered review at the top of the list and resets the form.

Modules: `Strings` (startsWith, includes, backslash replacement, name comparison),
`Products` (product record, discount badge, wishlist decision), `Listing` (filter and
stable sort), `Pagination` (page count, JavaScript `slice`, pager buttons), `ImageUrls`,
and `Kids`, `Sale`, `ProductDetails`. The last three are classes whose fields are the
components' React state and whose methods are the event handlers.

Prices are exact `real`s. JavaScript's `Array.prototype.sort` is stable, so the sort is
a stable insertion sort on the comparator's value. Its result is proved sorted, a
permutation of its input, and stable: for every product `q`, the products the
comparator ties with `q` keep their input order. Network results, the current date and
the browser's object URL for a photo are parameters.

`server/routes/orderRoutes.js` binds `POST /create-order` to
`server/controllers/orderController.js`, which is not part of this model, and the order migration and model are declarative, so there is no
order logic to state.

## Model

| member | source | states |
|---|---|---|
| `Strings.StartsWith` | client/src/components/catagories/Kids.jsx:66 | `startsWith` holds exactly when the string is at least as long as the prefix and begins with it; the same test is used at Sale.jsx:87 and ProductDetails.jsx:61 |
| `Strings.Includes` | client/src/components/catagories/Kids.jsx:68 | `includes` is true exactly when the word occurs at some position of the string |
| `Strings.ReplaceBackslashes` | client/src/components/catagories/Kids.jsx:69-74 | the global replace keeps the length, turns every `\` into `/`, changes no other character, and leaves no backslash |
| `Strings.ReplaceBackslashesIdempotent` | client/src/components/catagories/Kids.jsx:71-74 | replacing twice is the same as replacing once |
| `Strings.NameCompare` | client/src/components/catagories/Kids.jsx:38 | the name comparison returns -1, 0 or 1, and 0 exactly for equal names |
| `Strings.NameCompareFlip` | client/src/components/catagories/Kids.jsx:38 | swapping the names flips the sign |
| `Strings.NameCompareTransitive` | client/src/components/catagories/Kids.jsx:38 | "not after" by name is transitive |
| `Products.HasDiscount` | client/src/components/catagories/Sale.jsx:93-94 | the badge shows only for a present old price above the price, and never for an old price of 0, which JavaScript treats as false (the Kids listing uses the same test) |
| `Products.HasDiscountForNonNegativePrice` | client/src/components/catagories/Sale.jsx:93-94 | for a non-negative price, the badge shows exactly when an old price is present and higher than the price |
| `Products.AnyHasId` | client/src/components/catagories/Sale.jsx:82-84 | `isFavorite` holds exactly when some wishlist entry has the product's id |
| `Products.FavoriteToggle` | client/src/components/catagories/Sale.jsx:195-199 | a click removes by id exactly when the product is wishlisted, and otherwise adds the whole product |
| `Listing.FilterByPrice` | client/src/components/catagories/Kids.jsx:33-34 | every kept product is priced at or below the range, and the result is a sub-multiset of the input: nothing is added |
| `Listing.FilterByPriceExact` | client/src/components/catagories/Kids.jsx:33-34 | each product within the range is kept as often as it occurs, and no other product is kept |
| `Listing.Compare` | client/src/components/catagories/Kids.jsx:35-40 | "price-low" puts the cheaper product first, "price-high" the dearer one, and both tie exactly on equal prices; "name" gives -1, 0 or 1 and ties exactly on equal names; any other value ties every pair |
| `Listing.CompareFlip` | client/src/components/catagories/Kids.jsx:35-40 | for every sort option, the comparator is antisymmetric |
| `Listing.CompareTransitive` | client/src/components/catagories/Kids.jsx:35-40 | for every sort option, the comparator's "not after" is transitive, so the sort is well defined |
| `Listing.Insert` | client/src/components/catagories/Kids.jsx:35-40 | one insertion step adds exactly the inserted product |
| `Listing.SortProducts` | client/src/components/catagories/Kids.jsx:35-40 | the sorted list is a permutation of its input |
| `Listing.InsertSorted` | client/src/components/catagories/Kids.jsx:35-40 | inserting into a sorted list keeps it sorted |
| `Listing.SortProductsSorted` | client/src/components/catagories/Kids.jsx:35-40 | every product comes no later, by the comparator, than every product after it |
| `Listing.InsertStable` | client/src/components/catagories/Kids.jsx:35-40 | an inserted product lands before every product it ties with |
| `Listing.SortProductsStable` | client/src/components/catagories/Kids.jsx:35-40 | products that tie keep their input order (stable sort) |
| `Listing.FeaturedKeepsOrder` | client/src/components/catagories/Kids.jsx:39 | with "default" or any other unknown value the comparator returns 0, and the list comes back unchanged |
| `Listing.FilteredProducts` | client/src/components/catagories/Kids.jsx:33-40 | `filteredProducts` is a permutation of the price-filtered list |
| `Listing.FilteredProductsSpec` | client/src/components/catagories/Kids.jsx:33-40 | the list is exactly the in-range products (a multiset statement); "price-low" gives nondecreasing prices, "price-high" nonincreasing prices, "name" ascending names; ties keep catalog order |
| `Listing.FeaturedListingIsFilter` | client/src/components/catagories/Kids.jsx:17 | under the initial "default" order the listing is the filtered list in catalog order |
| `Pagination.TotalPages` | client/src/components/catagories/Kids.jsx:43 | `Math.ceil(n / 12)` is the fewest pages of twelve that hold `n` products |
| `Pagination.SliceIndex` | client/src/components/catagories/Kids.jsx:46-49 | a `slice` position is clamped into the list, and a non-negative one is clamped at its length |
| `Pagination.JsSlice` | client/src/components/catagories/Kids.jsx:46-49 | `slice` never returns more than the list holds or anything not in it; for `0 <= start <= end` it is the run of existing positions `start..end`; with `0 <= end <= start` it is empty; with positions beyond both ends it is the whole list |
| `Pagination.PageOf` | client/src/components/catagories/Kids.jsx:44-49 | a page holds at most 12 products; page `p >= 1` is `s[(p-1)*12 .. min(p*12, n)]`; it is empty exactly when `p > totalPages` |
| `Pagination.PagesUpToIsPrefix` | client/src/components/catagories/Kids.jsx:44-49 | pages 1 to `k` together are the first `min(12k, n)` products |
| `Pagination.PagesReassemble` | client/src/components/catagories/Kids.jsx:43-49 | pages 1 to `totalPages`, in order, give back the whole list |
| `Pagination.Rendered` | client/src/components/catagories/Kids.jsx:386-398 | Previous and Next are always in the bar, and the numbered buttons `Array.from({ length: totalPages }, (_, i) => i + 1)` are exactly the pages 1 to `totalPages` |
| `Pagination.Disabled` | client/src/components/catagories/Kids.jsx:379-405 | numbered buttons are never disabled; Previous is disabled on page 1 and enabled on pages 2 to `totalPages`; Next is disabled on page `totalPages` and enabled on pages 1 to `totalPages - 1`; from a page in range an enabled Previous or Next stays in range |
| `Pagination.AfterClick` | client/src/components/catagories/Kids.jsx:379-405 | a numbered button goes to its own page; Previous goes back one page except on page 1, where it does nothing; Next goes forward one except on page `totalPages`, where it does nothing; from a page in `1..totalPages`, a click on any button of the bar stays in `1..totalPages` |
| `ImageUrls.KidsImageUrl` | client/src/components/catagories/Kids.jsx:63-78 | the result is always an http(s) address. A missing or empty image gives the placeholder. An image is returned unchanged exactly when it starts with "http". Any other image becomes a backslash-free server address ending in the normalised path, with `uploads/` inserted only when the path lacks "uploads" |
| `ImageUrls.KidsLocalImagesInUploads` | client/src/components/catagories/Kids.jsx:68-74 | every local image address on the Kids listing mentions "uploads" |
| `ImageUrls.SaleImageUrl` | client/src/components/catagories/Sale.jsx:86-91 | the result is always an http(s) address. A missing image gives the placeholder. An image is returned unchanged exactly when it starts with "http". Any other image becomes the server root followed by the normalised path, with no `uploads/` inserted |
| `ImageUrls.ListingUrlsAgree` | client/src/components/catagories/Sale.jsx:86-91 | the two listings give the same address unless the image is a local path without "uploads" |
| `ImageUrls.ListingUrlsIdempotent` | client/src/components/catagories/Kids.jsx:66-67 | resolving an address a listing produced returns it unchanged |
| `ImageUrls.DetailsImageUrl` | client/src/pages/ProductDetails.jsx:61-63 | as written: it throws exactly when the image is missing. Otherwise the result is an http(s) address, equal to the image exactly when the image starts with "http", and else exactly the server root followed by the normalised path (for an empty path, the server root itself) |
| `ImageUrls.MissingImageBreaksDetails` | client/src/pages/ProductDetails.jsx:61-63 | a product without an image gets the placeholder in both listings but makes the detail page throw |
| `ImageUrls.DetailsImageUrlOrPlaceholder` | client/src/pages/ProductDetails.jsx:61-63 | corrected: it never throws, agrees with the page wherever the page does not throw, and matches the Sale listing except for an empty path |
| `Kids.PageInRangeShowsProducts` | client/src/components/catagories/Kids.jsx:212 | while the page is in range, the grid has products exactly when the filtered list is non-empty |
| `Kids.SortKeepsPageInRange` | client/src/components/catagories/Kids.jsx:165 | changing the sort order never moves the page into or out of range |
| `Kids.NarrowingPriceStrandsPage` | client/src/components/catagories/Kids.jsx:188 | counterexample: a slider move leaves page 2 of a one-page list; the bar shows, the grid is empty, and Next leads to page 3 |
| `Kids.KidsPage.SettledView` | client/src/components/catagories/Kids.jsx:212-408 | once the page number is positive: the grid shows exactly when the pagination bar does and the page is in range; "No products available" (which tests the unfiltered list) never shows beside grid or bar; when products exist but the price filter excludes them all, none of the three shows |
| `Kids.KidsPage.Filtered` | client/src/components/catagories/Kids.jsx:33-40 | `filteredProducts` holds only products of the store within the price range, and no more of them than the store has |
| `Kids.KidsPage.Total` | client/src/components/catagories/Kids.jsx:43 | `totalPages` is 0 exactly when the filtered list is empty; a page in range is one of the numbered buttons |
| `Kids.KidsPage.CurrentProducts` | client/src/components/catagories/Kids.jsx:44-49 | `currentProducts` holds at most twelve products, all from the filtered list |
| `Kids.KidsPage.ShowsGrid` | client/src/components/catagories/Kids.jsx:212 | the product grid never shows without the pagination bar |
| `Kids.KidsPage.ShowsNoProductsMessage` | client/src/components/catagories/Kids.jsx:367 | "No products available at the moment." tests the unfiltered list and never shows beside the pagination bar |
| `Kids.KidsPage.ShowsPager` | client/src/components/catagories/Kids.jsx:376 | the pagination bar shows, once settled without error, exactly when the first page has products |
| `Kids.KidsPage.constructor` | client/src/components/catagories/Kids.jsx:15-18 | initial state: filter panel closed, range 500, "default" order, page 1 |
| `Kids.KidsPage.StoreChanged` | client/src/components/catagories/Kids.jsx:21-25 | a new slice state replaces products, loading and error, and changes nothing else |
| `Kids.KidsPage.ToggleFilter` | client/src/components/catagories/Kids.jsx:51 | the filter panel flips open or closed |
| `Kids.KidsPage.SetPriceRange` | client/src/components/catagories/Kids.jsx:182-188 | as written: only the range changes, and the page number is kept |
| `Kids.KidsPage.SetPriceRangeFromFirstPage` | client/src/components/catagories/Kids.jsx:188 | corrected: the range changes, the page resets to 1, and the page is in range |
| `Kids.KidsPage.SetSortBy` | client/src/components/catagories/Kids.jsx:162-171 | only the order changes; the listed products are the same multiset, and a page in range stays in range |
| `Kids.KidsPage.Click` | client/src/components/catagories/Kids.jsx:379-405 | a pager click sets the page `AfterClick` gives; pages stay at or above 1, and a page in range stays in range |
| `Sale.ShowsPager` | client/src/components/catagories/Sale.jsx:268 | the pagination bar shows, once settled without error, exactly when the first page has products |
| `Sale.ShowsGrid` | client/src/components/catagories/Sale.jsx:79 | the product grid never shows without the pagination bar |
| `Sale.ShowsEmptyState` | client/src/components/catagories/Sale.jsx:244 | "No products found" never shows together with the grid, and always shows for an empty list once settled without error |
| `Sale.SettledView` | client/src/components/catagories/Sale.jsx:244 | once loaded without error and with the page in range: "No products found" shows exactly when there are no products, and the grid exactly when the pagination bar does |
| `Sale.SalePage.constructor` | client/src/components/catagories/Sale.jsx:9-12 | initial state: no products, loading, no error, page 1 |
| `Sale.SalePage.Total` | client/src/components/catagories/Sale.jsx:36 | `totalPages` is 0 exactly when there are no products, and under the page invariant the current page is one of the numbered buttons |
| `Sale.SalePage.CurrentProducts` | client/src/components/catagories/Sale.jsx:37-42 | `currentProducts` holds at most twelve of the fetched products, and under the page invariant it is empty exactly when there are no products |
| `Sale.SalePage.FetchSucceeded` | client/src/components/catagories/Sale.jsx:23-27 | the response becomes the products and loading ends; the page is still in range |
| `Sale.SalePage.FetchFailed` | client/src/components/catagories/Sale.jsx:28-32 | the fixed error message is set, loading ends, and there are no products |
| `Sale.SalePage.Click` | client/src/components/catagories/Sale.jsx:271-297 | a pager click sets the page `AfterClick` gives, and the page stays in `1..totalPages` |
| `ProductDetails.View` | client/src/pages/ProductDetails.jsx:56-63 | with no navigation item only "Product not found" is rendered; otherwise the item is shown with an http(s) image address that agrees with the page wherever the page does not throw |
| `ProductDetails.WithSelections` | client/src/pages/ProductDetails.jsx:66-74 | the cart line holds the two picks, and dropping them gives back the product unchanged |
| `ProductDetails.NewReview` | client/src/pages/ProductDetails.jsx:79-86 | the new review has id `n + 1` and the name "You", carries the form's rating, text, photo and date, and its id is not yet used in a numbered list |
| `ProductDetails.InitialReviewsNumbered` | client/src/pages/ProductDetails.jsx:18-37 | the starting reviews have ids exactly {1, 2}, ratings in 1..5 and non-empty texts |
| `ProductDetails.SubmitKeepsIdsNumbered` | client/src/pages/ProductDetails.jsx:80-87 | putting the new review first keeps the ids pairwise distinct and exactly `1..n` |
| `ProductDetails.ReviewStars` | client/src/pages/ProductDetails.jsx:336-337 | the star strip is defined (no RangeError) exactly for ratings 0..5; it has five stars, of which the first `rating` are filled |
| `ProductDetails.FormStars` | client/src/pages/ProductDetails.jsx:256-264 | the form always shows five star buttons |
| `ProductDetails.PostedStarsMatchForm` | client/src/pages/ProductDetails.jsx:263 | for ratings 1..5 a posted review shows the same stars the form showed |
| `ProductDetails.ProductDetailsPage.constructor` | client/src/pages/ProductDetails.jsx:13-37 | initial state: size "M", colour "Black", empty text, rating 5, no photo, the two starting reviews; the page invariant holds |
| `ProductDetails.ProductDetailsPage.SelectSize` | client/src/pages/ProductDetails.jsx:145 | a size button sets that size, which is one of the six sizes |
| `ProductDetails.ProductDetailsPage.SelectColor` | client/src/pages/ProductDetails.jsx:166 | a swatch sets that colour, which is one of the five colours |
| `ProductDetails.ProductDetailsPage.SelectRating` | client/src/pages/ProductDetails.jsx:256-263 | a star button sets the rating to a value in 1..5 |
| `ProductDetails.ProductDetailsPage.EditReviewText` | client/src/pages/ProductDetails.jsx:277 | typing sets the review text |
| `ProductDetails.ProductDetailsPage.UploadImage` | client/src/pages/ProductDetails.jsx:94-98 | the first chosen file becomes the photo; an empty choice keeps the previous photo |
| `ProductDetails.ProductDetailsPage.AddToCart` | client/src/pages/ProductDetails.jsx:66-74 | the dispatched line is the shown product with the current picks, which are among the offered sizes and colours |
| `ProductDetails.ProductDetailsPage.AddToFavorite` | client/src/pages/ProductDetails.jsx:190 | the heart always adds the product to the wishlist and never removes it |
| `ProductDetails.ProductDetailsPage.SubmitForm` | client/src/pages/ProductDetails.jsx:77-91 | the handler runs only for a non-empty text. It yields `[newReview] + reviews` with id `n + 1`, so the length grows by one and the old order is kept. It then clears the text, resets the rating to 5 and drops the photo. Ids stay exactly `1..n` |

## Left out

- The server's order migration, model and route are declarative: a table definition and a route binding. The order controller is not part of this model, so there is no order validation or total computation to state.
- The network is not modelled: the Sale listing's request and the Kids listing's `fetchKidsProducts` dispatch. Their outcomes are method parameters (`FetchSucceeded`, `FetchFailed`, `StoreChanged`).
- The Redux slices for cart, wishlist and kids products are not part of this model. Dispatches are modelled as the actions they send (`FavoriteAction`, `CartLine`), not as changes to the store.
- `getDiscountPercentage` is left out. It is floating-point division followed by `Math.round`, and the model has no IEEE doubles.
- Prices are exact reals. IEEE rounding, NaN and non-numeric prices are not modelled.
- `NameCompare`: `localeCompare` depends on the locale. The model uses plain code-point lexicographic order in its place. Only antisymmetry and transitivity are relied on.
- `SortProducts` is an insertion sort, not the JavaScript engine's algorithm. For a comparator that is antisymmetric and transitive, any stable sort gives the same result. The uniqueness of that result is not proved here.
- Toasts, `navigate`, the JSX/CSS layout, and the hard-coded "25% OFF" badge on the detail page are not modelled.
- `isFiltering` only shows or hides the slider panel; the model keeps it as a field.
- `URL.createObjectURL` and `new Date()` in review submission are not modelled. The submit method takes the object URL and the date string as parameters. The photo is represented by its file name.
- The "Add to cart" buttons of the two listings dispatch the product unchanged, and there is nothing to state about them. The Kids listing's `handleFavoriteToggle` makes the same decision as `Products.FavoriteToggle`; its toasts are not modelled.
- Clicks only happen on buttons that are rendered. So the pager methods require the pagination bar to be shown and the button to exist, and the slider methods require the filter panel to be open. The detail-page methods require a navigation item.

## Findings

| source | as written | input that shows it | evidently intended | confidence | as-written member | corrected member |
|---|---|---|---|---|---|---|
| client/src/pages/ProductDetails.jsx:61-63 | `item.image.startsWith("http")` is called with no check that the image exists, so a product without an image makes the render throw a TypeError | a product with no `image`: both listings show it with the placeholder, and clicking it opens the detail page | fall back to the placeholder, as both listings do | medium, not executed | `ImageUrls.DetailsImageUrl` (with `ImageUrls.MissingImageBreaksDetails`) | `ImageUrls.DetailsImageUrlOrPlaceholder` (used by `ProductDetails.View`) |
| client/src/components/catagories/Kids.jsx:188 | moving the price slider keeps `currentPage`, and the Next guard tests `currentPage === totalPages` | twelve products at 100 and one at 300 give two pages; on page 2, move the slider to 200. One page is left: the grid is empty, the bar is still shown, and Next goes to page 3 | a change of price range returns to page 1 | medium, not executed | `Kids.KidsPage.SetPriceRange` (with `Kids.NarrowingPriceStrandsPage`) | `Kids.KidsPage.SetPriceRangeFromFirstPage` |
