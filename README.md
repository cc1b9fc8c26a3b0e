# Product catalogue request layer, modelled in Dafny

This project models the request layer under a React product-catalogue page.

- **Response cache.** A process-wide map from string keys to `{data, timestamp}`. An entry is served only while it is younger than five minutes. Expired entries stay stored until they are overwritten, removed or cleared.
- **Three data hooks.** Each run of a hook's effect does the same steps:
  - derive a cache key;
  - serve a fresh cached value without a request;
  - otherwise fetch, then either cache the result and publish it, or publish an error and cache nothing.
- **Products query details.** The products query chooses its endpoint by mode. In category mode it cuts the requested page out of the whole category list on the client.
- **The page.** The model covers the page-number window of the pagination bar, and the page's own arithmetic and state:
  - the offset and the page count;
  - the "Showing a-b of n" line;
  - the client-side sort;
  - the category/page/sort/product state and its handlers.

Files, one module each:

- `domain.dfy` (`Domain`): products, categories, the cache payload, the outcome of a request, `err.message || fallback`.
- `text.dfy` (`Text`): decimal rendering of numbers inside template strings.
- `cache_keys.dfy` (`CacheKeys`): the four key formats, their injectivity, and the split of the key space into families.
- `cache.dfy` (`CacheStore`): class `Cache` with `Get`, `Set`, `Clear` and `Remove`.
- `use_products.dfy`, `use_categories.dfy`, `use_product_detail.dfy`: the classes `ProductsQuery`, `CategoriesQuery` and `DetailQuery`.
  - Each has the hook's state fields, a `Start` step (`loading := true`, `error := null`) and a `Run` method. `Run` is one complete effect run over a shared `Cache`.
  - The network read is the `outcome` argument. `Run` returns the URL it requested, or none when the cache served.
- `pagination.dfy` (`Pagination`): the page window as an imperative loop, proved equal to a closed form. Also the shortcut, ellipsis and Previous/Next conditions.
- `product_sort.dfy` (`ProductSort`): the sort switch, with a stable insertion sort standing in for `Array.prototype.sort`.
- `home_page.dfy` (`HomePage`): `skip`, `totalPages`, the "Showing" range, the pagination guard, and class `Home` with its handlers.

The clock is explicit. `now` is the time of a lookup and `doneAt` the time the response arrives, which stamps the new entry. The source calls `Date.now()` at each of those two points.

The cache itself is untyped. Here its payload is a tagged union (`ProductsPage`, `CategoryList`, `ProductData`). `Cache.WellTyped()` states that every key holds the shape its family's hook writes. Every hook needs it and keeps it. The key-family lemmas show that the families cannot collide.

## Model

| member | source | states |
|---|---|---|
| `Domain.ErrorText` | hooks/useProducts.js:56 | the error is the request's message when that is non-empty, the fallback otherwise; with a non-empty fallback it is never empty |
| `Text.NatToString` | hooks/useProducts.js:22-25 | the numeral of a number is non-empty and all digits; it is one character exactly below ten |
| `Text.NatToStringInjective` | hooks/useProducts.js:22-25 | distinct numbers render as distinct numerals |
| `CacheKeys.ProductsKey` | hooks/useProducts.js:20-26 | every products key, in both modes, lies in the `products-` family |
| `CacheKeys.ProductsKeyInjective` | hooks/useProducts.js:20-26 | equal products keys imply the same effective category, skip and limit, so distinct queries never collide |
| `CacheKeys.ProductKey` | hooks/useProductDetail.js:21 | every `product-{id}` key lies in the detail family, not the `products-` one |
| `CacheKeys.ProductKeyInjective` | hooks/useProductDetail.js:21 | distinct ids give distinct detail keys |
| `CacheKeys.KeyFamiliesDisjoint` | hooks/useProductDetail.js:21 | no products key equals a detail key or `categories`, and no detail key equals `categories` |
| `CacheStore.Cache.constructor` | utils/cache.js:2 | the cache starts empty |
| `CacheStore.Cache.Get` | utils/cache.js:5-11 | data is served iff an entry exists and `now - timestamp < 300000`, and it is the stored data; reading changes nothing |
| `CacheStore.Cache.Set` | utils/cache.js:13-18 | the entry for the key is overwritten and stamped with `now`. It is served until 300000 ms have passed and not after. Every other key is served as before |
| `CacheStore.Cache.Clear` | utils/cache.js:20-22 | the map is empty and no key is served |
| `CacheStore.Cache.Remove` | utils/cache.js:24-26 | the key is dropped and never served; every other key is served as before |
| `CacheStore.GetLeavesExpiredEntry` | utils/cache.js:5-11 | an expired entry is reported absent but stays in the map |
| `CacheStore.OverwriteKeepsLast` | utils/cache.js:13-18 | after two sets on one key only the second value is served, and it expires 300000 ms after the second set |
| `ProductsHook.ProductsUrl` | hooks/useProducts.js:20-26 | category mode requests the category endpoint followed by the category; otherwise the list endpoint, ending in the `skip` numeral |
| `ProductsHook.ProductsUrlIgnoresPaging` | hooks/useProducts.js:21 | in category mode the URL is the same for every skip and limit |
| `ProductsHook.ProductsUrlCarriesPaging` | hooks/useProducts.js:24 | outside category mode equal URLs mean equal limit and equal skip |
| `ProductsHook.Slice` | hooks/useProducts.js:44 | `slice(from, to)` has `max(0, min(to, n) - from)` elements, the ones starting at `from`, in order |
| `ProductsHook.PageOf` | hooks/useProducts.js:39-48 | category mode: total is the whole list's length and the page is its min(limit, max(0, total - skip)) items from `skip` on, in order. Otherwise the response is taken as is |
| `ProductsHook.CategoryPagesShareUrlNotKey` | hooks/useProducts.js:20-26 | in category mode two offsets fetch the same URL but are cached under different keys |
| `ProductsHook.ProductsQuery.constructor` | hooks/useProducts.js:6-9 | starts with no products, loading, no error, total 0 |
| `ProductsHook.ProductsQuery.Start` | hooks/useProducts.js:13-14 | a run begins with loading on and the error cleared; products and total are kept |
| `ProductsHook.ProductsQuery.Run` | hooks/useProducts.js:12-61 | see the list after this table |
| `ProductsHook.SecondRunServedFromCache` | hooks/useProducts.js:29-54 | a second run before expiry requests nothing and publishes the page the first run fetched |
| `CategoriesHook.CategoriesQuery.constructor` | hooks/useCategories.js:6-8 | starts with no categories, loading, no error |
| `CategoriesHook.CategoriesQuery.Start` | hooks/useCategories.js:12-13 | a run begins with loading on and the error cleared |
| `CategoriesHook.CategoriesQuery.Run` | hooks/useCategories.js:11-37 | see the list after this table |
| `DetailHook.ProductUrl` | hooks/useProductDetail.js:30 | the detail URL is the products endpoint followed by the id's numeral, digits only |
| `DetailHook.ProductUrlInjective` | hooks/useProductDetail.js:30 | distinct ids request distinct URLs |
| `DetailHook.DetailQuery.constructor` | hooks/useProductDetail.js:6-8 | starts with no product, loading, no error |
| `DetailHook.DetailQuery.Start` | hooks/useProductDetail.js:17-18 | a fetching run begins with loading on and the error cleared |
| `DetailHook.DetailQuery.Run` | hooks/useProductDetail.js:10-42 | see the list after this table |
| `DetailHook.FailedDetailFetch` | hooks/useProductDetail.js:33-35 | a failed fetch of product 999 leaves no product, the message as error, and nothing under `product-999` |
| `Pagination.Window` | components/Pagination.jsx:4-20 | the window is consecutive and increasing, within [1, totalPages], of length min(5, totalPages) (0 without pages), and holds the current page when it exists |
| `Pagination.GetPageNumbers` | components/Pagination.jsx:4-20 | the mutable-bounds loop returns exactly the closed-form window |
| `Pagination.ShortcutConditions` | components/Pagination.jsx:34-80 | for an existing page: first-page shortcut iff totalPages > 5 and page > 3, its ellipsis iff totalPages > 6 and page > 4. Last-page shortcut iff totalPages > 5 and page < totalPages - 2, its ellipsis iff totalPages > 6 and page < totalPages - 3 |
| `Pagination.ButtonsStrictlyIncrease` | components/Pagination.jsx:34-80 | the numbered buttons strictly increase, lie in [1, totalPages], and start at 1 and end at totalPages |
| `Pagination.PreviousStaysInRange` | components/Pagination.jsx:27-28 | Previous is disabled exactly on page 1; when enabled on an existing page it requests an existing page |
| `Pagination.NextStaysInRange` | components/Pagination.jsx:85-86 | Next is disabled exactly on the last page; when enabled on an existing page it requests an existing page |
| `ProductSort.ParseSortKey` | app/page.jsx:45-56 | any value other than the four named orders selects the default order |
| `ProductSort.TitleLeqTotal` | app/page.jsx:51-53 | the title order is total |
| `ProductSort.TitleLeqTransitive` | app/page.jsx:51-53 | the title order is transitive |
| `ProductSort.InsertionSortCorrect` | app/page.jsx:47-53 | sorting yields a permutation of its input, ordered by the comparator |
| `ProductSort.SortProducts` | app/page.jsx:40-57 | see the list after this table |
| `ProductSort.SortIdempotent` | app/page.jsx:40-57 | sorting a sorted page again by the same key changes nothing; re-sorting by any key keeps the same products |
| `HomePage.Skip` | app/page.jsx:28 | from page 1 on, skip is a non-negative multiple of 12, and `skip / 12 + 1` recovers the page |
| `HomePage.TotalPages` | app/page.jsx:59 | `12 * (pages - 1) < total <= 12 * pages`, the ceiling of total / 12 |
| `HomePage.TotalPagesOf194` | app/page.jsx:59 | 194 products give 17 pages |
| `HomePage.ShowingRangeCountsPage` | app/page.jsx:142-143 | a non-empty page of min(12, max(0, total - skip)) products makes "Showing a-b" start at skip + 1 and span exactly the products shown |
| `HomePage.CategoryPageShowingRange` | app/page.jsx:142-143 | for a category page, sorted any way, n is the category's size and a-b spans exactly the shown products |
| `HomePage.ViewKeysDistinct` | app/page.jsx:28-33 | two views share a products cache key only for the same page of the same effective category |
| `HomePage.PaginationShownIff` | app/page.jsx:201-207 | the bar shows iff not loading, no error and total > 12; then its window has at least two pages, all existing |
| `HomePage.Home.constructor` | app/page.jsx:23-26 | the page starts on page 1, category `all`, sort `default`, no product open |
| `HomePage.Home.ChangeCategory` | app/page.jsx:36-38 | `handleCategoryChange`'s `setSelectedCategory` (app/page.jsx:61-63) followed by the reset effect: a different category is selected and the page goes back to 1; re-selecting the current category keeps the page; nothing else changes |
| `HomePage.Home.ChangeSort` | app/page.jsx:65-67 | only the sort key changes |
| `HomePage.Home.ChangePage` | app/page.jsx:69-72 | only the current page changes |
| `HomePage.Home.OpenProduct` | app/page.jsx:74-76 | the clicked id is selected and the modal is open iff that id is truthy |
| `HomePage.Home.CloseProduct` | app/page.jsx:78-80 | the selection is cleared and the modal is closed |
| `HomePage.CategorySwitchResetsPage` | app/page.jsx:36-38 | on page 3 of all products, choosing `smartphones` gives page 1 and skip 0 |

Definitions without a contract of their own are covered by the rows of the lemmas that state their properties:

- `CacheKeys.CategoryMode` (`category && category !== 'all'`, hooks/useProducts.js:20,41), which picks the key, the URL and the slice branch: `ProductsHook.ProductsUrl`, `ProductsHook.PageOf`, `CacheKeys.ProductsKeyInjective`.
- `CacheKeys.EffectiveCategory` (hooks/useProducts.js:20) and the key-shape helpers: `CacheKeys.ProductsKeyInjective`.
- `CacheKeys.CategoriesKeyKind` (hooks/useCategories.js:16): a helper that places the constant key in its family, used by `CategoriesHook.CategoriesQuery.Run`.
- `CacheStore.Fresh` (utils/cache.js:8): `CacheStore.Cache.Get`, `CacheStore.Cache.Set`, `CacheStore.GetLeavesExpiredEntry`.
- `Pagination.FirstShortcut`, `Pagination.FirstEllipsis`, `Pagination.LastShortcut`, `Pagination.LastEllipsis` (components/Pagination.jsx:34-80): `Pagination.ShortcutConditions` and, with `Pagination.Buttons`, `Pagination.ButtonsStrictlyIncrease`.
- `Pagination.PrevDisabled`, `Pagination.NextDisabled` (components/Pagination.jsx:27-28,85-86): `Pagination.PreviousStaysInRange`, `Pagination.NextStaysInRange`.
- `HomePage.ShowingFirst`, `HomePage.ShowingLast` (app/page.jsx:142-143): `HomePage.ShowingRangeCountsPage`, `HomePage.CategoryPageShowingRange`.
- `HomePage.PaginationShown` (app/page.jsx:201): `HomePage.PaginationShownIff`.

`ProductsHook.ProductsQuery.Run` ensures all of the following. Every path ends with loading off and a consistent state: an error is non-empty and comes with no products.

- **Hit.** The fresh cached page supplies the products and the total. There is no request, no error, and the cache is not written.
- **Miss.** The mode's URL is requested.
- **Success.** The page from `PageOf` becomes state. The same `{products, total}` is cached under the derived key, stamped when the response arrived.
- **Failure.** The error is the message or `Failed to fetch products`. The products are emptied, the total keeps its old value, and nothing is cached.

`CategoriesHook.CategoriesQuery.Run` ensures all of the following. Every path ends with loading off, and an error comes with an empty list.

- **Hit.** The cached list is published. There is no request and no write.
- **Miss.** The categories URL is requested.
- **Success.** The response is cached under `categories` and published.
- **Failure.** The error is the message or `Failed to fetch categories`. The list is emptied and nothing is cached.

`DetailHook.DetailQuery.Run` ensures all of the following. Every path ends with loading off, and an error never comes with a product.

- **Falsy id (null or 0).** There is no request and the cache is untouched. The product and the error are kept.
- **Hit under `product-{id}`.** The cached product is published, with no request.
- **Success.** The product is cached under `product-{id}`, then published.
- **Failure.** The product is cleared and the error is the message or `Failed to fetch product details`. `product-{id}` is not written.

`ProductSort.SortProducts` ensures all of the following.

- An empty input gives `[]`. Any other input gives a permutation of it.
- `price-asc` gives non-decreasing prices and `price-desc` non-increasing prices.
- `title-asc` and `title-desc` give ascending and descending title order.
- `default` or any unknown key keeps the original order.

## Left out

- The network reads (axios) are not modelled. Each one is the `outcome` argument of `Run`, and its URL appears only as a derived string.
- The clock is the `now`/`doneAt` arguments.
- React effect scheduling and async interleaving are not modelled; each effect run is one atomic `Run`.
  - The intermediate `loading = true` state is shown only by `Start`.
  - The code has no request-identity check, so a late response for old parameters can overwrite newer state; the model has none either.
  - `ChangeCategory` sets the category and resets the page in one step. In the code, the `useProducts` call (app/page.jsx:29-33), and so its effect, comes before the page-reset effect (app/page.jsx:36-38). So one extra run happens first, with the new category and the old `skip`: it requests the category and caches a slice at the stale offset. If that response arrives after the page-1 response, it overwrites it, and page 1 can show an empty or wrong slice. The model does not contain this extra run.
- Category-mode pages are cached per (category, skip, limit), as the code does, so the same category list is fetched once per page (`CategoryPagesShareUrlNotKey`).
- On a products failure the code keeps the previous `total`; the model does the same.
- `window.scrollTo` on a page change and `window.location.reload` on retry are browser side effects and are left out.
- Product fields other than id, title and price are left out, since the request layer and the page only display them. That includes the floating-point discounted-price formatting.
- The presentational components are left out: the product card, the detail modal and its image index, the skeleton, the error message, the sort dropdown's click-outside handling, and the category filter's show-more toggle.
- `next.config.js` and the layout have no behaviour and are left out.
- `ProductSort.TitleLeqTotal`: `localeCompare` uses the locale's collation. The model compares titles by code point (Unicode scalar value) instead. All sort proofs use only its totality and transitivity.
- `ProductSort.SortProducts`: the model's insertion sort is stable by construction, but stability is not stated as a property.
- `ProductsHook.ProductsQuery.Run` takes `skip` and `limit` as naturals. JavaScript `slice` with negative bounds counts from the end, and that case is not modelled. The page only ever passes 12 and `(currentPage - 1) * 12`, with `currentPage` set to 1 or to a page the pagination bar offers.
- `ProductsHook.ProductsQuery.Run`, `CategoriesHook.CategoriesQuery.Run` and `DetailHook.DetailQuery.Run` require `cache.WellTyped()`. The source's cache accepts any value. In the source every writer of these key families is the owning hook, and the model's hooks keep this invariant. Other code writing a foreign shape under these keys is not modelled.
- `DetailHook.DetailQuery.Run` also requires the query's own `Valid()` (an error never beside a product). The constructor establishes it and every run keeps it.
- A cached value that is present but falsy (a `null` response body) is not modelled. The API's bodies are objects or arrays, which are always truthy, so a served entry is always a hit.
- The default arguments of `useProducts` (limit 12, skip 0, category null) are not modelled separately. The page always passes all three, and `Run` takes them explicitly.
- `Text.NatToString`: `skip`, `limit` and product ids are unbounded naturals here, rendered as plain decimal. JavaScript numbers are doubles, exact only up to 2^53, and `${n}` switches to exponent notation from 1e21 on (`1e+21`). So `CacheKeys.ProductsKeyInjective`, `CacheKeys.ProductKeyInjective`, `ProductsHook.ProductsUrlCarriesPaging` and `DetailHook.ProductUrlInjective` hold for the source only for integers below 2^53, where the decimal rendering applies.
- The response shape is assumed: `Outcome.Ok` always carries a product list with a sequence of products (and a list of categories, or a product). A response body without `products` is not modelled. In all-products mode the code would publish `undefined` (hooks/useProducts.js:46,53). In category mode `allProducts.length` would throw a TypeError and end in the catch block (hooks/useProducts.js:42-43,55-57). That error path is not modelled either.
