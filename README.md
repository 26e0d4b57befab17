# ShopEasy catalog slice in Dafny

This project models the client-side catalog of the ShopEasy storefront. It has three parts:

- **ApiService** (`api_service.dfy`). The catalog client. It covers the deterministic 200-item mock catalog (`generateEnhancedMockProducts`) and the mock query engine (`getMockData`: case-insensitive search over name or brand, exact category, 1-indexed page window). It also covers the normalisation of upstream records (`transformApiResponse`) and `fetchProducts`, which falls back to the mock page on any failure. The HTTP outcome is an input (`Transport`). So is every `Math.random()` draw (`Draw`).
- **Dashboard** (`dashboard.dfy`). The data logic of the product grid. It turns the 0-indexed grid page into the 1-indexed API page and sets the offline flag from the `mock-` id marker. It sorts the page in place on an array by the first sort-model entry, and it derives the category facet from the page shown. It restores the filter and pagination state on mount and persists it on change.
- **StorageHelper** (`storage_helper.dfy`). The shared key/value store. It is a class whose `entries` map holds timestamped records. `SetItem`, `GetItem` and `RemoveItem` state the new map and frame every other key.

Helper modules: `Wrappers` (Option), `Strings` (decimal rendering and parsing, `padStart`, ASCII lower-casing, `includes`, `startsWith`, and `>` on strings) and `Sequences` (`filter`, `slice`, insertion-ordered de-duplication).

Notes on the code as modelled:
- The sort comparator never returns 0, so no order among equal keys is promised. The model proves that the page is ordered by key and is a permutation, and nothing more.
- The random price is an integer in [10, 509].
- The category facet is derived from the page after it is sorted.

## Model

| member | source | states |
|---|---|---|
| `ApiService.GenerateEnhancedMockProducts` | src/services/ApiService.js:126-170 | the catalog has exactly `count` items; item i is built from index i and its own draws |
| `ApiService.MockProduct` | src/services/ApiService.js:149-169 | a mock item's local flag is its own coin draw; with draws in range its price is in [10, 509], its stock in [1, 100] and its rating at most 5.0 |
| `ApiService.MockProductShape` | src/services/ApiService.js:126-169 | item i has id `mock-` + (i+1), category `categories[i mod 8]`, brand `Brand ` + (i div 10 + 1), gtin `82541` + i padded to 7 digits, name pool entry + ` ` + (i div 40 + 1); its image seed is the number in its id; its selling unit is `nos` and its features the fixed mock list |
| `ApiService.MockNamePool` | src/services/ApiService.js:131-147 | categories 0 and 1 draw names from the household pool; electronics, food and personal care use their own pools; the other three use the 40-name combined list |
| `ApiService.MockIdMarked` | src/services/ApiService.js:150 | every mock id starts with `mock-`, and the rest of it reads back as i+1 |
| `ApiService.MockIdsDistinct` | src/services/ApiService.js:150 | no two catalog items share an id |
| `ApiService.MockGtinEncodesIndex` | src/services/ApiService.js:166 | the gtin starts with `82541`, its digits after that read back as i, and it is 12 characters long for i below 10^7 |
| `ApiService.MockRandomFieldsBounded` | src/services/ApiService.js:152-158 | with draws in range, price is in [10, 509], stock in [1, 100] and rating at most 5.0 |
| `ApiService.FilterBySearch` | src/services/ApiService.js:65-70 | keeps exactly the products whose lower-cased name or brand contains the lower-cased search, each as often as in the input, in input order; an empty search keeps all |
| `ApiService.FilterByCategory` | src/services/ApiService.js:72-76 | keeps exactly the products of that category, each as often as in the input, in order; an empty category keeps all |
| `ApiService.FilteredMockProductsExact` | src/services/ApiService.js:62-76 | the filtered catalog is an order-preserving subsequence of the catalog holding exactly the items that pass both filters, each as often as in the catalog |
| `ApiService.CeilDiv` | src/services/ApiService.js:85 | the fewest pages of size d that hold n items: q·d ≥ n and (q−1)·d < n, and q is 0 only for n = 0 |
| `ApiService.Paginate` | src/services/ApiService.js:78-87 | the page is `filtered[(page−1)·limit .. min(start+limit, total))`, empty past the end; total is the filtered length; totalPages is the ceiling of total over limit; currentPageResults is the page length, at most limit |
| `ApiService.GetMockData` | src/services/ApiService.js:60-88 | the result is that page of the filtered mock catalog, with those counts |
| `ApiService.MockPageMatchesFilters` | src/services/ApiService.js:65-79 | every product on a mock page comes from the catalog and passes the search and the category filter |
| `ApiService.MockPageMarked` | src/services/ApiService.js:60-88 | every product on a mock page has an id starting with `mock-` |
| `ApiService.MockPageThree` | src/services/ApiService.js:78-85 | without filters, page 3 of size 20 is catalog items 40..59, of 200 in 10 pages |
| `ApiService.TransformProduct` | src/services/ApiService.js:30-49 | name and gtin are passed through and the features are the fixed list; description is the upstream description, else the derived one, else `High-quality <name> with excellent features.`; image is the front image, else a placeholder seeded by the gtin |
| `ApiService.TransformProductRules` | src/services/ApiService.js:30-49 | id is the upstream id, else the gtin; category is the main category, else `General`; brand is brand, else company brand, else `Generic Brand`; sellingUnit is the upstream unit, else `nos`; isLocalProduct holds iff the flag is `Yes` |
| `ApiService.TransformRandomFieldsBounded` | src/services/ApiService.js:33-39 | stock is always drawn in [1, 100]; price is the upstream price when present and non-zero, else drawn in [10, 509] |
| `ApiService.TransformApiResponse` | src/services/ApiService.js:28-58 | one product per upstream record, in order, none when `products` is absent; total is the parsed totalResults when present and non-zero, else the product count; page, totalPages and currentPageResults are the parsed upstream values when present and non-zero, else the requested page, the ceiling of the count over the limit, and the count |
| `ApiService.FetchProducts` | src/services/ApiService.js:2-26 | a successful response gives the normalised records; a non-ok status, a network error or an unreadable body gives exactly `getMockData` with the same arguments, which is the filtered mock window |
| `ApiService.FallbackFirstPage` | src/services/ApiService.js:22-24 | with a failing transport, page 1 of size 20 holds 20 products, all with `mock-` ids, out of 200 in 10 pages |
| `StorageHelper.KeyValueStore.constructor` | src/services/StorageHelper.js:2 | the store starts empty |
| `StorageHelper.KeyValueStore.SetItem` | src/services/StorageHelper.js:4-11 | the key now holds the value with its timestamp, every other key reads as before, and a value that cannot be encoded leaves the store unchanged |
| `StorageHelper.KeyValueStore.GetItem` | src/services/StorageHelper.js:13-23 | returns the stored value without its timestamp, or null when the key is absent |
| `StorageHelper.KeyValueStore.RemoveItem` | src/services/StorageHelper.js:25-31 | the key is gone and every other key reads as before |
| `StorageHelper.GetAfterSet` | src/services/StorageHelper.js:4-18 | reading a key right after writing it returns the value written |
| `StorageHelper.SetFramesOtherKeys` | src/services/StorageHelper.js:7 | a write does not change what any other key reads |
| `StorageHelper.SetOverwrites` | src/services/StorageHelper.js:7 | a second write to a key replaces the first completely |
| `StorageHelper.TimestampNotObservable` | src/services/StorageHelper.js:6-18 | two writes that differ only in timestamp read the same at every key |
| `StorageHelper.RemoveProperties` | src/services/StorageHelper.js:25-31 | a removed key reads null; removing twice equals removing once; removing an absent key changes nothing; other keys are framed |
| `StorageHelper.EmptyStoreReadsNull` | src/services/StorageHelper.js:15-16 | a key never written reads null |
| `Dashboard.UsingMockData` | src/components/Dashboard.js:86 | true iff some product id on the page starts with `mock-` |
| `Dashboard.FallbackIsOffline` | src/components/Dashboard.js:86-87 | after a failed fetch, the offline flag is set exactly when the fallback page has rows |
| `Dashboard.UpstreamIsOnline` | src/components/Dashboard.js:86-87 | upstream records whose ids and gtins lack the marker never set the offline flag |
| `Dashboard.SortKeyFields` | src/components/Dashboard.js:94-101 | the value compared for a field: price and stock as their numbers, rating by its tenths, the local flag as 1 or 0, and name, brand, category and id as the strings they hold |
| `Dashboard.RatingKeyMatchesText` | src/components/Dashboard.js:94-107 | for ratings up to 5.0, comparing their tenths agrees with comparing their one-decimal strings with `>` |
| `Dashboard.Compare` | src/components/Dashboard.js:93-108 | the comparator answers 1 or −1, never 0, and answers −1 exactly when the first product may stand before the second: not greater for `asc`, not smaller otherwise |
| `Dashboard.CompareEqualKeys` | src/components/Dashboard.js:103-107 | on equal keys the comparator answers −1 in both orders, so it promises no order among them |
| `Dashboard.InOrderTotal` | src/components/Dashboard.js:103-107 | for any two products, one of the two orders is allowed by the comparator |
| `Dashboard.OrderedPairwise` | src/components/Dashboard.js:93-108 | a page ordered between neighbours is ordered between any two positions: non-decreasing for `asc`, non-increasing otherwise |
| `Dashboard.SortInPlace` | src/components/Dashboard.js:93-108 | after the in-place sort the array is ordered by the field's key in the direction given and is a permutation of what it held |
| `Dashboard.SortByPriceExample` | src/components/Dashboard.js:93-108 | prices 30, 10, 20 come out as 10, 20, 30 ascending and as 30, 20, 10 descending |
| `Dashboard.ApplySort` | src/components/Dashboard.js:90-109 | with an empty sort model the page keeps the response order; otherwise it is ordered by the first entry only, and it is always a permutation of the response |
| `Dashboard.UniqueCategories` | src/components/Dashboard.js:114 | the facet holds exactly the categories on the page, each once |
| `Dashboard.UniqueCategoriesFirstOccurrence` | src/components/Dashboard.js:114 | the facet lists categories in the order of their first occurrence on the page |
| `Dashboard.RestoreState` | src/components/Dashboard.js:46-58 | saved search and category default to `''`, the sort model to `[]`, and pagination without a saved value to page 0 of size 20 |
| `Dashboard.RestoreFromEmpty` | src/components/Dashboard.js:35-58 | an empty store restores the initial state |
| `Dashboard.RestoreAfterPersist` | src/components/Dashboard.js:46-67 | what the two persist effects write is read back as the same query state |
| `Dashboard.RestoreOnMount` | src/components/Dashboard.js:46-58 | the restored state is computed from what the store holds under `dashboardFilters` and `dashboardPagination` |
| `Dashboard.PersistFilters` | src/components/Dashboard.js:61-63 | search, category and sort model are written under `dashboardFilters` |
| `Dashboard.PersistPagination` | src/components/Dashboard.js:65-67 | the pagination model is written under `dashboardPagination` |
| `Dashboard.PersistThenRestore` | src/components/Dashboard.js:46-67 | persisting a state and mounting again through the store restores that state |
| `Dashboard.LoadProducts` | src/components/Dashboard.js:70-124 | fetches page+1 with the page size unchanged; the rows are the response, sorted when a sort is set; totalRows is the response total; offline iff a `mock-` id came back; the facet is from the rows shown |
| `Dashboard.LoadFailed` | src/components/Dashboard.js:117-123 | a load that throws keeps the rows, sets the error message and the offline flag, and ends loading |

## Left out

- The per-user cart (`addToCart`, `getTotalCartValue`, `placeOrder`, …) in `src/contexts_ providers/AuthProvider.js`, and the cart routing in `CartPage.js` and `ProductDetailsPage.js`, are not part of this model.
- HTTP transport: `fetch`, CORS and `response.json()` become the `Transport` input. Building the request URL with `encodeURIComponent` is not modelled.
- `Math.random()` becomes `Draw` inputs that hold the already-floored integers. Rating is kept in tenths. The rounding of `toFixed(1)` and all `toFixed(2)` display formatting are not modelled.
- Prices and stock are integers. `Number(x) || 0` is then the identity, so the coercion of a non-numeric price to 0 is not modelled.
- `toLowerCase` is ASCII lower-casing, and `>` on strings compares characters as code points. Unicode case mapping and UTF-16 code units are not modelled.
- Upstream fields that are absent, `null` or empty are all the empty string, which is how the `||` chains treat them. A missing upstream `name` becomes `''` rather than the text `undefined`. A `null` element inside `products`, which would throw and reach the mock fallback, is not modelled.
- `JSON.stringify`/`JSON.parse` are taken to round-trip, so a record is stored as its value. An encoding failure is the `encodable` flag. A stored `undefined` value is not modelled.
- `Date.now()` is the `now` parameter.
- Dashboard.RestoreState: a value of the wrong shape under `dashboardPagination` keeps the default pagination, whereas the code would install that object as the pagination model. Only the dashboard writes that key.
- Dashboard.SortKeyFields: a missing upstream `name` (or other string field) is compared as `''`, which sorts before every other string. In the code it is `undefined`, and `>` and `<` are false against everything for it. The model likewise compares `features` as the comma-joined list and any unknown field as `''`.
- Dashboard.SortInPlace: ECMAScript leaves the result implementation-defined when the comparator is inconsistent, and this comparator answers −1 both ways on equal keys. The model fixes one algorithm (insertion by adjacent swaps) and proves order and permutation for it, not for the engine's own sort.
- Dashboard.LoadProducts: the response here always carries a numeric `total`, so the `response.total || 0` default never applies and totalRows is the total itself. The intermediate `loading` state and the reset of `error` at the start of a load are not modelled. The catch branch cannot be reached from this model, since `FetchProducts` never fails; it is `LoadFailed` on its own.
- The React effect scheduling (the persist effects also run once on mount with the initial state), the 300 ms debounce and the race between overlapping loads are timing and concurrency, and are not modelled.
- Rendering, navigation, snackbars, column definitions and the theme are UI, and are not modelled.
