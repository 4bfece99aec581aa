# ECCO merchant dashboard: a Dafny model of its data core

The dashboard shows the Google Merchant Center status of ECCO's storefronts. A Flask backend
answers `/api/merchants/global` and `/api/merchants/europe` with one envelope per region. Two
browser front ends read that envelope:

- a React front end whose shaper turns each reported merchant into a flat card record;
- an older script that builds the DOM directly. It has its own card rendering, a menu that
  picks configured stores out of the response, a European filter, a per-merchant product
  filter, a summary combiner, a region cache and a navigation handler.

This project models the data-handling core of all three parts. JSON is the datatype
`Json.Value`, and a missing property reads as `Undefined`. A JavaScript exception is the `Err`
case of `Json.Result`, so a `catch` block is modelled exactly where the code has one.
Module `JsOps` holds the JavaScript semantics the code relies on: truthiness, optional
chaining, `||`, `parseInt`, `Array.prototype.find` and `Object.entries`.

| file | module | models |
|---|---|---|
| `json.dfy` | `Json` | JSON values, `Option`, `Result` |
| `js_ops.dfy` | `JsOps` | the JavaScript operators and built-ins the front ends use |
| `merchant_shaper.dfy` | `MerchantShaper` | `frontend/src/script.js` |
| `backend.dfy` | `Backend` | `backend/app.py` |
| `legacy_dashboard.dfy` | `LegacyDashboard` | statistics, card rendering, menu selection and the navigation handler of `frontend/script.js` |
| `legacy_filters.dfy` | `LegacyFilters` | `filterMerchantData`, the filter in `fetchMerchantStatus`, and the combining step of `renderSummaryData` |
| `legacy_cache.dfy` | `LegacyCache` | `marketCardsCache` and `isCacheValid` |
| `end_to_end.dfy` | `EndToEnd` | what each front end makes of the backend's 200 bodies |

Loops and in-place updates are methods proved against a specification function:

- `CollectIssues` is the `reduce` that pushes onto one array.
- `FilterMerchantData` and `CombineSummary` are the `reduce`s that assign into an accumulator
  object.
- `GetEuropeMerchantStatuses` and `GetMerchants` are the backend's appending `for` loops.
- The cache is a class whose fields the refresh handler nulls.

The Content API is an input. `Backend.ContentApi` gives, for an account id, the response of
`accountstatuses().get` and of `accountstatuses().list`, or the message they raised.
`initialize_content_api` is a `Result<ContentApi>` parameter. `Date.now()` and
`CACHE_DURATION` are parameters of `IsCacheValid`.

In four places the code does less than a reader of the dashboard might expect. The model
follows the code:

- The React shaper takes the first product whose destination is `Shopping`, on any channel.
  It does not look for a product on both the Shopping destination and the `online` channel.
- Its card record has approved, disapproved and total counts. It has no pending count, although
  the shaper reads one.
- Cache freshness is decided by `CACHE_DURATION` alone. Nothing refreshes the cache at a fixed
  time of day.
- Counts are passed through as parsed. A negative count stays negative.

## Model

| member | source | states |
|---|---|---|
| JsOps.FindFirstShopping | frontend/src/script.js:21-23 | `find` returns the first product whose destination is Shopping. It returns undefined exactly when every product is non-null and none is Shopping. It throws exactly when a null product comes before any Shopping product. |
| MerchantShaper.ExtractMerchantStats | frontend/src/script.js:17-35 | The result is null when the products are missing or when the first Shopping product has no statistics. It throws exactly when the `find` throws. Otherwise each count is its parsed value or 0, and the total is the sum of the three when all three parse, else 0. |
| MerchantShaper.CreateMerchantCard | frontend/src/script.js:38-55 | The card throws exactly for a null merchant or a throwing `find`. Name and account id fall back to 'Unknown Merchant' and 'Unknown ID'. Status is Active exactly when the website is claimed. Counts come from the extracted statistics or are 0. Item-level issues are the Shopping product's, or empty. |
| MerchantShaper.CardsFor | frontend/src/script.js:65 | The map succeeds exactly when every merchant's card does. It then has one card per merchant, in order. |
| MerchantShaper.UpdateMerchantDisplay | frontend/src/script.js:58-70 | A falsy response gives no cards. A region `data` array whose cards all build gives exactly those cards, in order. Anything else, a throw included, gives no cards. |
| MerchantShaper.NoEnvelopeNoCards | frontend/src/script.js:61-64 | A null response, or one without the region's `ECCO <REGION>` envelope, shows no card. |
| MerchantShaper.SampleMerchantCard | frontend/src/script.js:17-55 | A claimed merchant with Shopping counts 10, 2 and 1 becomes an Active card with total 13. |
| Backend.EntryJson | backend/app.py:50-59 | Every reported merchant is a two-key dictionary with its name and exactly one of `data` and `error`. |
| Backend.GetGlobalMerchantStatus | backend/app.py:42-59 | The entry carries the configured name. It holds `data` exactly when the account-status call succeeded, else the raised message. |
| Backend.GlobalEntriesFollowConfiguration | backend/app.py:99-103 | The global branch reports the three configured merchants, in order, each under its configured name. |
| Backend.FindStatus | backend/app.py:73-76 | The lookup fails exactly when a non-dictionary resource comes before any dictionary carrying the merchant's id, and the failure is an AttributeError. No status is found exactly when every resource is a dictionary with another `accountId`. |
| Backend.FirstMatchIsFound | backend/app.py:73-76 | When the first resource carrying the merchant's id has only dictionaries before it, that resource is the status found. |
| Backend.FindStatusIsFirstMatch | backend/app.py:73-76 | A found status is the first resource carrying the merchant's id, and every resource before it is a dictionary. |
| Backend.FoundStatusIsTruthy | backend/app.py:78-82 | A found status is a non-empty dictionary, so it always takes the `data` branch. |
| Backend.GetEuropeMerchantStatuses | backend/app.py:61-92 | The loop returns what `EuropeStatuses` specifies: the listing's error, an AttributeError from a lookup, or one entry per configured merchant. |
| Backend.EuropeStatusesFollowConfiguration | backend/app.py:72-87 | A successful run reports every configured European merchant in order, under its name. It carries 'Status not found' when no resource matches, and otherwise the first matching resource. Whenever a first matching resource exists, that resource is the entry's `data`. |
| Backend.NoResourcesAllErrors | backend/app.py:69-76 | A listing without `resources` counts as empty, so no merchant's status is found. |
| Backend.GetMerchants | backend/app.py:94-124 | A failed initialisation gives 500 with 'Server error: ' and the message. 'global' gives 200 with the `ECCO GLOBAL` envelope of all configured merchants. 'europe' gives 200 with the `ECCO EUROPE` envelope, or 500 when the Europe lookup raises. Any other region gives 400 'Invalid region'. |
| LegacyDashboard.GetProductStatistics | frontend/script.js:456-466 | `approved` is the Shopping product's parsed `active` count and `disapproved` its parsed `disapproved` count, each defaulting to 0. Both are 0 without a Shopping product or its statistics. It throws exactly when the `find` throws. |
| LegacyDashboard.CollectIssues | frontend/script.js:161-166 | The push loop yields exactly `IssuesOf`: every product's item-level issues, in product order. It throws on a null product or a non-iterable issue list. |
| LegacyDashboard.IssuesOfAppend | frontend/script.js:161-166 | The issues of two product lists joined are the first list's issues followed by the second's. |
| LegacyDashboard.IssuesOfOne | frontend/script.js:162-164 | A product contributes its own issue array unchanged, or nothing when it has none. |
| LegacyDashboard.CriticalCount | frontend/script.js:169 | The count is the number of issues whose servability is 'disapproved', so at most the number of issues. It is 0 exactly when none is disapproved and equals the total exactly when all are. It throws exactly on a null issue. |
| LegacyDashboard.DisapprovedTallyAppend | frontend/script.js:169 | The disapproved count of two issue lists joined is the sum of their counts. |
| LegacyDashboard.CriticalCountOne | frontend/script.js:169 | A single non-null issue counts 1 when it is disapproved and 0 otherwise. |
| LegacyDashboard.RenderMerchantCard | frontend/script.js:156-219 | A card shows the first product's active and disapproved statistics and the number of disapproved issues across all products. The red border and the attention banner appear exactly when that number is positive. It throws for null data or non-array products. |
| LegacyDashboard.RenderMerchantCardThrows | frontend/script.js:156-219 | The card throws exactly when one of these holds: the data is null; its products are not an array or are empty; the first product is null; the issue aggregation or the disapproved count throws; or the first product's statistics are null. |
| LegacyDashboard.PresentMerchants | frontend/script.js:272-280 | There are never more present merchants than configured ones. |
| LegacyDashboard.PresentMerchantsMembers | frontend/script.js:272-280 | A configured merchant is kept exactly when the data has a truthy entry under its name. |
| LegacyDashboard.NothingPresent | frontend/script.js:272-283 | When no configured name has an entry, no merchant is present. |
| LegacyDashboard.PresentMerchantsAppend | frontend/script.js:272-280 | Presence keeps configuration order across a split configuration. |
| LegacyDashboard.RenderPresent | frontend/script.js:272-281 | There is one rendered card per present merchant, carrying that merchant's name, in configuration order. Nothing present gives no cards. |
| LegacyDashboard.RenderPresentSucceeds | frontend/script.js:272-281 | Rendering throws exactly when the card of some present merchant throws. |
| LegacyDashboard.RenderPresentCards | frontend/script.js:272-281 | Each rendered card is exactly the card `renderMerchantCard` builds for the present merchant at that position. |
| LegacyDashboard.MenuSelection | frontend/script.js:267-300 | A failed fetch or an unknown region shows the error message. Otherwise the content is decided by the region's configuration. |
| LegacyDashboard.MenuFor | frontend/script.js:272-299 | 'No merchants found' shows exactly when the data is not null and no configured merchant is present. The error message shows exactly when the data is null or rendering throws. Otherwise the container holds the rendered cards: one per present merchant, by name, in configuration order. |
| LegacyDashboard.NavStatsOf | frontend/script.js:722-748 | Each figure is the first product's statistic when truthy, else 0. With no statistics all four are 0. It throws exactly when the merchant or its products are null. |
| LegacyDashboard.NavEuropeView | frontend/script.js:717-766 | 'No merchants found for Europe' shows exactly when the fetch succeeded and `ECCO EU` is missing or has no keys. The error view shows exactly when the fetch failed or, with `ECCO EU` non-empty, some entry's statistics throw. Otherwise there is one card per key of that entry, holding that entry's statistics. |
| LegacyFilters.EuropeanSelectionKeys | frontend/script.js:531-541 | The filtered object holds only keys of the input that are listed European merchants of the multi-client account, with their values unchanged. Every such key is kept. |
| LegacyFilters.FilterMerchantData | frontend/script.js:521-552 | Outside 'europe' the data is unchanged. For 'europe', `Object.keys(null)` throws, and a null listed merchant throws. Otherwise the result is the European selection, or the original data when nothing qualifies. |
| LegacyFilters.PrototypeKeyPassesFilter | frontend/script.js:532 | As written, an input key named 'constructor' passes the European filter and stays in its result. Filtering by the table's own keys keeps only 'ECCO GB'. |
| LegacyFilters.FilterProducts | frontend/script.js:571-575 | The filter never keeps more products than given. It throws exactly on a null product. |
| LegacyFilters.FilterProductsMembers | frontend/script.js:571-575 | The filter keeps exactly the given products of the country on the Shopping destination's online channel. |
| LegacyFilters.FilterProductsAppend | frontend/script.js:571-575 | The product filter keeps order across a split list. |
| LegacyFilters.ShapeMerchantStatus | frontend/script.js:555-581 | The result is null for a failed request, a missing merchant, another account, non-array products or a throw. Otherwise the merchant's other fields are kept and `products` holds exactly the filtered products. |
| LegacyFilters.SummaryEntry | frontend/script.js:591-595 | A merchant enters the summary exactly when its shaped data has at least one product. It enters as the pair of its name and that data. |
| LegacyFilters.SummaryResults | frontend/script.js:590-599 | There is one result per configured European merchant. |
| LegacyFilters.CombinedKeys | frontend/script.js:602-607 | The combined object's keys are exactly the names of the non-null results. |
| LegacyFilters.CombinedValues | frontend/script.js:602-607 | With distinct names, each non-null result sits in the combined object under its name. |
| LegacyFilters.CombineSummary | frontend/script.js:602-611 | The accumulation loop yields the combined object, or throws 'No European merchant data available' when it is empty. |
| LegacyFilters.SummaryEntryShowsListedProducts | frontend/script.js:565-595 | What a merchant contributes belongs to the multi-client account and has at least one product, each of its country on Shopping online. |
| LegacyFilters.EuropeanSummaryShowsOnlyListedProducts | frontend/script.js:590-611 | Every merchant in the European summary is a configured one and shows only its own country's Shopping online products. |
| LegacyCache.MarketCardsCache.constructor | frontend/script.js:5-9 | The cache starts with both regions and the last-update time null. |
| LegacyCache.MarketCardsCache.IsCacheValid | frontend/script.js:500-504 | A region is valid only when it has an entry, and then exactly while the entry is younger than the duration. |
| LegacyCache.MarketCardsCache.Clear | frontend/script.js:381-384 | The refresh nulls both regions and the last-update time. Afterwards no region is valid at any time. |
| LegacyCache.ValidityExpires | frontend/script.js:500-504 | Validity only decreases over time and ends once the duration has passed. |
| EndToEnd.RegionKeyMatchesBackend | frontend/src/script.js:64 | The React shaper reads exactly the envelope key the backend writes for 'global' and for 'europe'. |
| EndToEnd.ErrorEntryCard | frontend/src/script.js:46-54 | A merchant the backend reports with an error becomes an Inactive card with its name, 'Unknown ID', zero counts and no issues. |
| EndToEnd.BackendMerchantsFound | frontend/src/script.js:64 | The React shaper finds the backend's merchant list, one dictionary per reported merchant, under the region's envelope. |
| EndToEnd.EntryCardName | frontend/src/script.js:47 | A reported merchant's card carries the name the backend reported. |
| EndToEnd.DisplayOfBackendBody | frontend/src/script.js:58-70 | On a backend 200 body there is either no card or one card per reported merchant, in order and by name. |
| EndToEnd.DisplayOfErrorEntries | frontend/src/script.js:58-70 | When every merchant is reported with an error, the cards are exactly one error card per merchant, in order. |
| EndToEnd.LegacyMenuFindsNoMerchants | frontend/script.js:272-291 | Given a backend 200 body, the older menu finds none of its configured stores and shows 'No merchants found'. |
| EndToEnd.NavigationFindsNoMerchants | frontend/script.js:717-761 | Given the backend's Europe body, the navigation handler shows 'No merchants found for Europe'. |

## Left out

- Network and DOM. `fetch`, `response.ok`, `response.json()`, `fetchWithTimeout`, `fetchRegionData`, the HTML strings, styles and event wiring are left out. A fetch outcome is an input: `Null` for the React wrapper's failure, and `Err` for a rejected promise in the older script.
- Backend runtime. The Flask app, CORS headers, logging, the `/health` route and the credential handling in `initialize_content_api` are left out. Initialisation is a `Result` parameter.
- Exception text. Exceptions raised by the JavaScript and Python code itself are reduced to their class names ('TypeError', 'AttributeError'). The Content API's raised message is passed through as given.
- Numbers. They are integers. `parseInt` is modelled for integers and for strings that are exactly an optional sign followed by decimal digits. Any other string parses to NaN in the model, so its count becomes 0. JavaScript reads the numeric prefix after leading whitespace instead: `parseInt("10 ")` and `parseInt(" 10")` are 10, while the model gives 0. An array also parses to NaN in the model, while JavaScript parses its string form (`parseInt([10])` is 10). Fractions and exponents are not modelled either.
- Case conversion. `toUpperCase` is modelled for ASCII letters only.
- Key order. Object key order is not modelled, because objects are maps. This covers the order of the navigation cards and of the filtered and combined objects.
- Inherited properties. Property reads see own keys only. Every key the core reads is a fixed merchant, region or field name, except in `filterMerchantData`, whose inherited names are modelled in `FilterMerchantDataAsWritten`.
- Array keys. Reading an array by a numeric-string key (for example `data[merchantId]` on an array response) gives undefined in the model.
- Concurrency. `Promise.all` and the `async` scheduling of `renderSummaryData` are left out. Results are taken in `EUROPEAN_MERCHANTS` order, as `Promise.all` returns them.
- `renderSummaryData`'s global branch and `createSummaryTable` are left out. `createSummaryTable` is not defined in `frontend/script.js`, so the model stops at the combined object.
- `CACHE_DURATION` and `FETCH_TIMEOUT` are not defined in `frontend/script.js`. `CACHE_DURATION` is a parameter.
- Cache contents. Nothing in the script stores a cache entry, so an entry is modelled by its `timestamp` alone. `preloadAllData` is not modelled because nothing calls it.
- LegacyCache.MarketCardsCache.IsCacheValid: the region is one of 'global' and 'europe', the only regions the script passes. Other keys of the cache object are not modelled.
- React components. `App.jsx`, `Dashboard.jsx`, `MerchantCard.jsx`, `Sidebar.jsx`, `api.js`, `theme.js` and `build.js` are not part of this model.
- Other older-script UI functions. `selectRegion`, `createSection`, `addRefreshButton` (apart from the cache clear), `addLastUpdateDisplay` and `updateLastFetchTime` are only DOM work and are not modelled.

## Findings

| source | as written | input that shows it | evidently intended | confidence | as-written member | corrected member |
|---|---|---|---|---|---|---|
| frontend/script.js:532 | The filter keeps a key when `europeanMerchants[key]` is truthy. That is also true for names every object inherits, such as 'constructor' and 'toString'. | `filterMerchantData('europe', {"ECCO GB": {"accountId": "117117533"}, "constructor": {"accountId": "117117533"}})` keeps both keys. | Keep only the three listed merchants, i.e. the table's own keys. | high; not executed | LegacyFilters.PrototypeKeyPassesFilter | LegacyFilters.FilterMerchantData |
