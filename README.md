# Recipe finder: the API access layer, modelled in Dafny

This project models the API access layer of a browser recipe-search client
for TheMealDB, and the ingredient list of its recipe page, and proves
properties of both. The access layer is `src/utils/api.js`:

- **Response cache.** `apiCall` keeps a module-level map from endpoint to
  `{data, timestamp}`. A live entry (strictly younger than five minutes) is
  served without a request. A stale entry is deleted before the request. A
  successful, truthy body is stored only when caching is on.
- **Error classification.** A cancellation (`name === 'CanceledError'` or
  `code === 'ERR_CANCELED'`) is re-thrown as it is. Anything else becomes an
  `ApiError(message, status, endpoint)`. Its status is `response.status`, or
  0 when there is no response. Its message comes from a fallback chain.
- **Public wrappers.** `getMealsBySearch`, `getMealById`, `getRandomMeal` and
  `getRandomMeals` shape the JSON (`meals || []`, `meals?.[0] || null`). They
  swallow every error except one named `CanceledError`. `getRandomMeals`
  joins its settled requests and keeps the fulfilled, truthy values in
  request order.

Files:

- `JsValues.dfy` (module `JsValues`) holds the JavaScript semantics the code
  relies on: JSON values, truthiness, `||`, `?.` property access,
  `String.prototype.trim` and the decimal digits of a template string.
- `Api.dfy` (module `Api`) holds the layer itself.
- `RecipeDetails.dfy` (module `RecipeDetails`) holds the ingredient list of
  `src/pages/RecipeDetails.jsx`.

The module-level cache becomes the field `cache` of class `Api.Client`.
`ApiCall`, `GetMealById`, `ClearCache` and `CacheSize` are its methods, and
each one updates or reads that map. `ApiCall` and `GetMealById` are proved against the pure function
`Api.ApiStep`. That function gives the result, the new map, and
whether the network was reached. The properties are proved about
`Api.ApiStep`. The wrappers that do not use the cache, and the join, are pure
functions.

The transport is an oracle. Each call that reaches the network is given the
outcome axios would have produced: `Received(status, data)`, or
`Rejected(error)` with the error's `name`, `code`, `message` and `response`.
`Date.now()` becomes two parameters. `now` is the reading used for the
expiry check (api.js:30). `storeTime` is the timestamp of a stored entry
(api.js:48), because the code reads the clock a second time after the
request.

## Model

| member | source | states |
|---|---|---|
| `Api.FailureStatus` | src/utils/api.js:58 | the status is the response's status, or 0 when there is no response |
| `Api.FailureMessage` | src/utils/api.js:59 | the message is `response.data.message` when that is truthy, else the error's own non-empty message, else 'API request failed'; it is always truthy |
| `Api.Classify` | src/utils/api.js:53-61 | a cancellation by name or by code is re-thrown unwrapped (both directions); every other error becomes an ApiError that names the endpoint, with the status and message above; the no-data error keeps its status (corrected, see Findings) |
| `Api.ClassifyAsWritten` | src/utils/api.js:40-61 | as the code stands, the no-data ApiError reaches the same catch and leaves it with status 0; transport errors are classified as by `Classify` |
| `Api.NoDataStatusLostAsWritten` | src/utils/api.js:41-60 | a 204 response with an empty body yields status 0 as written and 204 once corrected |
| `Api.Fetch` | src/utils/api.js:36-61 | the request part of `apiCall` succeeds exactly when the body is truthy, and then returns that body; a falsy body is 'No data received' with the response's status (the corrected catch; as written the status is 0, see Findings); a rejection is classified; a re-thrown cancellation is the transport's own error |
| `Api.ApiStep` | src/utils/api.js:24-62 | a hit (caching on, key present, younger than 300000 ms) returns the cached data, makes no request and leaves the map unchanged; otherwise the request is made; with caching off the map is untouched; a success with caching on stores `{data, storeTime}` under the endpoint and keeps every other key; a failure stores nothing and leaves the stale entry deleted; only truthy data is ever cached or returned |
| `Api.RepeatWithinDurationIsServedFromCache` | src/utils/api.js:28-49 | a second cached call within five minutes of the stored timestamp is a hit: two calls, one request |
| `Api.CallAfterDurationRefetches` | src/utils/api.js:28-49 | a cached call five minutes or more after the stored timestamp makes a new request; on success it overwrites the entry with the new body and timestamp, and on failure the entry is gone |
| `Api.OtherEndpointsKeepEntry` | src/utils/api.js:25-49 | a call to one endpoint never changes the entry of another |
| `Api.UncachedCallIgnoresCache` | src/utils/api.js:28-50 | with caching off the outcome is the request's alone, whatever the map holds, and the map is returned unchanged |
| `Api.LookupEndpointInjective` | src/utils/api.js:97 | distinct ids give distinct cache keys |
| `Api.BlankQueryIsAllSpace` | src/utils/api.js:71 | a query is blank exactly when it is absent or entirely white space (empty included) |
| `Api.Swallow` | src/utils/api.js:78-82 | a wrapper re-throws exactly the errors named 'CanceledError', unchanged, and returns its fallback for every other error |
| `Api.MealList` | src/utils/api.js:77-82 | `data.meals` when truthy (an array of meals in particular), `[]` when it is null or missing, `[]` on a swallowed error; the value returned is always truthy |
| `Api.FirstMeal` | src/utils/api.js:98-103 | the first meal when `meals` is an array with a truthy first element; null when `meals` is null, missing or empty, or its first element is falsy; null on a swallowed error |
| `Api.MealsBySearch` | src/utils/api.js:70-83 | a blank query returns `[]` without a request; otherwise one uncached request; it rejects exactly when the transport rejected with name 'CanceledError', so an error that only has the 'ERR_CANCELED' code is swallowed into `[]`; a falsy body or any other failure gives `[]` |
| `Api.RandomMeal` | src/utils/api.js:111-120 | one uncached request to '/random.php'; it rejects exactly on a 'CanceledError'; it returns a truthy meal or null |
| `Api.MealResponseYieldsMeal` | src/utils/api.js:113-114 | a response whose `meals` is `[meal]` with a truthy meal returns that meal |
| `Api.RequestCount` | src/utils/api.js:130-132 | `Array.from({length: count})` makes `count` requests for `0 <= count <= 2^32-1`, none above that, and never more than `count` |
| `Api.Join` | src/utils/api.js:135-137 | the join is no longer than the settled list and holds only truthy values |
| `Api.KeptIndices` | src/utils/api.js:136 | the positions that pass the filter are increasing, each is fulfilled with a truthy value, and every such position is among them |
| `Api.JoinIsKeptInOrder` | src/utils/api.js:135-137 | the k-th joined value is the value at the k-th kept position: exactly the fulfilled, truthy values in request order |
| `Api.JoinKeepsAllWhenAllKept` | src/utils/api.js:135-137 | when every request is fulfilled with a meal, all of them are returned in order |
| `Api.SettleAll` | src/utils/api.js:130-134 | one settled outcome per request, in request order, each being `getRandomMeal`'s outcome |
| `Api.RandomMeals` | src/utils/api.js:128-142 | the result has no error case (it never throws), is at most `count` long, holds only truthy meals, is `[]` when `count > 2^32-1`, and is the join of the settled requests |
| `Api.RandomMealsKeepsEveryMealInOrder` | src/utils/api.js:128-141 | every returned meal comes from a request that yielded one, in request order, and every request that yielded a meal contributes it |
| `Api.JoinOfEightWithTwoGaps` | src/utils/api.js:134-137 | a join of eight results in which two are not kept gives the other six, in order |
| `Api.EightRequestsTwoFailuresGiveSix` | src/utils/api.js:128-141 | `getRandomMeals(8)` with two failed requests returns the six meals in order and does not throw |
| `Api.ClearedCacheMisses` | src/utils/api.js:147-149 | after the cache is cleared, every call makes a request |
| `Api.Client.constructor` | src/utils/api.js:14 | the cache starts empty |
| `Api.Client.ApiCall` | src/utils/api.js:24-62 | the result and the new map are those of `ApiStep` on the old map; the cache keeps only truthy data |
| `Api.Client.GetMealById` | src/utils/api.js:91-104 | a missing or empty id returns null with no request and no change to the map; otherwise one cached call on '/lookup.php?i=' + id, shaped by `FirstMeal`; only a 'CanceledError' propagates |
| `Api.Client.ClearCache` | src/utils/api.js:147-149 | the map is empty afterwards (its size is 0) |
| `Api.Client.CacheSize` | src/utils/api.js:154 | the number of cached endpoints |
| `JsValues.TrimEmptyIffAllSpace` | src/utils/api.js:71 | `s.trim()` is empty exactly when every character of `s` is white space |
| `RecipeDetails.Items` | src/pages/RecipeDetails.jsx:66-68 | exactly 20 items; position i holds what the callback reads for index i + 1 |
| `RecipeDetails.RenderFrom` | src/pages/RecipeDetails.jsx:66-74 | the lines from a position on lie beyond it, are at most as many as the remaining indices, and their indices increase strictly |
| `RecipeDetails.RenderFromError` | src/pages/RecipeDetails.jsx:67-69 | the `.map` callback throws exactly when a later item is a truthy non-string, and at the first one |
| `RecipeDetails.RenderFromContent` | src/pages/RecipeDetails.jsx:68-72 | each line holds the listed ingredient and the measure of its own index |
| `RecipeDetails.RenderFromComplete` | src/pages/RecipeDetails.jsx:66-74 | every listed item has a line |
| `RecipeDetails.SlotOfMeans` | src/pages/RecipeDetails.jsx:69 | an ingredient is listed exactly when it is a string that does not trim to ""; `trim` throws exactly on a truthy non-string |
| `RecipeDetails.Ingredients` | src/pages/RecipeDetails.jsx:66-74 | at most 20 lines, the indices 1 to 20 only, in strictly increasing order |
| `RecipeDetails.IngredientsAreTheListedPairs` | src/pages/RecipeDetails.jsx:66-74 | index n has a line exactly when `strIngredient{n}` is a string that does not trim to ""; the line holds that string untrimmed and `strMeasure{n}` unchanged, even when it is missing or blank; the `.map` callback throws exactly when some ingredient is a truthy non-string, and at the first one |

## Left out

- `src/utils/axiosInstance.js` is not part of this model. Its base URL, its 10-second timeout and its interceptors only log. A timeout or a network failure appears here as a `Rejected` transport error like any other.
- The `AbortSignal` is not modelled. Its only effect is on the transport's outcome, and that outcome is given.
- Real asynchrony is not modelled. Each `apiCall` is one atomic step. Two overlapping calls to the same endpoint could interleave between the eviction and the store; that interleaving is not modelled. `Promise.allSettled` is a list of settled outcomes in request order.
- `console.error` logging is not modelled.
- `encodeURIComponent` is taken as a function parameter of `MealsBySearch`.
- Numbers are integers. Floating point and `NaN` are not modelled.
- Property access on strings and arrays (`length`, numeric keys) reads as `undefined`. `[0]` is the one exception. None of the keys used here are such properties.
- The string conversion performed by the `Error` constructor is not modelled. `ApiError.message` holds the value it was built from.
- Queries and ids are strings or absent. A non-string query would make `query.trim` throw; that case is not modelled.
- `apiCall`'s default `useCache = true` is not modelled, because every caller passes it explicitly. `getRandomMeals`' default count of 8 is the constant `DefaultRandomCount`.
- `getRandomMeals`' catch block can only be reached by the RangeError of `Array.from` when `count > 2^32-1`. In that case no request is made and `[]` is returned; `RequestCount` and `RandomMeals` state both.
- The React components and pages are not modelled: Header, Footer, Modal, Loader, ErrorBoundary, RecipeList, RecipeCard, the App routing, and the loading and not-found rendering of RecipeDetails. They are UI only.
- `src/components/SearchBar.jsx` and `src/pages/Home.jsx` are not modelled. They call axios directly, not this layer. The nested `fetchRandomMeals` in `Home.jsx` is never invoked.
- There is no debounced search controller in these files, so none is modelled.
- `getMealById` returns null for every error except a 'CanceledError'; it never re-raises a request failure.
- There is no finer error taxonomy (timeout, network, HTTP status): every error other than a cancellation becomes one `ApiError`.
- Api.Fetch: it, `Api.ApiStep` and `Api.Client.ApiCall` use the corrected no-data classification, so a falsy body is rejected with the response's status; as written the status is 0 (see Findings). Only `console.error` sees the difference, because every wrapper swallows the ApiError.
- React's own rejection of a plain object as a child is not modelled: a `strMeasure{n}` that is an object makes React throw while rendering, while the model lists the line. `RenderError` covers only throws of the `.map` callback itself.
- Dafny strings are sequences of Unicode scalar values, while JavaScript strings are UTF-16 code units. So a query holding a lone surrogate, for which `encodeURIComponent` throws a URIError inside the `try` of `getMealsBySearch` (returning `[]` without a request), is not modelled, and `Index0` of a string takes its first scalar value where JavaScript takes its first code unit.

## Findings

| source | as written | input that shows it | evidently intended | confidence | as-written member | corrected member |
|---|---|---|---|---|---|---|
| src/utils/api.js:41-60 | The "No data received" ApiError thrown at line 41 inside the `try` is caught by the same function's `catch`. There it is rebuilt with `error.response?.status \|\| 0`. An ApiError has no `response`, so the status passed at line 41 becomes 0. | A 204 response with an empty body on `/lookup.php?i=52771` is rejected with an ApiError of status 0. | The response's status (204) reaches the caller, with the message 'No data received'. | medium; not executed; in this repository the status reaches only `console.error`, because `apiCall` is not exported | `Api.ClassifyAsWritten`, shown by `Api.NoDataStatusLostAsWritten` | `Api.Classify` |
