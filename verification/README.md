# Stock and price validator: a verified Dafny model

This project models the core of a product-aggregation service. For a SKU
(stock-keeping unit, the product key), the service asks several vendors for
price and stock. It normalises each vendor's record format into one product
record and drops records that are stale or have a price that is not positive.
Then it picks one best offer. The model covers these parts:

- the record types and the price validator (`Models`);
- the current normaliser for vendors A, B and C and its selector with the 10%
  price-spread rule (`CoreNormalizer`, built on `Selection`);
- the older normaliser and selector that the aggregation service actually
  calls (`LegacyNormalizer`, `Service`);
- the per-vendor circuit breaker (`CircuitBreakers`);
- the per-API-key, per-minute rate limiter and its HTTP decisions
  (`RateLimiting`);
- the background job statistics: request popularity, the top-SKU ranking,
  vendor call tallies, prewarm counting, and the performance report with its
  reset (`Jobs`, built on `Ranking`);
- SKU validation and error mapping in the controller (`ProductController`),
  and response rendering (`ProductView`).

Time is whole seconds since the Unix epoch, and every "now" is a parameter.
Prices are reals. Python's `float()`, `int()` and `datetime.fromisoformat()`
are abstract partial functions, passed in as a `Conversions` value. Anything
that waits on a vendor or on the service becomes an input value: the outcome
of the call.

Stateful components are classes whose methods update fields:
`CircuitBreaker`, `RateLimitMiddleware` and `BackgroundJobManager`. Each
method is proved against a pure step function or states its new state in
full. The properties are proved about those functions.

The one place where the code and its own documentation differ is the rate
limiter, and the model follows the code:

- The rate limiter counts in fixed wall-clock-minute buckets. It does not use
  a sliding window, although app/middleware/rate_limiter.py:23 and :67 call it
  one.

Behaviour of the code that the model keeps, which a reader might not expect:

- Both selectors break ties by input order, because Python's `min`/`max` with
  a key return the first extremal element. There is no stock or price
  tie-break, and no ordering by vendor identifier.
- A failure in HALF_OPEN adds one to the failure count, which stays at or
  above the threshold, and reopens the breaker. HALF_OPEN lets every call
  through, not a single probe.
- Vendor C does not clamp a negative parsed quantity to 0.
- The service uses the older normaliser. It has no freshness check and never
  sets a source timestamp.

## Model

| member | source | states |
|---|---|---|
| Models.Status.Text | app/models.py:80 | The status is exactly "AVAILABLE" or "OUT_OF_STOCK", and "AVAILABLE" exactly for an available product |
| Models.ValidatePrice | app/models.py:59-68 | A price is accepted iff it is > 0 and is then kept unchanged; otherwise the error is "Price must be greater than 0" |
| Models.NewProduct | app/models.py:47-68 | Building a product succeeds iff the price is > 0; the fields are those given and `is_valid` defaults to true |
| Selection.InStock | app/core/normalizer.py:243-244 | The in-stock comprehension keeps exactly the products with stock > 0 |
| Selection.InStockAppend | app/normalizer.py:157-158 | The comprehension preserves input order: filtering a concatenation filters each part |
| Selection.FirstMinPriceIndex | app/core/normalizer.py:275 | `min(..., key=price)` picks a cheapest element, and every element before it is strictly dearer (first on ties) |
| Selection.FirstMaxStockIndex | app/core/normalizer.py:268 | `max(..., key=stock)` picks a best-stocked element, and every element before it has strictly less (first on ties) |
| Selection.MinPrice | app/core/normalizer.py:260 | The minimum price is attained and bounds every price from below |
| Selection.MaxPrice | app/core/normalizer.py:261 | The maximum price is attained and bounds every price from above |
| CoreNormalizer.IsFresh | app/core/normalizer.py:26-35 | A record is fresh iff it is at most 600 s old; exactly ten minutes still counts |
| CoreNormalizer.FlaggedStock | app/core/normalizer.py:60-73 | A reported count is kept, clamped at 0; a missing count gives 5 iff the availability flag is set, else 0 |
| CoreNormalizer.LowerChar | app/core/normalizer.py:203-206 | `lower()` on one ASCII character: upper-case letters map to lower case, everything else is unchanged |
| CoreNormalizer.Lower | app/core/normalizer.py:203-206 | `lower()` keeps the length, leaves no upper-case ASCII letter, and changes a character only by turning an upper-case letter into its lower-case form |
| CoreNormalizer.LowerIdempotent | app/core/normalizer.py:203-206 | Lowering twice equals lowering once, and text with no upper-case letter is returned unchanged |
| CoreNormalizer.LowerIsNo | app/core/normalizer.py:203-204 | `available.lower() == "no"` holds for exactly the four casings of "no" |
| CoreNormalizer.ParsedQty | app/core/normalizer.py:191-200 | An absent or empty quantity, or one that `int()` rejects, gives 0; otherwise the parsed value |
| CoreNormalizer.VendorCStock | app/core/normalizer.py:191-208 | "no" in any casing forces 0; a zero count with "yes" becomes 5; otherwise the parsed count, which may be negative |
| CoreNormalizer.NormalizeVendorA | app/core/normalizer.py:38-90 | A record survives iff it is fresh and its price is > 0; the product carries code, "VendorA", price, the stock rule and the timestamp |
| CoreNormalizer.NormalizeVendorB | app/core/normalizer.py:93-158 | An unparseable or stale timestamp, or a price text that `float()` rejects or that is not > 0, gives None; otherwise the product with the stock rule |
| CoreNormalizer.NormalizeVendorC | app/core/normalizer.py:161-224 | An unparseable or stale timestamp, or a cost that is not > 0, gives None; otherwise the product with vendor C's stock rule |
| CoreNormalizer.SpreadAboveTenPercentIff | app/core/normalizer.py:263-267 | The "spread above 10%" percentage test is equivalent to 10·max > 11·min |
| CoreNormalizer.WinnerIndex | app/core/normalizer.py:250-281 | One candidate wins alone; under a wide spread, the first best-stocked one; otherwise the first cheapest one |
| CoreNormalizer.SelectBestVendor | app/core/normalizer.py:243-281 | The result is None iff nothing is in stock; otherwise it is one of the in-stock products |
| CoreNormalizer.SelectSingleInStock | app/core/normalizer.py:250-257 | A single in-stock product is returned as it is |
| CoreNormalizer.SelectPicksWinner | app/core/normalizer.py:243-281 | With something in stock, the selector returns the in-stock product at the winning position |
| CoreNormalizer.SelectWideSpread | app/core/normalizer.py:259-272 | Above a 10% spread, the selector returns a product with at least the stock of every in-stock product |
| CoreNormalizer.SelectWideSpreadFirstTie | app/core/normalizer.py:259-272 | Above a 10% spread, every in-stock product before the winner has strictly less stock: ties go to the earliest |
| CoreNormalizer.SelectNarrowSpread | app/core/normalizer.py:273-281 | At a spread of 10% or less, the selector returns a product no dearer than any in-stock product |
| CoreNormalizer.SelectNarrowSpreadFirstTie | app/core/normalizer.py:273-281 | At a spread of 10% or less, every in-stock product before the winner is strictly dearer: ties go to the earliest |
| CoreNormalizerExamples.WideSpreadPrefersStock | app/core/normalizer.py:259-272 | For prices 100/102/160, the vendor with 50 units wins over the cheapest |
| CoreNormalizerExamples.TenPercentSpreadPrefersPrice | app/core/normalizer.py:267-281 | A spread of exactly 10% is not above 10%, so the cheaper vendor wins |
| CoreNormalizerExamples.NothingInStock | app/core/normalizer.py:243-248 | Zero or negative stock is never chosen |
| LegacyNormalizer.NormalizeVendorA | app/normalizer.py:24-76 | A record survives iff its price is > 0; stock is the count clamped at 0, or 5/0 by the "IN_STOCK" flag; there is no timestamp |
| LegacyNormalizer.NormalizeVendorB | app/normalizer.py:79-140 | A record survives iff `float()` accepts the price text and the price is > 0; the stock rule as for A; there is no timestamp |
| LegacyNormalizer.AgeNeverDiscards | app/normalizer.py:24-140 | Record age plays no part: any timestamps give the same outcome |
| LegacyNormalizer.SelectBestVendor | app/normalizer.py:143-172 | The result is None iff nothing is in stock; otherwise an in-stock product that no in-stock product undercuts, the first such one |
| Service.FetchFromVendorA | app/service.py:25-45 | An exception or a miss gives None; a record goes through the legacy normaliser |
| Service.FetchFromVendorB | app/service.py:47-67 | The same as for vendor A, for vendor B |
| Service.Present | app/service.py:95-97 | Exactly the results that are not None are kept |
| Service.PresentAppend | app/service.py:95-97 | Dropping the Nones keeps the order: the survivors of a + b are those of a followed by those of b |
| Service.GetProduct | app/service.py:69-109 | The lookup never fails; it is None iff no surviving product is in stock; otherwise the cheapest in-stock survivor |
| Service.NoVendorNoProduct | app/service.py:69-109 | With both vendors failing or missing, the lookup is out of stock |
| Service.EqualPriceFavoursVendorA | app/service.py:88-109 | At equal prices, vendor A's product wins, since it comes first in the gathered results |
| CircuitBreakers.CircuitState.Value | app/circuit_breaker.py:20-24 | The state's text is one of CLOSED/OPEN/HALF_OPEN, and "CLOSED" exactly for Closed |
| CircuitBreakers.AfterFailure | app/circuit_breaker.py:118-137 | A failure counts one more and records the time; from the threshold on, the breaker is OPEN and opened now |
| CircuitBreakers.Step | app/circuit_breaker.py:75-137 | The call is skipped iff OPEN inside the cooldown, and then nothing changes; a success resets to the initial fields; a failure re-raises and counts; consistency is preserved |
| CircuitBreakers.OpenRejectsDuringCooldown | app/circuit_breaker.py:90-101 | While OPEN and before the cooldown ends, a call is skipped and the state is unchanged |
| CircuitBreakers.CooldownElapsedLetsCallThrough | app/circuit_breaker.py:62-73 | Once the cooldown has elapsed (boundary included), the call goes through; a failure reopens with a fresh opening time |
| CircuitBreakers.FailureBelowThresholdStaysClosed | app/circuit_breaker.py:118-137 | A failure that stays below the threshold leaves a closed breaker CLOSED |
| CircuitBreakers.HalfOpenFailureReopens | app/circuit_breaker.py:118-137 | A failure in HALF_OPEN reopens the breaker, opened now |
| CircuitBreakers.DefaultScenario | app/circuit_breaker.py:34-55 | With threshold 3 and cooldown 30: three failures open the breaker; a call at 29 s is skipped; a success at 30 s closes it |
| CircuitBreakers.CircuitBreaker.constructor | app/circuit_breaker.py:34-55 | A new breaker is CLOSED with no failures and no times, threshold 3 and cooldown 30 by default |
| CircuitBreakers.CircuitBreaker.ShouldAttemptResetAt | app/circuit_breaker.py:62-73 | Holds iff OPEN with an opening time and the cooldown has fully elapsed |
| CircuitBreakers.CircuitBreaker.Call | app/circuit_breaker.py:75-137 | The new fields and the outcome are those of `Step` on the old fields; the breaker stays consistent |
| CircuitBreakers.CircuitBreaker.GetState | app/circuit_breaker.py:139-159 | Reports the configuration and state; elapsed and remaining cooldown only with an opening time; the remaining cooldown is never negative |
| CircuitBreakers.CircuitBreaker.Reset | app/circuit_breaker.py:161-167 | Back to the initial fields |
| RateLimiting.RateLimitKey | app/middleware/rate_limiter.py:57-69 | The counter key is the API key and the wall-clock minute that contains `now` |
| RateLimiting.SharedCounterSameMinute | app/middleware/rate_limiter.py:57-69 | Two requests share a counter only with the same API key in the same minute |
| RateLimiting.Decide | app/middleware/rate_limiter.py:83-106 | A request is allowed iff the stored count (absent reads as 0) is below the limit; an allowed request gets that count + 1, a refused one the count |
| RateLimiting.CheckStep | app/middleware/rate_limiter.py:71-106 | Decides on the live count of the current minute as far as the read succeeds; nothing is written on a refusal or a failed write; only that key is written; a written count is read back for the rest of the minute; stored counters stay valid |
| RateLimiting.RunChecks | app/middleware/rate_limiter.py:71-106 | Successive checks against a store that is reachable throughout, or not at all, give one answer per request |
| RateLimiting.BucketAdmitsUpToLimit | app/middleware/rate_limiter.py:71-106 | Within one minute, with `used` already counted, the i-th further request is admitted iff used + i < limit |
| RateLimiting.FailsOpen | app/core/cache.py:101-157 | When the read fails, every request is admitted as the first of its minute; when the write fails too, nothing is stored |
| RateLimiting.ReadFailureRestartsBucket | app/middleware/rate_limiter.py:83-99 | A full bucket refuses when read; a failed read and a successful write admit the request and overwrite the minute's count with 1 |
| RateLimiting.Respond | app/middleware/rate_limiter.py:137-165 | A refusal is a 429 with remaining 0 and retry-after 60; an admission forwards with limit, remaining = limit - count, and reset |
| RateLimiting.AdmittedRemainingNonNegative | app/middleware/rate_limiter.py:157-165 | An admitted request never sees a negative remaining count |
| RateLimiting.RateLimitMiddleware.constructor | app/middleware/rate_limiter.py:30-41 | The limit defaults to 60 per minute; the counters start empty |
| RateLimiting.RateLimitMiddleware.CheckRateLimit | app/middleware/rate_limiter.py:71-106 | The new counters and the result are those of `CheckStep` on the old counters, where the read succeeds iff a client is connected and `get` did not raise, and the write likewise for `set` |
| RateLimiting.RateLimitMiddleware.Dispatch | app/middleware/rate_limiter.py:108-165 | A missing or empty API key gives 401 without touching the counters; otherwise the check, then 429 or forward |
| Ranking.WithCountAppend | app/tasks/jobs.py:80-85 | Selecting the items of one count distributes over concatenation |
| Ranking.InsertByCount | app/tasks/jobs.py:80-84 | Insertion adds exactly the new item: the multiset grows by it |
| Ranking.InsertKeepsOrder | app/tasks/jobs.py:80-84 | Inserting into a non-increasing ranking keeps it non-increasing |
| Ranking.InsertAheadOfTies | app/tasks/jobs.py:80-84 | The inserted item goes ahead of the items with its count, and their order is unchanged |
| Ranking.InsertNoDuplicates | app/tasks/jobs.py:80-84 | Inserting a new item into a ranking without duplicates keeps it without duplicates |
| Ranking.SortByCount | app/tasks/jobs.py:80-84 | The sort is a permutation of the items |
| Ranking.SortIsOrdered | app/tasks/jobs.py:80-84 | The sort gives non-increasing counts (`reverse=True`) |
| Ranking.SortIsStable | app/tasks/jobs.py:80-84 | The sort is stable: the items of each count keep their original order |
| Ranking.SortNoDuplicates | app/tasks/jobs.py:80-84 | Sorting distinct items gives distinct items |
| Ranking.SliceLength | app/tasks/jobs.py:85 | `[:limit]` keeps min(limit, n) items of n for a limit ≥ 0; a negative limit drops min(-limit, n) items from the end |
| Ranking.TopEntries | app/tasks/jobs.py:70-85 | The top items are the slice length long, non-increasing, drawn from the input, distinct when the input is, and none left out outranks one kept |
| Ranking.PrefixOfRanking | app/tasks/jobs.py:85 | A prefix of a ranking draws from the input and outranks everything it leaves out |
| Ranking.TopEntriesKeepEarliestTies | app/tasks/jobs.py:70-85 | Among items of equal count, the kept ones are the earliest, in their original order |
| Jobs.TrackStep | app/tasks/jobs.py:45-52 | Tracking a SKU adds one to its count (a missing SKU reads as 0), leaves every other count unchanged, and keeps the statistics well formed |
| Jobs.TrackAllTallies | app/tasks/jobs.py:45-52 | After tracking a sequence of requests, each count equals the number of times that SKU was requested, and only requested SKUs are keys |
| Jobs.EntriesOfTracked | app/tasks/jobs.py:80-81 | The items are distinct, and each pairs a tracked SKU with its own count |
| Jobs.TopSkusDistinct | app/tasks/jobs.py:70-85 | The top SKUs are tracked SKUs, each listed once |
| Jobs.TopSkusOrdered | app/tasks/jobs.py:70-85 | The top SKUs come in non-increasing request count |
| Jobs.TopSkusDominate | app/tasks/jobs.py:70-85 | No SKU left out was requested more often than one kept |
| Jobs.RecordCall | app/tasks/jobs.py:54-68 | One more call and the latency added; a failure is counted iff the call failed, so failures ≤ calls is preserved |
| Jobs.TallyCountsCalls | app/tasks/jobs.py:54-68 | Since a reset, the tally is the number of calls, the number of failed calls and the latency sum, never with more failures than calls |
| Jobs.ReportFor | app/tasks/jobs.py:144-163 | A vendor without calls gets the no-calls line and no division happens; otherwise failure rate × calls = 100 × failures and success rate × calls = 100 × successes, the rates add up to 100, each within 0..100, and the average latency times the number of calls is the total latency |
| Jobs.PerformanceReport | app/tasks/jobs.py:144-163 | One report entry per vendor in order; the no-calls line exactly for vendors with zero calls; every other line carries that vendor's own calls, successes, total latency and rates |
| Jobs.CountsOfAppended | app/tasks/jobs.py:109-124 | Each further lookup adds 1 to "prewarmed" for a returned product and 1 to "failed" for an exception |
| Jobs.CountsWithinFetched | app/tasks/jobs.py:106-129 | prewarmed + failed ≤ the number of SKUs looked up |
| Jobs.BackgroundJobManager.constructor | app/tasks/jobs.py:31-43 | No requests yet; the three preset vendors at zero |
| Jobs.BackgroundJobManager.TrackRequest | app/tasks/jobs.py:45-52 | The new statistics are `TrackStep` of the old ones; the vendor tallies are unchanged |
| Jobs.BackgroundJobManager.TrackVendorCall | app/tasks/jobs.py:54-68 | An unknown vendor raises KeyError and changes nothing; otherwise only that vendor's tally is updated, by `RecordCall` |
| Jobs.BackgroundJobManager.GetTopSkus | app/tasks/jobs.py:70-85 | At most `limit` distinct tracked SKUs, most requested first; none left out outranks one kept |
| Jobs.PrewarmEach | app/tasks/jobs.py:106-124 | The loop looks up each SKU once; the counters equal the number of returned products and of exceptions, and prewarmed + failed ≤ SKUs |
| Jobs.BackgroundJobManager.PrewarmCache | app/tasks/jobs.py:87-129 | No lookup when nothing was requested; otherwise the lookups are exactly the top-10 SKUs in rank order, counted as above |
| Jobs.BackgroundJobManager.ResetVendorStats | app/tasks/jobs.py:170-177 | Every vendor's tally is back to zero, with the same vendor keys; request statistics are unchanged |
| Jobs.BackgroundJobManager.LogVendorPerformance | app/tasks/jobs.py:131-168 | The report is `PerformanceReport` of the tallies before the call, and then the tallies are reset |
| ProductController.AlnumRun | app/controllers/product_controller.py:38 | The longest prefix made of `[A-Za-z0-9]` characters |
| ProductController.BacktrackFindsAnchor | app/controllers/product_controller.py:38-39 | Backtracking over `{3,k}` succeeds iff some count from 3 to k lets `$` match |
| ProductController.ValidateSku | app/controllers/product_controller.py:23-39 | Accepts exactly 3–20 ASCII letters and digits, optionally followed by one final newline |
| ProductController.RejectsForeignCharacter | app/controllers/product_controller.py:38 | Any character outside `[A-Za-z0-9]`, other than one final newline, makes the SKU invalid |
| ProductController.RejectsLength | app/controllers/product_controller.py:38 | Fewer than 3 or more than 21 characters are always invalid |
| ProductController.AcceptsTrailingNewline | app/controllers/product_controller.py:38-39 | "SKU001" and "SKU001\n" are accepted; "SKU001\n\n" is not |
| ProductController.RejectsPunctuation | app/controllers/product_controller.py:38 | `-`, `_`, a space and a non-ASCII letter are rejected |
| ProductController.GetProduct | app/controllers/product_controller.py:41-83 | An invalid SKU gives 400 echoing the SKU; a service exception gives 500 with its text; otherwise the service result, None included, unchanged |
| ProductController.InvalidSkuIgnoresService | app/controllers/product_controller.py:54-64 | The 400 does not depend on the service outcome and is never turned into a 500 |
| ProductView.Render | app/views/product_view.py:16-39 | The requested SKU is echoed; AVAILABLE iff a product is given, carrying its vendor, price and stock; otherwise OUT_OF_STOCK with those empty |
| ProductView.AvailableMeansInStock | app/views/product_view.py:27-39 | Along the request path, AVAILABLE iff some vendor reported stock, and then the price and stock are positive |

## Left out

- Concurrency and I/O: `asyncio.gather`, awaited vendor calls, HTTP handling and logging. Each call's outcome is an input value.
- Time sources: `utcnow()`, `time.time()` and timezone handling. Time is an integer parameter in seconds, so sub-second ages are not modelled.
- Floating point: prices, latencies and rates are exact reals. Rounding, NaN and infinity are not modelled.
- Python's text parsers `float()`, `int()` and `datetime.fromisoformat()`: they are abstract functions inside `Conversions`.
- `str.lower()`: modelled on ASCII letters only. This is exact for the comparisons with "no" and "yes" that the code makes.
- The text form of the rate-limit key (`strftime`): the key is the pair of API key and minute.
- The header values as strings: `RateHeaders` holds integers.
- The key/value store (app/core/cache.py): an abstract map with expiry times. Whether a client is connected is a field of the middleware; whether one `get` or one `set` raises is a parameter of each check, the two independent of each other. `connect`, `delete`, `exists`, `clear_pattern` and `get_cache_key` are not modelled.
- LegacyNormalizer.NormalizeVendorA and LegacyNormalizer.NormalizeVendorB: the products carry no source timestamp, as the code builds them. The model does not reproduce the validation error that a required `source_timestamp` field would raise for them.
- Jobs.BackgroundJobManager.PrewarmCache: the cache write that happens inside the service lookup is not modelled. The loop's measured latency is only logged, so it is not modelled either.
- Jobs.BackgroundJobManager.LogVendorPerformance: the report's number formatting (`.1f`, `.3f`) is not modelled.
- `run_scheduled_job` and the scheduling in app/tasks/celery_app.py and app/tasks/scheduled.py: these are not part of this model.
- app/core/service.py, which the job manager imports, is not part of this model. The job's service lookup is an input function.
- Vendor stubs (app/vendors.py, app/data/vendors.py), the router (app/routers/products.py) and app/main.py: these are not part of this model.
