# Synthetic market generator and prediction-form validator, in Dafny

This project models the two pieces of pure logic in a toy stock-prediction
pipeline.

1. The per-step rules of the synthetic dataset generator:
   - the per-company OHLC price walk: draw, build open/close/high/low, clamp in a fixed order, carry close plus drift;
   - the walk folded over a calendar and over the company list of one market;
   - the clamped news-sentiment score;
   - the daily volume product and its size tiers;
   - the clamped inflation/interest-rate walk;
   - the configuration tables behind all of them.
2. The browser-side prediction form:
   - `validateInputs`, an ordered chain of checks with one error message per check;
   - `handleSubmit`, which validates before it shows the loading state and sends the request, and clears the loading state on every path.

Random draws are explicit parameters (one small datatype of draws per day),
and `sin` is a function parameter whose values are only assumed to lie in
[-1, 1]. Prices and factors are mathematical reals. Dates are abstract
integer ordinals of a business-day calendar.

Modules, one per file:

- `RealOps`: Python's `max`/`min`, the `max(lo, min(x, hi))` clamp, and `int()` truncation.
- `Outcomes`: `Option` and `Result`.
- `Catalog`: the company list, the company-to-sector table, the per-sector parameter tables and the size tiers.
- `Blocks`: tables of equal-width blocks laid end to end, used for the per-company layout of the price table.
- `PriceWalk`, `Sentiment`, `Volume`, `Macro`: the four generators that carry or clamp state.
- `JsText`: JavaScript's `String.prototype.trim`.
- `Validator`: `validateInputs`.
- `Submit`: `handleSubmit` as a trace of UI effects, plus the page state that trace leaves behind.
- `CrossCheck`: every generated price row passes the form validator.

The company-to-sector table is a parameter of the table generator, and the
catalog lemma plugs in the real table. The code raises a dictionary-lookup
error on the first listed company without a sector, and the rows built so
far are lost with the exception. The model returns
`Failure(MissingSector(c))` for that first company and no rows.

`makePrediction` returns the parsed body of any ok response without
checking its shape. The backend answers an unknown company with an ok
response whose body is an error object, so the page then shows a result
card with a NaN predicted price and a downward trend, and no error
(`Submit.ErrorObjectShownAsResult`). The model keeps this behaviour.

The five validation errors and the backend and display errors are enumerations
(`Validator.Message`, `Submit.Notice`). Their exact texts are given by
`Validator.Text` and `Submit.NoticeText`.

## Model

| member | source | states |
|---|---|---|
| `Catalog.Volatility` | CREATION_OF_DATASET_USING_PYTHON/Stock_Market_Prediction.py:119-127 | every sector's daily volatility lies in [0.01, 0.025] |
| `Catalog.AnnualGrowth` | CREATION_OF_DATASET_USING_PYTHON/Stock_Market_Prediction.py:130-138 | every sector's annual growth is strictly positive (at most 0.14) |
| `Catalog.DailyGrowth` | CREATION_OF_DATASET_USING_PYTHON/Stock_Market_Prediction.py:140-156 | the daily drift rate is positive and equals annual growth spread over 252 trading days |
| `Catalog.SectorSentimentBias` | CREATION_OF_DATASET_USING_PYTHON/Stock_Market_Prediction.py:364-371 | every sector's sentiment bias lies in [0.05, 0.20] |
| `Catalog.VolumeMultiplier` | CREATION_OF_DATASET_USING_PYTHON/Stock_Market_Prediction.py:463-470 | every sector multiplier lies in [1.0, 1.5], so it never shrinks volume |
| `Catalog.TierOf` | CREATION_OF_DATASET_USING_PYTHON/Stock_Market_Prediction.py:443-459 | a company is Large iff it is a large cap, Mid iff it is a mid cap and not a large cap, Small otherwise |
| `Catalog.BaseVolumeLow` | CREATION_OF_DATASET_USING_PYTHON/Stock_Market_Prediction.py:450-459 | each tier's base-volume range is non-empty and starts at 500000 or more |
| `Catalog.SmallTierIsComplement` | CREATION_OF_DATASET_USING_PYTHON/Stock_Market_Prediction.py:443-445 | for a listed company, the else-branch tier Small is exactly membership in the listed-minus-large-minus-mid set |
| `Catalog.CompanyNamesNonEmpty` | CREATION_OF_DATASET_USING_PYTHON/Stock_Market_Prediction.py:40-56 | the company list has 50 entries, none empty |
| `Catalog.SectorBlocksKeyed` | CREATION_OF_DATASET_USING_PYTHON/Stock_Market_Prediction.py:59-116 | each sector block of the company list is covered by the sector dictionary |
| `Catalog.EveryCompanyHasSector` | CREATION_OF_DATASET_USING_PYTHON/Stock_Market_Prediction.py:40-116 | every listed company has a sector entry, so no lookup fails |
| `RealOps.Clamp` | CREATION_OF_DATASET_USING_PYTHON/Stock_Market_Prediction.py:554-555 | for a non-empty band the result lies in it, is the input when the input is in the band, and is the nearer end otherwise |
| `RealOps.TruncateTowardZero` | CREATION_OF_DATASET_USING_PYTHON/Stock_Market_Prediction.py:494-500 | `int()` of a non-negative value is its whole part; of a negative value, the ceiling |
| `PriceWalk.ClampBar` | CREATION_OF_DATASET_USING_PYTHON/Stock_Market_Prediction.py:174-178 | each field separately: open and close are their raw values when at least 5 and 5 otherwise; high is the raw high when it reaches the larger clamped price, else that price; low is the least of raw low and the clamped prices when that is at least 5, else 5; so the bar is always well formed |
| `PriceWalk.FloorDayClamp` | CREATION_OF_DATASET_USING_PYTHON/Stock_Market_Prediction.py:175-178 | on a day where raw open or raw close is under 5, that price and the low are emitted as 5 whatever the raw low was, and the other price is kept, as is a raw high reaching both raw prices and 5 |
| `PriceWalk.FactorsWidenBody` | CREATION_OF_DATASET_USING_PYTHON/Stock_Market_Prediction.py:170-172 | for a positive open and close, a high factor in [1.001, 1.02] puts the raw high strictly above both, and a low factor in [0.98, 0.999] puts the raw low strictly below both |
| `PriceWalk.UnclampedBarIsExact` | CREATION_OF_DATASET_USING_PYTHON/Stock_Market_Prediction.py:174-178 | when raw open and close are at least 5 and the raw high and low lie outside the body, the clamps keep open, close and high as drawn, keep the raw low unless it is under 5, and otherwise set low to 5 |
| `PriceWalk.PriceStep` | CREATION_OF_DATASET_USING_PYTHON/Stock_Market_Prediction.py:162-191 | one day yields a well-formed bar whose open and close are the raw open and close floored at 5; the next price is that floored close plus the drift of the pre-step price; a positive price with positive growth is carried strictly above 5 |
| `PriceWalk.UnclampedStepIsExact` | CREATION_OF_DATASET_USING_PYTHON/Stock_Market_Prediction.py:164-178 | for a full step whose raw open and close are at least 5: open and close are as drawn, high is max(open, close) times the high factor and strictly above it, and low is min(open, close) times the low factor whenever that is at least 5 |
| `PriceWalk.Walk` | CREATION_OF_DATASET_USING_PYTHON/Stock_Market_Prediction.py:160-191 | one row per date, in date order, carrying the market and company, every bar well formed |
| `PriceWalk.WalkFollowsCarriedPrice` | CREATION_OF_DATASET_USING_PYTHON/Stock_Market_Prediction.py:160-191 | row k's bar is one step from the price carried into day k |
| `PriceWalk.CarriedPriceRecurrence` | CREATION_OF_DATASET_USING_PYTHON/Stock_Market_Prediction.py:162-191 | the price carried into day k+1 is day k's clamped close plus the drift of the price carried into day k |
| `PriceWalk.CarriedPriceAboveFloor` | CREATION_OF_DATASET_USING_PYTHON/Stock_Market_Prediction.py:156-191 | with positive growth and a positive start, every carried price is positive and, from day 1 on, above 5 |
| `PriceWalk.CarriedPriceAlwaysAboveFloor` | CREATION_OF_DATASET_USING_PYTHON/Stock_Market_Prediction.py:130-191 | for any sector and any start in [100, 2500], the price carried into every day is above 5 |
| `PriceWalk.FindMissing` | CREATION_OF_DATASET_USING_PYTHON/Stock_Market_Prediction.py:148-150 | the lookup loop stops exactly when some listed company has no sector, and it stops at the first such company |
| `PriceWalk.GeneratePrices` | CREATION_OF_DATASET_USING_PYTHON/Stock_Market_Prediction.py:144-205 | the table exists iff every company has a sector; otherwise the error names the first company without one; the table holds one block of rows per company |
| `PriceWalk.GeneratedRowsWellFormed` | CREATION_OF_DATASET_USING_PYTHON/Stock_Market_Prediction.py:148-191 | every row has the table's market, a listed company, a calendar date and a well-formed bar |
| `PriceWalk.RowsGroupedByCompany` | CREATION_OF_DATASET_USING_PYTHON/Stock_Market_Prediction.py:148-191 | the c-th block of rows is exactly company c's walk over the whole calendar, so rows are grouped by company in list order |
| `PriceWalk.TableSize` | CREATION_OF_DATASET_USING_PYTHON/Stock_Market_Prediction.py:148-191 | the table has \|companies\| x \|dates\| rows |
| `PriceWalk.TableRowAt` | CREATION_OF_DATASET_USING_PYTHON/Stock_Market_Prediction.py:148-191 | row c x \|dates\| + d is company c on date d, with the bar one step from that company's carried price |
| `PriceWalk.CompanyRowsInDateOrder` | CREATION_OF_DATASET_USING_PYTHON/Stock_Market_Prediction.py:148-160 | for a strictly increasing calendar, one company's rows have strictly increasing dates |
| `PriceWalk.CatalogTableGenerated` | CREATION_OF_DATASET_USING_PYTHON/Stock_Market_Prediction.py:40-191 | for the catalog's companies the table always exists, has 50 x \|dates\| rows, and every row is well formed with a non-empty company |
| `Sentiment.CompanyBias` | CREATION_OF_DATASET_USING_PYTHON/Stock_Market_Prediction.py:374-393 | a company with an override gets the override; every other company gets the drawn fallback |
| `Sentiment.Spike` | CREATION_OF_DATASET_USING_PYTHON/Stock_Market_Prediction.py:406-409 | the spike is the drawn size when the roll is below 0.04, and zero otherwise |
| `Sentiment.Score` | CREATION_OF_DATASET_USING_PYTHON/Stock_Market_Prediction.py:411-419 | the score lies in [-1, 1] for any bias, cycle, noise or spike; an in-range sum is unchanged; a sum above 1 gives 1 and one below -1 gives -1 |
| `Sentiment.Series` | CREATION_OF_DATASET_USING_PYTHON/Stock_Market_Prediction.py:385-425 | one row per date carrying the company; row i's score is the clamped score of the company's fixed bias, the sine at i / 250 and day i's draws, so it lies in [-1, 1] |
| `Sentiment.NoCarryOver` | CREATION_OF_DATASET_USING_PYTHON/Stock_Market_Prediction.py:398-419 | day i's row depends only on the fixed bias, i and that day's draws, not on any other day |
| `Sentiment.BaseBiasBounds` | CREATION_OF_DATASET_USING_PYTHON/Stock_Market_Prediction.py:364-396 | with a fallback in [0.02, 0.10], every company's fixed bias lies in [0.07, 0.45] |
| `Sentiment.ClampOnlyBitesOnSpikeDays` | CREATION_OF_DATASET_USING_PYTHON/Stock_Market_Prediction.py:396-419 | on a day without a spike, with in-range draws, the raw sum lies in [-0.23, 0.75] and the emitted score equals it |
| `Volume.Seasonal` | CREATION_OF_DATASET_USING_PYTHON/Stock_Market_Prediction.py:486 | for a sine in [-1, 1] the seasonal factor lies in [0.8, 1.2] |
| `Volume.SpikeFactor` | CREATION_OF_DATASET_USING_PYTHON/Stock_Market_Prediction.py:490-492 | the spike factor is the drawn size when the roll is below 0.02, and 1 otherwise |
| `Volume.DailyVolume` | CREATION_OF_DATASET_USING_PYTHON/Stock_Market_Prediction.py:494-500 | the volume is the whole part of the non-negative five-factor product |
| `Volume.DailyVolumeLowerBound` | CREATION_OF_DATASET_USING_PYTHON/Stock_Market_Prediction.py:450-500 | with every factor in its stated range, the product and the volume are at least 280000 |
| `Volume.Series` | CREATION_OF_DATASET_USING_PYTHON/Stock_Market_Prediction.py:476-506 | one row per date carrying the company; row i's volume is the daily volume of the base, the sector multiplier, the sine at i / 200 and day i's draws |
| `Volume.SeriesVolumesPositive` | CREATION_OF_DATASET_USING_PYTHON/Stock_Market_Prediction.py:450-506 | every volume of a company with a tier-range base, in-range draws and a bounded sine is a positive integer of at least 280000 |
| `Macro.MacroStep` | CREATION_OF_DATASET_USING_PYTHON/Stock_Market_Prediction.py:545-555 | whatever the previous state and the noise, the new state has inflation in [2.5, 9] and interest rate in [3.5, 10]; an in-band sum is kept unchanged |
| `Macro.GenerateMacro` | CREATION_OF_DATASET_USING_PYTHON/Stock_Market_Prediction.py:540-561 | one row per date, all inside the bands; row 0 is a step from (5.5, 6.5) and each later row a step from the previous row's clamped values |
| `JsText.Trim` | frontend/script.js:280 | the result is a contiguous piece of the input with trimmable characters cut from both ends only, and does not start or end with one |
| `JsText.TrimEmptyIff` | frontend/script.js:280 | trimming gives the empty string exactly when the input is all white space or line terminators |
| `JsText.TrimIdempotent` | frontend/script.js:280 | trimming twice equals trimming once |
| `Validator.TextsDistinct` | frontend/script.js:164-179 | the five error texts differ from each other, so the text shown identifies the failed check |
| `Validator.ValidateInputs` | frontend/script.js:160-181 | accepts exactly the forms that have a company, all prices > 0, high >= open and close, and low <= open and close; states each error message under the condition that every earlier check passed; an accepted form has high >= low |
| `Validator.FirstFailure` | frontend/script.js:162-179 | a check list is valid iff every check passes; otherwise the message is that of the first failing check |
| `Validator.ValidateIsFirstFailure` | frontend/script.js:162-179 | the validator's verdict is the first failure of its five checks taken in source order |
| `Submit.FormData` | frontend/script.js:278-286 | the form's company is the trimmed selection; the prices are passed through |
| `Submit.MakePrediction` | frontend/script.js:239-268 | an ok response whose body parses yields that body, whatever its shape; a failed connection, a non-ok status and an unparsable body all yield the one backend error |
| `Submit.DisplayResults` | frontend/script.js:197-231 | a `null` body raises the display error before anything is shown; any other body becomes a card with the current close, the body's `prediction` field (absent allowed) and an upward trend exactly when `trend` is "UP" |
| `Submit.Respond` | frontend/script.js:290-306 | once the verdict is known: a request iff the verdict is valid, always right after loading is shown and carrying the form; a rejected form only shows its error; loading is cleared last |
| `Submit.HandleSubmit` | frontend/script.js:274-308 | the trace always ends by clearing loading; a request is issued iff validation passes, and it is always preceded by showing loading; an invalid form only shows its message and clears loading |
| `Submit.Apply` | frontend/script.js:96-154 | showing loading turns loading on and hides the error, keeping any earlier result; showing an error hides the result; displaying sets the card; hiding loading changes only the loading flag; the request changes nothing visible |
| `Submit.SubmitOutcome` | frontend/script.js:274-308 | whatever the page and reply, the page is not left loading; an invalid form shows its message, a failed request the backend error, a `null` body the display error, all with no result; any other ok body is shown as a card (current close, its prediction field, upward iff trend is "UP") with no error |
| `Submit.InvalidOutcome` | frontend/script.js:290-306 | an invalid form leaves the page not loading, showing its validation error and no result |
| `Submit.ValidOutcome` | frontend/script.js:290-306 | a valid form leaves the page not loading: the backend error or the display error with no result when the request fails or the body is `null`, and otherwise the body's card with no error |
| `Submit.ErrorObjectShownAsResult` | frontend/script.js:197-231 | an ok response carrying an error object (no `prediction`, no `trend`) shows a card with no predicted price and a downward trend, and no error |
| `Submit.BlankCompanyRejected` | frontend/script.js:164-165 | a company field of only white space is rejected with the no-company error ('Please select a company') and no request is issued |
| `CrossCheck.WellFormedBarAccepted` | frontend/script.js:160-181 | any well-formed generator bar under a non-empty company passes the form validation |
| `CrossCheck.GeneratedRowsAccepted` | CREATION_OF_DATASET_USING_PYTHON/Stock_Market_Prediction.py:174-191 | every row of a catalog price table, before rounding, passes the form validation |
| `CrossCheck.RoundedBarAccepted` | CREATION_OF_DATASET_USING_PYTHON/Stock_Market_Prediction.py:180-188 | under any order-preserving rounding that keeps the floor positive, a rounded well-formed bar still passes |

## Left out

- Folder creation, CSV writing, log files and the console messages: file-system and console I/O.
- The random generators and their seeding. Draws are parameters constrained only by their stated ranges, so reproducibility of the numpy/`random` streams is not modelled. Normal draws carry no range.
- The order in which draws are consumed is not modelled. For example, `company_sentiment_bias.get(company, random.uniform(...))` draws the fallback even for companies with an override. The extra draw shifts every later draw of the `random` stream, so later values differ from a run without it; only that company's bias is unaffected, since the override is used.
- The business-day calendar from `pd.date_range`: dates are abstract integers, assumed strictly increasing only where the ordering lemma needs it.
- `round(x, 2)` and `round(x, 3)`: rows are modelled before rounding. `CrossCheck.RoundedBarAccepted` covers any monotone rounding given as a parameter.
- `np.sin`: a function parameter assumed to lie in [-1, 1].
- Binary floating point: all arithmetic is on exact reals, so floating-point rounding in the products and sums is out of scope.
- The global index random walk: it has no clamp and nothing beyond its formula to state.
- The fundamentals sampling: a one-shot uniform draw plus rounding.
- The whole-table concatenation of the sentiment and volume series over the company list. It is the same fold as the price table, which is modelled. The per-company series are modelled.
- The reverse inclusion (every key of the sector dictionary is a listed company) and the absence of repeats in the company list: neither is used by any property here.
- `loadCompanies`, `loadLatestPrice`, the DOM effects inside `displayResults`/`showError`/`hideError`/`showLoading`/`hideLoading`, `init` and the event wiring: network and DOM calls. Their visible effect on loading state, error and result display is abstracted as the `Submit.Page` state.
- `event.preventDefault()`, and exceptions `displayResults` could raise on missing DOM elements.
- `formatCurrency`: it relies on float-to-string `toFixed`. A card's missing predicted price stands for the NaN amount it prints.
- Reply bodies are seen only through their `prediction` and `trend` fields. A `prediction` value that is present but not a number is not represented.
- `Submit.NoticeText`: the text of the display error is the JavaScript engine's own type-error message, which differs between engines. The model uses one engine's wording.
- The second lookup failure in `generate_stock_prices`: a sector name with no volatility or growth entry. Sectors are a closed enumeration whose every value has parameters, so this error cannot arise in the model. It cannot arise for the real tables either.
- `NaN` from `parseFloat`: every comparison with `NaN` is false, so `validateInputs` would accept a form whose prices did not parse. Prices are modelled as reals, so this case is not represented.
- The model-training and prediction-serving scripts are not part of this model.
