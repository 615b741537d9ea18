# Currency converter: rate cache, favourites and historical series

A Dafny model of the logic inside a small React currency converter. The model covers:

- the **rate effect**. It answers 1 for equal currencies. Otherwise it looks in a browser-stored cache: one rate table per base currency, plus one timestamp shared by every base. A cached rate is used only when it is truthy and younger than one hour. On a miss the effect fetches the base's table, replaces it in the cache and resets the shared timestamp. On failure it shows an error and leaves the cache alone.
- the **handlers** for the amount field, swapping currencies, and the favourites list. Favourites are (from, to) pairs, appended without dedup and removed by position. Every change is mirrored into the persisted copy.
- the chart's **historical series builder**. It builds an inclusive date range, requests one rate per date and waits for all of them. It pairs answers with dates by index and drops falsy rates. It falls back to a fixed seven-point sample when nothing survives or any request rejects. A per-run `isMounted` flag discards results that arrive after cleanup.

Modules:

- `Common` (common.dfy) holds `Option` and a map lookup.
- `RateCache` (rate_cache.dfy) holds the hit test and the pure specification `ResolveRate` of one run of the rate effect.
- `Favorites` (favorites.dfy) holds positional removal as `filter((_, i) => i !== index)` computes it.
- `ConverterApp` (converter_app.dfy) holds the class `App`. Its fields are the component's state and the browser store. Its methods are the effect and the handlers, each proved against the functions above.
- `HistoricalRates` (historical_rates.dfy) holds the date loop, the zip and filter, and `Settle`, which chooses the series. The class `Chart` is the component's state. The class `EffectRun` is one run of the effect, with its own `isMounted` flag.

Inputs the model takes as parameters:

- The clock: `now`, in milliseconds.
- The rate service: `fetched`, an `Option<Table>`. For the chart it is the joint outcome `Joint`: every answer body, or the first rejection's message.
- `parseFloat`: a partial function `string -> Option<real>`.

Dates are UTC day numbers, counted in days since 1970-01-01. The sample series' 2023-01-01 is day 19358.

Where the code departs from the behaviour its design describes, the model follows the code:

- An unparsable stored rate cache makes `JSON.parse` throw inside the `try` (`ratesCorrupt`). It surfaces as the fetch error instead of being treated as a miss, and it keeps failing while the value stays in the store.
- `removeFavorite` with an out-of-range index leaves the list unchanged. It raises no index error.
- The date loop does not always give 8 dates. `endDate` is read before `startDate`, and the loop compares full instants. When the two clock reads fall in the same millisecond, the range is 8 days, today−7 through today (`EightDatesWhenSameMillisecond`). When the second read is later by up to a day, the last step passes `endDate`, and the range is 7 days (`SevenDatesWhenClockMoves`). `lag` is the delay between the two reads.
- The rate effect has no liveness guard. Only the chart's effect discards superseded results.
- With equal currencies the rate effect sets the rate to 1 and does not clear an earlier error.
- A fetched table that lacks the quote currency sets `exchangeRate` to `undefined` (`None` here). It is still cached, and the error is cleared.

## Model

| member | source | states |
|---|---|---|
| RateCache.CachedRate | Currency-Converter01-master/src/Currency-converterApp.tsx:58-63 | the cache answers exactly when the base's table has a truthy entry for the quote, a timestamp is present and less than 3 600 000 ms have passed; the answer is the stored rate |
| RateCache.FreshnessBoundary | Currency-Converter01-master/src/Currency-converterApp.tsx:61 | 3 599 999 ms after the write the cache answers; 3 600 000 ms or later it does not |
| RateCache.ZeroRateMisses | Currency-Converter01-master/src/Currency-converterApp.tsx:59 | a stored rate of 0 is falsy and never answers from the cache |
| RateCache.ResolveRate | Currency-Converter01-master/src/Currency-converterApp.tsx:44-83 | equal currencies give rate 1 with the cache and error untouched; a hit gives the stored rate and writes nothing; a successful miss replaces the base's table, sets the shared timestamp to now and takes the rate from the fetched table; a failure (unparsable store, or failed fetch) sets the error and leaves tables, timestamp and rate alone; success clears the error; loading ends false; other bases' tables never change |
| RateCache.RefreshRenewsEveryBase | Currency-Converter01-master/src/Currency-converterApp.tsx:69-71 | the timestamp is shared: after one base is refreshed, every other base with a truthy cached entry answers from the cache too |
| RateCache.RefreshThenHit | Currency-Converter01-master/src/Currency-converterApp.tsx:58-71 | a run right after a successful refresh with a truthy rate is a hit and changes nothing |
| ConverterApp.App.constructor | Currency-Converter01-master/src/Currency-converterApp.tsx:11-19 | initial state: USD to EUR, amount "1", rate 1, no error, loading, no favourites, over the store's existing contents |
| ConverterApp.App.FetchExchangeRate | Currency-Converter01-master/src/Currency-converterApp.tsx:44-83 | the new rate, error, loading flag, tables and timestamp are those `ResolveRate` gives for the current pair; the pair, amount and favourites do not change |
| ConverterApp.App.HandleAmountChange | Currency-Converter01-master/src/Currency-converterApp.tsx:92-97 | the amount takes the input when it is empty or parses to a value of at least 0, and otherwise stays as it was |
| ConverterApp.App.SwapCurrencies | Currency-Converter01-master/src/Currency-converterApp.tsx:99-102 | from and to are exchanged, and nothing else changes |
| ConverterApp.SwapTwice | Currency-Converter01-master/src/Currency-converterApp.tsx:99-102 | swapping twice restores the pair and leaves favourites and rate state alone |
| ConverterApp.App.SelectFavorite | Currency-Converter01-master/src/Currency-converterApp.tsx:121-124 | from and to become the pair's fields |
| ConverterApp.App.AddToFavorites | Currency-Converter01-master/src/Currency-converterApp.tsx:108-113 | the current pair is appended at the end, duplicate or not, and the persisted copy equals the new list |
| ConverterApp.App.RemoveFavorite | Currency-Converter01-master/src/Currency-converterApp.tsx:115-119 | the list loses exactly the given position (nothing when out of range) and the persisted copy equals the new list |
| ConverterApp.App.LoadFavorites | Currency-Converter01-master/src/Currency-converterApp.tsx:85-90 | a stored list, when present, replaces the in-memory one |
| ConverterApp.AddRemoveReload | Currency-Converter01-master/src/Currency-converterApp.tsx:85-119 | add, then remove the last position, then reload: the list and its persisted copy are the original list |
| Favorites.RemoveAt | Currency-Converter01-master/src/Currency-converterApp.tsx:116 | for an index in range, the result is the list with that one position cut out, others in order; for any other index, the list unchanged |
| Favorites.AddThenRemoveLast | Currency-Converter01-master/src/Currency-converterApp.tsx:110-116 | removing position \|L\| from L with one pair appended gives back L |
| Favorites.RemoveAtShifts | Currency-Converter01-master/src/Currency-converterApp.tsx:116 | removing a valid position shortens the list by one; earlier elements stay put, later ones move down by one |
| Favorites.RemoveOutOfRange | Currency-Converter01-master/src/Currency-converterApp.tsx:116 | positions -1 and \|L\| leave the list unchanged |
| HistoricalRates.BuildDates | Currency-Converter01-master/src/components/HistoricalRatesChart.tsx:55-62 | the loop yields consecutive day numbers starting seven days before the start read, one per day step that does not pass the end instant |
| HistoricalRates.EightDatesWhenSameMillisecond | Currency-Converter01-master/src/components/HistoricalRatesChart.tsx:55-62 | with both clock reads in the same millisecond: exactly 8 consecutive, ascending days, today−7 through today |
| HistoricalRates.SevenDatesWhenClockMoves | Currency-Converter01-master/src/components/HistoricalRatesChart.tsx:55-62 | with the start read later by up to a day: 7 consecutive days |
| HistoricalRates.RateOrNull | Currency-Converter01-master/src/components/HistoricalRatesChart.tsx:73 | `x \|\| null`: a missing, null or zero rate becomes null; any other rate is kept |
| HistoricalRates.Zip | Currency-Converter01-master/src/components/HistoricalRatesChart.tsx:71-74 | each answer is paired with the date at the same index |
| HistoricalRates.KeepRated | Currency-Converter01-master/src/components/HistoricalRatesChart.tsx:74 | exactly the points with a non-null rate survive, and the result is no longer than the input |
| HistoricalRates.KeepRatedAscending | Currency-Converter01-master/src/components/HistoricalRatesChart.tsx:71-74 | the survivors keep ascending date order |
| HistoricalRates.LiveSeriesAscending | Currency-Converter01-master/src/components/HistoricalRatesChart.tsx:55-82 | a live series built over ascending dates is ascending |
| HistoricalRates.Settle | Currency-Converter01-master/src/components/HistoricalRatesChart.tsx:64-89 | the series is live exactly when every request succeeded and some answer is truthy; then it holds every truthy answer at its date and nothing else; a rejection falls back with its message, or the default message when empty; no survivor falls back with "No valid rates received" |
| HistoricalRates.Chart.constructor | Currency-Converter01-master/src/components/HistoricalRatesChart.tsx:32-34 | the chart starts with no points, no error, loading |
| HistoricalRates.EffectRun.constructor | Currency-Converter01-master/src/components/HistoricalRatesChart.tsx:48-62 | a run starts mounted, sets loading, clears the error, keeps the old series and computes its dates |
| HistoricalRates.EffectRun.Cleanup | Currency-Converter01-master/src/components/HistoricalRatesChart.tsx:99-101 | cleanup clears the run's mount flag |
| HistoricalRates.EffectRun.Complete | Currency-Converter01-master/src/components/HistoricalRatesChart.tsx:70-94 | an unmounted run changes neither series, error nor loading; a mounted one shows the live series (error left cleared) or the sample with the error set, and ends loading |
| HistoricalRates.SupersededRunDiscarded | Currency-Converter01-master/src/components/HistoricalRatesChart.tsx:47-102 | after cleanup and a new run, the first run's late answers do not replace what the new run showed |

## Left out

- Rendering: JSX, Tailwind classes, dark mode, and the chart.js options and registration. These are presentation only.
- The stateless view components (`CurrencySelector`, `AmountInput`, `FavoriteCurrencies`), the bootstrap in `main.tsx`, and the selectors' direct `setFromCurrency`/`setToCurrency` handlers.
- `ConversionResult`: its only logic is a floating-point multiply and `toFixed` formatting.
- The currency-list effect (lines 21-42). It only loads the list from the store or fetches it.
- HTTP requests, URLs and the 5-second timeout. Each request is reduced to its outcome. A table missing from a response is folded into failure, because reading a rate from it throws inside the `try`.
- JSON encoding of the store. The store is held as typed fields. A malformed stored favourites value throws outside any `try` in the mount effect. That crash is not modelled.
- Floating point. Rates are `real`, and NaN is not modelled. So NaN's falsiness and a non-numeric stored timestamp (which always misses) are outside the model.
- The calendar. Days are whole UTC days of 86 400 000 ms. The source steps by local calendar days (`setDate`), which differ across daylight-saving changes.
- Async interleaving. Two rate fetches in flight can overwrite each other's store writes, because each writes back its own parsed copy. The model treats each run of the rate effect as atomic. For the chart, only the `isMounted` guard is modelled.
- Which rejection `Promise.all` reports. It reports whichever rejects first in time; the model takes that message as an input.
