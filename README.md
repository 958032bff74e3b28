# friartuck live engine, modelled in Dafny

friartuck runs a trading algorithm against a Robinhood account:

- `FriarTuckLive` schedules one cycle per minute, hour or day;
- a cycle reloads the market calendar and the account, calls the algorithm's `on_market_open` and `handle_data`, and re-arms its own timer;
- it serves bar history and current quotes to the algorithm;
- three quote sources (Google `getprices`, IEX and AlphaVantage) turn provider answers into bars.

This project models that decision logic and proves properties of it. The clock, the network, the broker and pandas do not appear in the model:

- **Time** is integer seconds since 1970-01-01 in local time. Day 0 is a Thursday, and `Weekday` numbers Monday as 0, as Python's `weekday()` does.
- **Broker and HTTP answers** are parameters: records, `respond: Request -> seq<string>` and `live: string -> Option<LiveQuote>`.
- **`utc_to_local`** is a parameter `toLocal`.
- **DataFrames** are `seq<Bar>`.
- **NaN** is `None` in an `Option<real>`.
- **Exceptions** are `Result.Err(reason)`, or, for the engine's loads, the outcomes `Failed` and `Raised`.

## Modules

- `Common`, `Text`, `Bars`, `Clock`: helpers.
  - `Common`: Python truncation and truthiness, `tail`, `is_valid_value`.
  - `Text`: the string operations the Google parser uses (`strip`, `split`, `int`, `float`).
  - `Bars`: the bar record, the NaN placeholder bar, sorting by time.
  - `Clock`: minute, hour and day arithmetic, and the `schedule` library's `every().day.at("HH:MM")` rule. A job at `HH:MM` runs today if that minute is still ahead, otherwise tomorrow.
- `Securities`: tick rounding, `security_to_symbol_map`, and the security cache of `fetch_and_build_security`.
- `Orders`: the status table, `_build_order_object`, `get_open_orders`, and `order_shares`.
- `Market`: `__load_market_info`, the open flag, and the reload watermark.
- `Profile`: `__load_profile_info`, the position loop and the derived portfolio and account figures.
- `GoogleQuotes`: `GoogleQuoteSource.fetch_quotes` and the `_load_quotes` line parser.
- `IexTrading`: `get_quote_daily`, `summarize_quote` and `get_quote_intraday_hist_by_bars`.
- `AlphaVantage`: `get_quote_daily` and `get_quote_intraday`.
- `CurrentBars`: `history` and `current`, as functions of the bar cache.
- `Engine`: `_load_all_data` and one firing of `_time_interval_processor`, as functions of the engine's fields.
- `Live`: the class `FriarTuckLive`.
  - Its fields are the engine's.
  - Its methods update them in place and loop where the source loops.
  - Each method is proved equal to the function of `CurrentBars`, `Engine`, `Market`, `Profile` or `Securities` that specifies it.

## Behaviours the model reproduces

- **A load that raises is not retried.**
  - When `__load_market_info` raises and opening or closing was never set, `_load_all_data` reads the never-set attribute before its `return False` can run.
  - That raises `AttributeError` out of the job, which stops the scheduler thread.
  - The model's outcome is `Raised`, and the cycle's wake is `Stalled`.
- **`short_position_value` is reassigned, not accumulated.**
  - Each short position sets it to the long value plus that position's cost (`Profile.ShortValueReassigned`).
- **For the daily frequency, `handle_data` runs only when the market is closed.**
  - `minutes_after_open_time` is never bound for `1d`.
  - An open-market cycle therefore raises `NameError` inside the `try` around `handle_data`, before the call happens.
- **Job times are kept only to the minute.**
  - `_set_trigger_timer` keeps only `%H:%M`, so a job always runs at the start of its target minute (`Clock.JobRunsAtTargetMinute`).
- **A failed load** re-arms at the next whole minute, before any callback.
- **Throttled reloads.** A reload attempted before the watermark reports success and changes nothing.

## Model

| member | source | states |
|---|---|---|
| Common.Trunc | friartuck/api.py:702 | `int(float(x))` truncates toward zero, on both signs |
| Common.CeilDiv | friartuck/quote_source.py:61 | `ceil(n / d)` for a positive `d`: the least multiple of `d` at or above `n`, divided by `d` |
| Common.Tail | friartuck/quote_source.py:165 | pandas `tail(n)`: the last `min(n, len)` elements for `n >= 0`, and all but the first `-n` for a negative `n` |
| Common.IsValidValue | friartuck/iextrading/iextrading.py:374-377 | the value unless it is the missing marker, in which case the default |
| Text.StripLeft | friartuck/quote_source.py:122 | drops exactly the leading whitespace: the rest is a suffix starting with a non-space |
| Text.StripRight | friartuck/quote_source.py:122 | drops exactly the trailing whitespace |
| Text.Strip | friartuck/quote_source.py:122 | `strip()`: the result is the infix of the line with only white space (as `str.isspace` has it) before and after it, and neither starts nor ends with white space; an already-stripped line is unchanged |
| Text.RemoveAll | friartuck/quote_source.py:130 | `replace("a", "")`: no `a` is left, every other character is kept as often, and a string without `a` is unchanged |
| Text.RemoveAllAppend | friartuck/quote_source.py:130 | the removal works piece by piece and in order: on a concatenation it is the concatenation of the removals |
| Text.RemoveAllSingle | friartuck/quote_source.py:130 | on one character, `a` vanishes and any other character stays |
| Text.Split | friartuck/quote_source.py:128 | `split(',')` gives at least one piece, and no piece holds the separator |
| Text.JoinSplit | friartuck/quote_source.py:128 | joining the pieces with the separator gives back the line |
| Text.SplitPrefix | friartuck/quote_source.py:128 | a separator-free prefix only extends the first piece |
| Text.SplitJoin | friartuck/quote_source.py:128 | splitting a join of separator-free pieces gives back the pieces |
| Text.ShowNat | friartuck/quote_source.py:130 | decimal digits of a natural number |
| Text.DigitsShowNat | friartuck/quote_source.py:130 | reading the digits back gives the number |
| Text.ParseInt | friartuck/quote_source.py:130-133 | `int()` of a string succeeds only on a non-empty string; plain decimal integers are read by `ParseShowInt` |
| Text.ParseShowInt | friartuck/quote_source.py:130-133 | `int()` inverts the decimal form of every integer, sign included |
| Text.IndexOf | friartuck/quote_source.py:140-144 | the first position of the decimal point in a `float()` literal, or the length when it has none |
| Text.ParseDecimal | friartuck/quote_source.py:140-144 | `float()` of an integer literal is that integer |
| Text.ParseDecimalFraction | friartuck/quote_source.py:140-144 | `float()` of digits, a point and more digits is the whole part plus the fraction digits over the matching power of ten |
| Bars.Placeholder | friartuck/quote_source.py:152-162 | the NaN bar: every price missing, volume 0, stamped at the current minute |
| Bars.InsertByTime | friartuck/alphavantage/alphavantage.py:68 | inserting into a time-sorted sequence keeps it sorted and adds exactly the one bar |
| Bars.SortByTime | friartuck/alphavantage/alphavantage.py:68 | `sort_index`: a sorted permutation of the bars |
| Clock.FloorMinute | friartuck/api.py:542 | `replace(second=0)`: the start of the minute holding the instant |
| Clock.FloorHour | friartuck/api.py:642 | `replace(minute=0, second=0)`: the start of the hour holding the instant |
| Clock.DayStart | friartuck/iextrading/iextrading.py:253 | the midnight at or before the instant, less than a day before it |
| Clock.SecondOfDay | friartuck/alphavantage/alphavantage.py:78 | the instant's offset from its midnight, in `[0, 86400)` |
| Clock.Weekday | friartuck/api.py:539 | `weekday()` is in `0..6` |
| Clock.HourMinute | friartuck/api.py:782 | `strftime("%H:%M")`: a valid clock time that, added to the day's midnight, is the instant's minute |
| Clock.HourMinuteSplit | friartuck/api.py:782 | the hour and minute are in range and rebuild the instant's minute |
| Clock.NextOccurrenceWithinADay | friartuck/api.py:783 | an `every().day.at(...)` job runs strictly after now and within a day |
| Clock.DayStartOfFloorMinute | friartuck/api.py:780 | flooring to the minute never changes the day |
| Clock.JobRunsAtTargetMinute | friartuck/api.py:776-783 | a job armed for a target less than a day ahead runs exactly at the start of the target's minute |
| Securities.CeilReal | friartuck/api.py:69 | `ceil`: the least integer at or above the value |
| Securities.PriceConvertUp | friartuck/api.py:65-69 | the identity with no (or zero) tick; otherwise a multiple of the tick, and for a positive tick the least one at or above the price |
| Securities.PriceConvertDown | friartuck/api.py:71-75 | the identity with no tick; otherwise a multiple of the tick, and for a positive tick the greatest one at or below the price |
| Securities.ConvertUpLeast | friartuck/api.py:69 | no multiple of the tick at or above the price is below the rounded-up price |
| Securities.ConvertDownGreatest | friartuck/api.py:75 | no multiple of the tick at or below the price is above the rounded-down price |
| Securities.ConvertOnGrid | friartuck/api.py:65-75 | a price already on the tick grid is left alone by both roundings |
| Securities.Symbols | friartuck/api.py:282 | the symbols of a security list, position by position |
| Securities.SymbolMapOf | friartuck/api.py:790-794 | every key maps to a security with that symbol |
| Securities.SymbolMapKeys | friartuck/api.py:790-794 | the keys are exactly the listed symbols |
| Securities.SymbolMapLastWins | friartuck/api.py:791-792 | with duplicates, the last security with a symbol is the one kept |
| Securities.SecurityToSymbolMap | friartuck/api.py:786-794 | a single security gives a one-entry map; a list is filled by the loop, and the result is the symbol map of the list |
| Securities.FirstMatch | friartuck/api.py:514-517 | the first search result with exactly the symbol, or none |
| Securities.FetchSecurity | friartuck/api.py:507-535 | a cached symbol returns the stored security with no broker query; the broker is queried only on a miss without a detail; no exact match gives `None` and leaves the cache unchanged; otherwise the new security is cached under its symbol |
| Securities.FetchIdempotent | friartuck/api.py:508-509 | a second fetch of the same symbol returns the identical security, leaves the cache unchanged and queries nothing |
| Orders.StatusOf | friartuck/api.py:226 | a listed state maps per the table (0 to 5), with 0 or 4 exactly for the open states; an unlisted state raises `KeyError` |
| Orders.BuildOrder | friartuck/api.py:472-505 | the status from the table; `stop` set iff the trigger is `stop`; `limit` set iff the type is `limit`; a sell negates both amount and filled |
| Orders.GroupOpenIsPicked | friartuck/api.py:388-405 | each symbol's list in the result is the open orders of that symbol, in broker order |
| Orders.PickedAreOpen | friartuck/api.py:390-398 | every grouped order has status 0 or 4; with a security given, other symbols get nothing |
| Orders.GroupPass | friartuck/api.py:389-405 | the loop body on one record equals `GroupRecord`, the one-record step that `GroupOpen` folds |
| Orders.GroupPrefix | friartuck/api.py:389-405 | a pass that succeeds extends the grouping by one record; one that raises is the result of the whole loop |
| Orders.GetOpenOrders | friartuck/api.py:384-412 | the loop's result equals the grouping of the open orders, or the one security's list (empty if it has none) |
| Orders.GroupOpenErrSticks | friartuck/api.py:390 | once an unlisted state raises, later results change nothing |
| Orders.OrderSharesRequest | friartuck/api.py:431-459 | the side follows the sign of `shares`; the trigger is `stop` iff a stop price is given; the type is `limit` iff a limit price is given; a buy-stop without a limit gets the stop rounded up to the tick as its limit |
| Orders.MarketOrderRequest | friartuck/api.py:432-442 | the request is an immediate market order exactly when the order type is missing or `is_market_order` holds, and then it carries no price and no stop |
| Market.LoadMarketInfo | friartuck/api.py:649-662 | on success today's record (or its `next_open_hours` record when hours are missing) is stored, and the flag is `opens <= now < closes`; a failure keeps the flag and never clears known hours |
| Market.MarketOpenFlag | friartuck/api.py:659-662 | with a complete record for today the flag is exactly `opens <= now < closes` |
| Market.FailedLoadKeepsKnownHours | friartuck/api.py:625 | a failed load leaves known hours known, so a stale calendar stays usable |
| Market.NextReloadable | friartuck/api.py:635-645 | the watermark moves strictly after now: ten seconds on inside `[open-2h, close+1h]`, else to the next top of the hour |
| Market.ReloadSpacing | friartuck/api.py:635-645 | no reload happens within ten seconds inside the window, and none within the same clock hour outside it |
| Profile.LastPrice | friartuck/api.py:709-715 | the first reading when truthy; otherwise the second when truthy; otherwise the last known price when there is one, else the second reading; the result is truthy iff one of them is |
| Profile.TallyOfSnoc | friartuck/api.py:701 | the loop after one more position is one step further |
| Profile.LongValueIsLongCost | friartuck/api.py:724-726 | `long_position_value` is the sum of cost times quantity over the long positions |
| Profile.FlatPositionsIgnored | friartuck/api.py:702-704 | zero-quantity positions never enter `positions` and change nothing |
| Profile.ShortValueReassigned | friartuck/api.py:727-729 | a short position sets (does not add to) the short value: long value plus that position's cost |
| Profile.NoShortsNoShortValue | friartuck/api.py:695-729 | with no short position the short value stays 0 |
| Profile.LoadProfile | friartuck/api.py:666-767 | a broker failure changes nothing; starting cash is kept when truthy, else captured; the portfolio is always stored; a zero portfolio value raises at `cushion` after that, leaving the account unchanged |
| Profile.PortfolioFiguresDerived | friartuck/api.py:691-746 | returns stay 0 unless the starting cash is positive, and are then the gain over it (`returns * starting_cash == value - starting_cash`); capital used is `abs(short - long)`; positions, starting cash and portfolio value are carried over |
| Profile.AccountFiguresDerived | friartuck/api.py:732-765 | for a non-zero portfolio value: leverage and net leverage are 0 unless it is positive, and are then the ratios of the position values and the market value to it; the cushion times it is the total cash |
| Profile.StartingCashCapturedOnce | friartuck/api.py:685-686 | once captured, the starting cash survives every later reconciliation |
| GoogleQuotes.RequestParams | friartuck/quote_source.py:55-72 | `1m` with at most 50 bars asks for `n` minutes; otherwise enough periods of 390 minutes, 7 hours, 1760 hours or 252 days to cover `n` bars, with the listed interval and period letter |
| GoogleQuotes.ParseLinesStep | friartuck/quote_source.py:121 | the loop over lines is a left fold, one line at a time |
| GoogleQuotes.LoadQuotesSpec | friartuck/quote_source.py:110-169 | at most `bar_count` bars and at least one for a positive count; with no data line, the one placeholder bar |
| GoogleQuotes.LoadQuotes | friartuck/quote_source.py:110-169 | the line loop's result equals the specification |
| GoogleQuotes.HeaderIgnored | friartuck/quote_source.py:124-125 | lines before the first `a`-line are skipped |
| GoogleQuotes.ParsedFields | friartuck/quote_source.py:127-150 | a data line keeps the earlier bars and appends one; an `a<unix>` line makes that value the anchor and stamps the bar with it; any other line keeps the anchor (which must exist) and stamps the bar anchor + offset * interval |
| GoogleQuotes.ParsedFieldValues | friartuck/quote_source.py:134-150 | the appended bar's fields are read in the order date, close, high, low, open, volume, and its price is its close |
| GoogleQuotes.ParseLineCases | friartuck/quote_source.py:122-128 | a line is either skipped or read as six comma-separated fields |
| GoogleQuotes.ParsedPricesAreCloses | friartuck/quote_source.py:140-144 | every parsed bar's price is its close |
| GoogleQuotes.LoadedBarsAreLastParsed | friartuck/quote_source.py:165 | the result is the last `min(bar_count, parsed)` parsed bars |
| GoogleQuotes.FetchQuotesSpec | friartuck/quote_source.py:50-107 | a frequency outside `1m`/`1h`/`1d` gives `[]`; a single symbol gives a one-key map |
| GoogleQuotes.FetchQuotes | friartuck/quote_source.py:50-107 | the method's result equals the specification |
| GoogleQuotes.LoadAllEntries | friartuck/quote_source.py:90-94 | a filled entry holds that symbol's own bars, and other entries are untouched |
| GoogleQuotes.FetchListPerSymbol | friartuck/quote_source.py:90-107 | a list of symbols gives exactly one entry per symbol, holding its own bars |
| IexTrading.QueryLength | friartuck/iextrading/iextrading.py:33-44 | the shortest range holding the bars: at most 20 bars is `1m`, then `3m`, `6m`, `1y`, `2y`, else `5y` |
| IexTrading.QueryLengthMonotone | friartuck/iextrading/iextrading.py:33-44 | more bars never select a shorter range |
| IexTrading.DailyBars | friartuck/iextrading/iextrading.py:62-81 | one bar per record |
| IexTrading.DailyBarsAt | friartuck/iextrading/iextrading.py:68-75 | the bar at each position is that record's bar |
| IexTrading.CutOff | friartuck/iextrading/iextrading.py:62-66 | the loop stops at the first record dated on or after `before_date` |
| IexTrading.GetQuoteDaily | friartuck/iextrading/iextrading.py:26-96 | the range is chosen from the bar count grown by the days since `before_date`; the result equals the specification |
| IexTrading.CollectDaily | friartuck/iextrading/iextrading.py:62-81 | the record loop gives one bar per record before the cut-off, in chart order, and leaves the frame unset when there is none |
| IexTrading.DailyResult | friartuck/iextrading/iextrading.py:26-96 | raises exactly when no record precedes the cut-off (the placeholder is bound to `bars`); otherwise `min(count, records before the cut-off)` bars for a non-negative grown count, none dated on or after `before_date`, and they are the bars of the last of those records in chart order |
| IexTrading.GetFieldValue | friartuck/iextrading/iextrading.py:380-384 | a present, truthy, non-`null` field is returned; anything else gives the default |
| IexTrading.Required | friartuck/iextrading/iextrading.py:331-334 | reading a required field raises exactly when it is absent |
| IexTrading.SummarizeSpec | friartuck/iextrading/iextrading.py:283-371 | a series outside 1, 5, 15, 30, 60 gives the one placeholder; any result has at least one bar |
| IexTrading.StepsStep | friartuck/iextrading/iextrading.py:298 | the record loop is a left fold |
| IexTrading.SummarizeQuote | friartuck/iextrading/iextrading.py:283-371 | the loop's result equals the specification |
| IexTrading.SkippedRecordIgnored | friartuck/iextrading/iextrading.py:299-306 | a record without a date, or without both closes, or after 15:00 once shifted back an hour, changes nothing |
| IexTrading.BucketBoundary | friartuck/iextrading/iextrading.py:308-348 | a new bucket starts on the boundary rule and emits the old one unless its close is -1; otherwise the record folds in without emitting |
| IexTrading.InBucketFold | friartuck/iextrading/iextrading.py:338-348 | inside a bucket high is the running max, low the running min, volume the running sum, and price and close the latest close |
| IexTrading.BucketRun | friartuck/iextrading/iextrading.py:337-348 | across a run of in-bucket records the volume grows by their sum and the high never falls |
| IexTrading.StepsKeepClose | friartuck/iextrading/iextrading.py:309-350 | no emitted bar has close -1 |
| IexTrading.SummaryHasNoMissingClose | friartuck/iextrading/iextrading.py:283-371 | no bar of the summary has close -1 |
| IexTrading.SummaryPlaceholder | friartuck/iextrading/iextrading.py:359-369 | with nothing emitted, the result is the one placeholder bar |
| IexTrading.WeekdayPrev | friartuck/iextrading/iextrading.py:253 | stepping back a day steps the weekday back cyclically |
| IexTrading.LatestWeekday | friartuck/iextrading/iextrading.py:252-253 | the newest working day at or before the day, with only weekend days after it |
| IexTrading.WeekdaysBack | friartuck/iextrading/iextrading.py:251-257 | the days the walk fetches, one per pass |
| IexTrading.WeekdaysBackShape | friartuck/iextrading/iextrading.py:251-257 | working days only, all on or before the first day, strictly newest first |
| IexTrading.WeekdaysBackSkipsWeekendsOnly | friartuck/iextrading/iextrading.py:252-253 | only weekend days lie between the first day and the walk's first fetch, and between consecutive fetches: no working day is passed over |
| IexTrading.WeekdaysBackSnoc | friartuck/iextrading/iextrading.py:252-257 | one more pass fetches the latest working day before the last one fetched |
| IexTrading.DayOfPrevious | friartuck/iextrading/iextrading.py:253 | `date - timedelta(days=1)` is the previous day |
| IexTrading.GatherSnoc | friartuck/iextrading/iextrading.py:259-266 | an empty day adds nothing; otherwise its summary is prepended |
| IexTrading.SkipBack | friartuck/iextrading/iextrading.py:252-253 | the inner loop lands on the latest working day before `before_date` |
| IexTrading.WalkExtends | friartuck/iextrading/iextrading.py:252-257 | each pass extends the fetched days by the next working day back |
| IexTrading.KeepGoingExtends | friartuck/iextrading/iextrading.py:251 | the loop condition held before every fetch |
| IexTrading.WalkPass | friartuck/iextrading/iextrading.py:252-266 | one pass fetches the next working day back, keeps the loop condition's history, and gathers exactly what `Gather` gives for the days fetched |
| IexTrading.FinishWalk | friartuck/iextrading/iextrading.py:268-280 | the placeholder when no day had quotes, then the last `bars` bars, as `WalkResult` |
| IexTrading.IntradayHistByBars | friartuck/iextrading/iextrading.py:240-280 | at most 35 fetches, of consecutive working days before `before_date`, newest first; older days are prepended; the walk stops at 35 days or once enough bars are gathered; the tail of `bars` bars, or the placeholder |
| AlphaVantage.DailyOutputSize | friartuck/alphavantage/alphavantage.py:14-16 | `full` exactly when more than 100 bars are asked for |
| AlphaVantage.Prepended | friartuck/alphavantage/alphavantage.py:35-51 | one bar per entry, in reverse order: position `i` holds the bar of the `i`-th entry from the end, stamped with its own time |
| AlphaVantage.GetQuoteDaily | friartuck/alphavantage/alphavantage.py:12-69 | the output size is the rule's, and the loop's result equals the specification |
| AlphaVantage.DailyFails | friartuck/alphavantage/alphavantage.py:53-69 | raises exactly when the series is missing or empty (the placeholder is bound to `bars`, and `None.sort_index` is then called) |
| AlphaVantage.DailyResult | friartuck/alphavantage/alphavantage.py:67-69 | otherwise the result is in time order, holds `min(bars, n)` bars, and is the end of the entries sorted ascending by date |
| AlphaVantage.DailyKeepsLatest | friartuck/alphavantage/alphavantage.py:68-69 | every entry left out is no later than every entry kept |
| AlphaVantage.DefaultSince | friartuck/alphavantage/alphavantage.py:72-73 | 08:25 today |
| AlphaVantage.IntradayOutputSize | friartuck/alphavantage/alphavantage.py:75-88 | `full` exactly for `1min` when the span from the start to `min(15:00, now)`, taken as `timedelta.seconds`, exceeds 100 minutes |
| AlphaVantage.ShiftedTime | friartuck/alphavantage/alphavantage.py:114-118 | back one hour, plus the interval's minutes for anything but `1min` |
| AlphaVantage.IntradaySpec | friartuck/alphavantage/alphavantage.py:101-158 | `connected` iff the series is non-empty; the bars are sorted and at least one |
| AlphaVantage.GetQuoteIntraday | friartuck/alphavantage/alphavantage.py:71-158 | start defaulted, output size by the rule, and the loop's result equals the specification |
| AlphaVantage.KeptBarsExactly | friartuck/alphavantage/alphavantage.py:112-138 | an entry is kept iff its shifted time is after the start |
| AlphaVantage.IntradayResult | friartuck/alphavantage/alphavantage.py:112-158 | with nothing kept, the one placeholder; otherwise the bars are exactly the kept, shifted entries |
| CurrentBars.FetchOneOfList | friartuck/api.py:282-283 | fetching a one-symbol list gives that symbol's load, or its error |
| CurrentBars.HistoryOne | friartuck/api.py:281-286 | `history(sec)` is the symbol's own load; a disallowed frequency makes `quotes[...]` on `[]` raise `TypeError` |
| CurrentBars.HistoryList | friartuck/api.py:281-292 | `history([secs])` with a disallowed frequency is the empty dict |
| CurrentBars.HistoryListSingle | friartuck/api.py:288-292 | `history([sec])` is the one-entry dict of that security's load, or its error |
| CurrentBars.SymbolMapFromList | friartuck/api.py:790-794 | every value of the symbol map is one of the listed securities |
| CurrentBars.HistoryListEntries | friartuck/api.py:288-292 | every listed security has an entry, every key is listed, and each entry is its symbol's load |
| CurrentBars.WaitReachesSecondTen | friartuck/api.py:299-302 | the sleep lasts at most ten seconds and reading starts at second 10 or later of the minute; there is no sleep once second 10 has passed |
| CurrentBars.WithPrice | friartuck/api.py:324 | setting the `price` column sets it on every bar and nothing else |
| CurrentBars.OverlayOne | friartuck/api.py:321-334 | the single path always ends with bid/ask columns and keeps the bars' count |
| CurrentBars.OverlayList | friartuck/api.py:363-371 | the list path keeps the bars' count |
| CurrentBars.Pick | friartuck/api.py:336-340 | with bid/ask columns present every field can be read |
| CurrentBars.CurrentAt | friartuck/api.py:304-340 | the single path read at the instant after the wait: on success the security is cached with at least one bar and bid/ask columns and no key is added but it; on error the cache is unchanged; other entries are never touched |
| CurrentBars.CurrentOneHit | friartuck/api.py:305 | a cached security is served without a history request |
| CurrentBars.CurrentOneOverlay | friartuck/api.py:322-334 | a live quote sets every bar's price and the bid/ask columns; without one the bid/ask columns are NaN and the price is kept |
| CurrentBars.SeededOneMiss | friartuck/api.py:305-318 | on a miss the history's own bars seed the cache; the placeholder guard is never taken, since this source's history is never empty |
| CurrentBars.CurrentOneRepeat | friartuck/api.py:304-340 | a repeat read with the same live quote gives the same reading and the same cache |
| CurrentBars.ListAsWrittenNeedsCacheAndField | friartuck/api.py:345-375 | as written, the list path succeeds only when every security was already cached and a field is given |
| CurrentBars.ListLoopEntries | friartuck/api.py:345-376 | the corrected list path answers for exactly the listed securities |
| CurrentBars.ListLoopCaches | friartuck/api.py:345-371 | the corrected list path keeps every cached security cached and caches every listed one |
| CurrentBars.ListLoopOne | friartuck/api.py:345-376 | a one-element list is one step of the loop |
| CurrentBars.ListMissRaisesAsWritten | friartuck/api.py:347-350 | as written, `current([sec], "price")` for an uncached security whose history loads raises `ValueError` |
| CurrentBars.ListMissAnswers | friartuck/api.py:347-350 | corrected, the same loop answers for exactly that security and caches it |
| CurrentBars.ListNoFieldRaisesAsWritten | friartuck/api.py:373-375 | as written, `current([sec], None)` with a cached security raises `KeyError` |
| CurrentBars.ListNoFieldAnswers | friartuck/api.py:373-375 | corrected, the same call answers for exactly that security with its whole row |
| Engine.LoadAllData | friartuck/api.py:615-647 | before the watermark nothing changes and the load succeeds; a market-info failure with unknown hours raises; a profile failure fails and keeps the watermark; a success advances it per the throttle rule |
| Engine.LoadThrottles | friartuck/api.py:617-618 | a second load before the new watermark changes nothing |
| Engine.TriggerTime | friartuck/api.py:770-783 | no job without an interval or a time; a direct time keeps its `%H:%M`; an interval arms the minute that far ahead |
| Engine.NextWake | friartuck/api.py:590-612 | the timer is re-armed exactly when the next target can be computed, at that target's `%H:%M` |
| Engine.Cycle | friartuck/api.py:537-613 | on weekends the state is unchanged; `initialized` is never changed by a cycle; a callback runs only on a weekday whose load succeeded; `on_market_open` only with the market open |
| Engine.Resume | friartuck/api.py:546-588 | after a load that did not succeed the state is left as the load left it, no callback runs and the job ends early |
| Engine.Reaction | friartuck/api.py:553-588 | the context flag becomes the market flag, and `on_market_open` runs iff the market is open, it was closed before or this is the first cycle, and the algorithm defines it |
| Engine.AfterLoad | friartuck/api.py:553-588 | after a successful load only the context flag and the owed-update flag change |
| Engine.WeekendSkipsBody | friartuck/api.py:539-613 | a weekend cycle runs no callback, changes nothing, and still re-arms |
| Engine.WeekdayStampsMinute | friartuck/api.py:541-546 | a weekday cycle stamps the minute, empties the current-bar cache and loads |
| Engine.FailedLoadRetriesNextMinute | friartuck/api.py:546-551 | a failed load re-arms for the next whole minute and calls nothing |
| Engine.RaisedLoadStalls | friartuck/api.py:546 | a load that raises leaves nothing scheduled and calls nothing |
| Engine.MarketOpenEdge | friartuck/api.py:554-559 | `on_market_open` runs iff the load succeeded, the market is open now, it was closed before or this is the first cycle, and the algorithm defines it |
| Engine.ClosingCatchUp | friartuck/api.py:575-585 | on an intraday frequency with the market closed, `handle_data` runs iff the market was open before or an update is owed |
| Engine.HandlerGate | friartuck/api.py:569-583 | with the market open, `handle_data` runs iff now is past the gate (the top of the hour after the opening for `1h`, one minute after it otherwise) or an update is owed |
| Engine.DailyHandlerWhenClosed | friartuck/api.py:566-583 | for `1d`, `handle_data` runs iff the market is closed |
| Engine.OwedUpdateCleared | friartuck/api.py:584-588 | an owed update is cleared iff `handle_data` ran and returned normally |
| Engine.MinuteWake | friartuck/api.py:606-608 | `1m` runs next at the start of the next minute |
| Engine.HourlyWakeWhileOpen | friartuck/api.py:603-605 | `1h` with the market open runs next at the next top of the hour |
| Engine.HourlyWakeAtOpening | friartuck/api.py:598-599 | `1h` before the opening runs next at the opening's minute |
| Engine.DailyWakeAfterClose | friartuck/api.py:590-596 | `1d` before the close runs next five minutes after the close |
| Engine.DailyWakeNextDay | friartuck/api.py:590-596 | `1d` once the close has passed re-arms iff the next trading day's record and close are known, and runs next five minutes after that close |
| Engine.HourlyWakeNextOpening | friartuck/api.py:600-602 | `1h` with the market closed and the close passed re-arms iff the next trading day's record and opening are known, and runs next at that opening's minute |
| Engine.HourlyWakeBetween | friartuck/api.py:597-605 | `1h` with the market closed between the opening and the close runs next at the next top of the hour |
| Engine.IntervalTrigger | friartuck/api.py:779-783 | an interval of `m` minutes runs the job at the start of the minute `m` minutes on |
| Live.FriarTuckLive.constructor | friartuck/api.py:212-240 | the engine's fields start empty, with the frequency, now as the active time, and the definition-time watermark |
| Live.FriarTuckLive.FetchAndBuildSecurity | friartuck/api.py:507-535 | the search loop and the cache update equal `FetchSecurity` |
| Live.FriarTuckLive.SeedSeries | friartuck/api.py:305-318 | the cache after seeding a miss equals the specification |
| Live.FriarTuckLive.Current | friartuck/api.py:298-340 | the single-security read and the cache equal `CurrentOne`, the read at the instant after the wait |
| Live.FriarTuckLive.CurrentAfterWait | friartuck/api.py:304-340 | after the wait, the read and the cache equal `CurrentAt` |
| Live.FriarTuckLive.CurrentStep | friartuck/api.py:345-375 | one pass of the list loop equals the corrected step |
| Live.FriarTuckLive.CurrentOfList | friartuck/api.py:341-376 | the list loop's readings and cache equal the corrected `CurrentList` |
| Live.FriarTuckLive.CurrentListAfterWait | friartuck/api.py:345-376 | after the wait, the security loop's readings and cache equal `ListLoop` from an empty answer |
| Live.FriarTuckLive.LoadMarketInfo | friartuck/api.py:649-662 | the calendar fields and the outcome equal `Market.LoadMarketInfo` |
| Live.FriarTuckLive.TallyPosition | friartuck/api.py:702-729 | one pass of the position loop, on the fields, equals `Step` |
| Live.FriarTuckLive.TallyPositions | friartuck/api.py:700-729 | the position loop equals `TallyOf` from the starting books |
| Live.FriarTuckLive.SettlePosition | friartuck/api.py:709-729 | the price fallback, the remembered last price, the position entry and the value and gain updates of a held position equal `Settle`, and the remembered prices are those of the result |
| Profile.PositionGain | friartuck/api.py:724-729 | the gain is defined exactly when there is a price; long, gain plus cost is the market value; short, gain plus market value is the cost |
| Live.FriarTuckLive.LoadProfileInfo | friartuck/api.py:666-767 | the reconciliation of the fields equals `LoadProfile` |
| Live.FriarTuckLive.StoreFigures | friartuck/api.py:731-767 | the portfolio is always stored; the account is stored, and the call succeeds, iff the portfolio value is non-zero (`cushion` divides by it) |
| Live.FriarTuckLive.LoadAllData | friartuck/api.py:615-647 | the fields and the outcome equal `Engine.LoadAllData` |
| Live.FriarTuckLive.SetActiveAlgo | friartuck/api.py:243-247 | empties the current-bar cache, loads, and reaches `initialize` unless the load raised |
| Live.FriarTuckLive.BeginWeekday | friartuck/api.py:541-546 | stamps the minute, empties the current-bar cache, and loads: the data fields and the outcome equal `Engine.LoadAllData` |
| Live.FriarTuckLive.ProcessWeekday | friartuck/api.py:540-588 | the weekday body on the fields equals `CycleBody` |
| Live.FriarTuckLive.Resume | friartuck/api.py:546-588 | the rest of the body, once the load has ended, equals `Engine.Resume` |
| Live.FriarTuckLive.React | friartuck/api.py:553-588 | the callbacks and the two flags after a successful load equal `Reaction` |
| Live.FriarTuckLive.CallHandler | friartuck/api.py:575-588 | a closing market makes an update owed; `handle_data` runs per `CallsHandler`, and a normal return clears the owed update |
| Live.FriarTuckLive.TimeIntervalProcessor | friartuck/api.py:537-613 | one firing on the fields equals `Engine.Cycle` |
| Live.FriarTuckLive.RunEngine | friartuck/api.py:254-258 | the first run fires one cycle and marks the engine initialized unless that cycle stalled; later runs change nothing |
| Live.FriarTuckLive.MarkInitialized | friartuck/api.py:258 | `_initialized` is set after a cycle that re-armed, and nothing else changes |
| Engine.NextTarget | friartuck/api.py:590-608 | the re-arm instant per frequency and the exception each branch can raise; its cases are stated by `MinuteWake`, `HourlyWakeWhileOpen`, `HourlyWakeAtOpening`, `HourlyWakeBetween`, `HourlyWakeNextOpening`, `DailyWakeAfterClose` and `DailyWakeNextDay` |
| Engine.CycleBody | friartuck/api.py:540-588 | the weekday body of a firing: stamp the minute, empty the cache, load, then the callbacks; its properties are stated by `WeekdayStampsMinute`, `FailedLoadRetriesNextMinute`, `RaisedLoadStalls`, `MarketOpenEdge` and `HandlerGate` |
| Engine.HandleGate | friartuck/api.py:565-572 | the handler gate: the top of the hour after the opening for `1h`, a minute after it otherwise, and none for `1d`; `HandlerGate` and `DailyHandlerWhenClosed` state how it decides `handle_data` |
| CurrentBars.CurrentOne | friartuck/api.py:298-340 | `current(sec, field)` is the single path read at the instant after the wait; `CurrentAt` and `WaitReachesSecondTen` state what it returns and caches |
| CurrentBars.CurrentList | friartuck/api.py:341-376 | `current(secs, field)`, corrected, is the list loop run after the wait; `ListLoopEntries` and `ListLoopCaches` state its answers and cache |
| CurrentBars.ListStep | friartuck/api.py:345-375 | one corrected pass caches at most the one security, leaves every other cached security as it was, and caches that security when it answers |
| CurrentBars.CurrentListAsWritten | friartuck/api.py:341-376 | `current(secs, field)` as written; `ListAsWrittenNeedsCacheAndField` states when it can succeed |
| CurrentBars.ListStepAsWritten | friartuck/api.py:345-375 | one pass as written answers only for an already cached security and a given field |
| GoogleQuotes.ParseLine | friartuck/quote_source.py:122-150 | one line of the response: skipped before the first `a`-line, otherwise six fields read into one bar; `ParseLineCases`, `ParsedFields` and `ParsedFieldValues` state its effect |
| GoogleQuotes.LoadFor | friartuck/quote_source.py:55-91 | `_load_quotes` of one symbol with the request parameters of the frequency; `LoadedBarsAreLastParsed` states its result |
| GoogleQuotes.LoadAll | friartuck/quote_source.py:89-94 | the symbol loop of `fetch_quotes`; `LoadAllEntries` and `FetchListPerSymbol` state its entries |
| IexTrading.DailySpec | friartuck/iextrading/iextrading.py:26-96 | what `get_quote_daily` returns for the chart records; `DailyResult` states its error case and its bars |
| IexTrading.Step | friartuck/iextrading/iextrading.py:298-350 | one record of `summarize_quote`; `SkippedRecordIgnored`, `BucketBoundary` and `InBucketFold` state its cases |
| IexTrading.Gather | friartuck/iextrading/iextrading.py:252-266 | the bars gathered over the fetched days, older days in front; `GatherSnoc` states one more day |
| IexTrading.WalkResult | friartuck/iextrading/iextrading.py:268-280 | a failure is passed on; otherwise the result is never empty for a positive count, and with gathered bars it is the last `min(bars, gathered)` of them |
| AlphaVantage.DailySpec | friartuck/alphavantage/alphavantage.py:12-69 | what `get_quote_daily` returns; `DailyFails`, `DailyResult` and `DailyKeepsLatest` state its error case and its bars |
| AlphaVantage.KeptBars | friartuck/alphavantage/alphavantage.py:112-138 | the intraday entries kept after the start, shifted and prepended; `KeptBarsExactly` states which |
| Orders.OrderShares | friartuck/api.py:431-459 | `order_shares` places the request built by `OrderSharesRequest`, whose contract states it |
| Orders.IsMarketOrder | friartuck/api.py:117-120 | `is_market_order`: neither a truthy price nor a truthy stop price; `MarketOrderRequest` states its use |
| Orders.GroupOpen | friartuck/api.py:389-405 | the grouping of the open orders by symbol; `GroupOpenIsPicked`, `PickedAreOpen` and `GroupOpenErrSticks` state its content |
| Orders.OpenOrdersSpec | friartuck/api.py:384-412 | what `get_open_orders` returns; `GetOpenOrders` is proved equal to it |
| Profile.Settle | friartuck/api.py:709-729 | a held position is priced, entered into `positions` and added to the values and the gain; `ShortValueReassigned` and `LongValueIsLongCost` state its value updates |
| Profile.Step | friartuck/api.py:702-729 | one pass of the position loop; `FlatPositionsIgnored` states the zero-quantity case |
| Profile.TallyOf | friartuck/api.py:700-729 | the position loop as a left fold; `TallyOfSnoc`, `LongValueIsLongCost` and `NoShortsNoShortValue` state its properties |
| Profile.PortfolioFigures | friartuck/api.py:691-746 | the portfolio figures; `PortfolioFiguresDerived` states them |
| Profile.AccountFigures | friartuck/api.py:732-765 | the account figures; `AccountFiguresDerived` states them |
| Market.Store | friartuck/api.py:654-662 | the record is always stored; the load succeeds iff both instants are present, and then sets them and the flag `opens <= now < closes`; a missing instant leaves the flag and the later fields as they were |
| Securities.BuildSecurity | friartuck/api.py:521-533 | the security built from an instrument record; `FetchSecurity` states how it is cached |
| Securities.SymbolMap | friartuck/api.py:786-794 | `security_to_symbol_map`; `SymbolMapKeys`, `SymbolMapOf` and `SymbolMapLastWins` state its content |

## Left out

- **Threads and scheduling.** This covers the scheduler thread, the `schedule` job list, `run_scheduler`, `stop_engine` and the `synchronized_method` lock (concurrency). The model keeps a single firing and its single re-arm target.
- **Sleeps and the clock.** `time.sleep` and `datetime.now()` are left out: `now` is a parameter. Every `now()` inside one call is the same instant. Microseconds are dropped.
- **External services.** The Robinhood client, `urllib`, the providers and TinyDB are left out (I/O). Their answers are parameters.
- **Parsing the broker's records.** `strptime`, `float` and `int` of broker fields are left out: records arrive with numbers and instants already parsed, and broker times are already local.
- **Rounding.** `round(..., 7)` in the tick roundings and `round(price, 2)` in `order_shares` are left out (floating-point presentation). `real` is exact.
- **Column projection.** The `field` argument of `history`/`_load_quotes` (friartuck/quote_source.py:166-167) is left out: rows are returned.
- **Other `FriarTuckLive` methods.** `order_value`, `cancel_order`, `get_order`, `can_trade` and `get_datetime` are left out. They are thin broker calls or accessors outside the named core.
- **Reconciliation details.** `__load_profile_info` records `start_date`, `day_trades_remaining = inf` and `accrued_interest`; these are left out (clock and constant fields). `excess_liquidity` is taken as a number, where the source stores the raw string.
- Text.ParseInt: only an optional sign and decimal digits are read; the surrounding white space and the `_` digit separators that Python's `int()` also accepts make the model raise, because the feed's fields are plain digits.
- Text.ParseDecimal: only plain decimal notation (an optional sign, digits and an optional point) is read; exponents, `nan`, `inf`, surrounding white space and `_` separators, which `float()` also accepts, make the model raise, because the feed's fields are plain decimals.
- Profile.LoadProfile: the two `current(security, "price")` readings per position are inputs (`firstPrice`, `secondPrice`), so their effect on the current-bar cache and any exception they raise are not modelled.
- **Class attributes.** The source keeps `FriarTuckLive`'s dictionaries as class attributes shared by every instance. The model gives each object its own fields, so aliasing between instances is not captured.
- Engine.NextWake: the next day's record for `1d`/`1h` past the close is the stored record's `next_open_hours` link; the source requests it afresh, and that request's own failure is modelled only as a missing link.
- Engine.Cycle: the algorithm's callbacks are reduced to whether `on_market_open` exists and whether `handle_data` raises. Their own effects on the context are not modelled.
- **Instrument lookup.** In `get_open_orders` and the position loop it is a parameter `symbolAt` / a record field.
- **Out of scope.** `friartuck/Robinhood/Robinhood.py`, `friartuck/broker.py`, `friartuck/__init__.py` (except `utc_to_local`, a parameter), the demo scripts and `friar_tuck_run.py` are not part of this model.

## Findings

| source | as written | input that shows it | evidently intended | confidence | as-written member | corrected member |
|---|---|---|---|---|---|---|
| friartuck/api.py:348-350 | the list path of `current` seeds a missing security with `history(sec)`, which returns one DataFrame, and then evaluates `not security_bars`; a DataFrame's truth value raises `ValueError` | `current([sec], "price")` for any `sec` not yet cached, with an allowed frequency | seed with `history([sec])`, a dict keyed by security, and fall back to the placeholder when the key is missing | high, not executed | CurrentBars.CurrentListAsWritten, CurrentBars.ListMissRaisesAsWritten | CurrentBars.CurrentList, CurrentBars.ListMissAnswers |
| friartuck/api.py:373-375 | with a falsy field the whole row is stored, and the next line unconditionally indexes the row with `field`, i.e. `row[None]`, which raises `KeyError` | `current([sec], None)` with `sec` cached (the method has no default for `field`, so the argument is passed explicitly) | return the whole row when no field is given (as the single-security path does at friartuck/api.py:336-337) | medium, not executed | CurrentBars.ListStepAsWritten, CurrentBars.ListNoFieldRaisesAsWritten | CurrentBars.ListStep, CurrentBars.ListNoFieldAnswers |
