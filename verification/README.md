# Open-high-low pattern backtest: trade-outcome model

This project models the trade-outcome logic of `OHLPatternAnalyzer`
(`ohl_pattern_analyzer.py`) in Dafny and proves properties of it. The analyzer
backtests a simple rule for a list of (symbol, date) pattern occurrences:

- **Weekend adjustment** (`Calendar`). A pattern date that falls on a Saturday
  or Sunday moves forward to the next weekday.
- **Quote cache** (`QuoteCache`). Lookups are memoised by (symbol, date,
  interval). Only tables that are not None are stored. An upstream exception
  is logged as one error and answered with None.
- **Level derivation** (`Levels`). The entry is the highest High of the
  pattern-day rows. The stop is the lowest Low of the rows dated the calendar
  day before. Each level falls back to the whole table when no row has that
  exact date.
- **Outcome resolver** (`Outcome`). A single forward, first-touch scan runs over
  the rows dated after the pattern day. A row whose High reaches `entry × 1.002`
  while its Low stays above the stop is a target hit. Otherwise, a row whose
  Low touches the stop is a stop-loss hit. If the rows run out first, the
  result is a time exit with the last close and the extreme High and Low.
- **Summary** (`Aggregator`). Counts and rates of the three outcomes.
- **Driver** (`Analyzer`). Runs the pieces above for each occurrence, in input
  order, threading the cache through an explicit `Session` value.

Modelling choices:

- Dates are integer day numbers equal to Python's `date.toordinal() - 1`.
  Day 0 is then a Monday and `d % 7` is `date.weekday()`. The source compares
  `'%Y-%m-%d'` strings (lines 131, 296 and 312). For four-digit years that
  string order is the date order, so the model compares integers.
- Prices are exact `real`s.
- The upstream `fetch_intraday` is a parameter `fetch: Key -> Fetched`. It
  either returns a table or None, or raises with a message.
- The session keeps a log of upstream calls, so "no further fetch" can be
  stated and proved.
- The cache key `f"{symbol}_{date_str}_{interval}"` is a tuple. Dates and
  intervals contain no underscore, so the string and the tuple determine each
  other.

Consequences worth knowing, all proved:

- The forward lookup at line 117 uses the same key as the pattern-day lookup
  at line 290, which was just cached. The scanned window is therefore the rows
  of the pattern-day table dated after the pattern day, in table order
  (`Analyzer.OccurrenceRecordIsTheScan`, `Bars.SelectAppend`).
- For an upstream that answers each key the same way every time, the cache
  changes no result. The records and errors of a batch are then
  determined by the upstream alone (`Analyzer.OccurrenceRecord`,
  `Analyzer.Records`, `Analyzer.BatchErrors`), whatever sound cache the
  batch starts from (`Analyzer.CachingDoesNotChangeResults`). A raise is
  never cached, so it is logged again at every lookup of its key.
- The error log stays empty with the shipped upstream. `fetch_intraday`
  (fetch_intraday.py, lines 69 and 107-109) catches every exception itself
  and answers None. Against an upstream that never raises, a batch logs no
  error (`Analyzer.NeverRaisingUpstreamLogsNothing`), so the summary's error
  count is 0. The raise path is still modelled because `get_stock_data`
  handles it.
- `days_to_check` bounds nothing. `end_dt` (line 99) is never used. A target
  or stop outcome depends only on the rows up to its exit row
  (`Outcome.DecidedOutcomeIsStable`, `Outcome.DaysToCheckIsOnlyRecorded`).
- `fetch_intraday` returns a table only when it holds a row for the requested
  day (fetch_intraday.py lines 93-104). Under that fact alone, the
  whole-table fallbacks of lines 324 and 326 are never taken
  (`Analyzer.FallbacksUnused`).
- Assume in addition that no returned row is dated a Saturday or Sunday.
  This is an assumption about the dates the upstream assigns, not a
  consequence of market hours. `fetch_intraday` dates each row by converting
  its timestamp in the machine's local time zone (fetch_intraday.py line 64).
  The assumption therefore holds when the analyzer runs in the exchange's
  time zone. Far enough west of it, a Monday session is dated Sunday. Under
  both assumptions:
  - the previous-day lookup of a Monday pattern asks for a Sunday and gets
    None, so the occurrence is skipped (`Analyzer.MondayPatternsAreSkipped`);
  - every weekend input date adjusts to a Monday, so every weekend input row
    is skipped (`Analyzer.WeekendRowsAreSkipped`).

Three behaviours of the code are easy to misread:

- **Cache contents.** The cache stores only non-None tables (lines 76-77).
  A None answer or a raise is not stored, so the next lookup of that key
  calls the upstream again.
- **No pattern-day rows.** When the pattern table has no row dated the
  pattern day, the entry falls back to the highest High of the whole table
  (line 324). It does not raise an error. The stop falls back the same way
  (line 326).
- **Forward window.** The scan is not bounded by `days_to_check`. It covers
  every row the lookup holds after the pattern date (lines 131 and 143).

## Model

| member | source | states |
|---|---|---|
| `Bars.Select` | ohl_pattern_analyzer.py:131 | the kept rows are exactly the rows passing the date filter; the result is non-empty iff some row passes; a table whose rows all pass is kept whole |
| `Bars.SelectKeepsOrder` | ohl_pattern_analyzer.py:131 | filtering keeps table order: date-ordered rows stay date-ordered |
| `Bars.SelectOne` | ohl_pattern_analyzer.py:131 | a single row is kept exactly when it passes the filter |
| `Bars.SelectAppend` | ohl_pattern_analyzer.py:131 | filtering a concatenation is the concatenation of the filtered parts, so kept rows stay in table order whatever the dates |
| `Bars.MaxHigh` | ohl_pattern_analyzer.py:323 | the result is a High of some row and no row's High exceeds it |
| `Bars.MinLow` | ohl_pattern_analyzer.py:325 | the result is a Low of some row and no row's Low is below it |
| `Calendar.FirstWeekdayFrom` | ohl_pattern_analyzer.py:29-31 | the stepping loop stops at the first weekday on or after its start, skipping only weekend days |
| `Calendar.NextWeekday` | ohl_pattern_analyzer.py:27-32 | `next_weekday` returns a strictly later weekday with no weekday in between |
| `Calendar.NextWeekdayWithinThree` | ohl_pattern_analyzer.py:27-32 | the next weekday is at most three days later (Friday to Monday) |
| `Calendar.NextWeekdayLoop` | ohl_pattern_analyzer.py:27-32 | the while loop as written returns a strictly later weekday with no weekday skipped |
| `Calendar.AdjustDate` | ohl_pattern_analyzer.py:50-53 | the adjusted date is a weekday, never earlier than the input, equal to it on a weekday, and the earliest such weekday |
| `Calendar.AdjustIdempotent` | ohl_pattern_analyzer.py:47-53 | adjusting an adjusted date changes nothing |
| `Calendar.WeekendAdjustsToMonday` | ohl_pattern_analyzer.py:47-53 | a Saturday or Sunday adjusts to the following Monday |
| `Calendar.AdjustDates` | ohl_pattern_analyzer.py:47-53 | the loop yields one adjusted date per input date, each a weekday not earlier than its input and unchanged on weekdays |
| `Analyzer.LoadStockData` | ohl_pattern_analyzer.py:47-55 | each input row keeps its symbol and gets the earliest weekday on or after its date |
| `QuoteCache.GetStockData` | ohl_pattern_analyzer.py:65-83 | a cached key is answered from the cache with no upstream call; otherwise exactly one call is logged, only a non-None table is stored, and a raise yields None and exactly one error |
| `QuoteCache.CacheTransparent` | ohl_pattern_analyzer.py:65-83 | with a cache holding only upstream answers, a lookup returns what the upstream returns and the cache stays that way |
| `QuoteCache.RepeatLookupHitsCache` | ohl_pattern_analyzer.py:67-69 | after a lookup that produced a table, the same request returns that table with no further upstream call |
| `QuoteCache.NoneIsNotCached` | ohl_pattern_analyzer.py:76-78 | a None answer is not stored, so the next request for that key calls the upstream again |
| `QuoteCache.RaiseLogsOneError` | ohl_pattern_analyzer.py:79-83 | a raising upstream call returns None, appends exactly one error and leaves the cache unchanged |
| `Levels.DeriveLevels` | ohl_pattern_analyzer.py:322-335 | entry = highest High among rows dated the pattern day, else over the whole table; stop = lowest Low among rows dated the day before, else over the whole previous table |
| `Levels.EntryPositive` | ohl_pattern_analyzer.py:323-324 | with positive Highs the derived entry is positive |
| `Outcome.ConditionsExclusive` | ohl_pattern_analyzer.py:163-195 | no row satisfies both the target condition and the stop condition |
| `Outcome.ExitReasonMatchesFlags` | ohl_pattern_analyzer.py:175-260 | for a consistent record, `exit_reason` is "target_hit" iff `target_hit`, "stop_loss" iff `stop_loss_hit`, and "time_exit" iff neither flag is set |
| `Outcome.PatternStats` | ohl_pattern_analyzer.py:103-104 | pattern-day statistics use the first Open, last Close, and highest High and lowest Low of the whole unfiltered pattern lookup; move and range are percentages of the Open |
| `Outcome.FirstTouch` | ohl_pattern_analyzer.py:143-225 | the scan stops at the first row meeting either exit condition; no earlier row meets one; it runs to the end when none does |
| `Outcome.ResolveWindow` | ohl_pattern_analyzer.py:101-267 | the flags agree with the exit kind; entry, target = entry×1.002, stop, `stop_loss_gap` = −(stop's percent from the entry) and the pattern-day statistics are set alike for every exit; between one entry and one per window row is recorded |
| `Outcome.ScannedRows` | ohl_pattern_analyzer.py:142-225 | the performance entries describe the window's rows from the first on, each with its day offset, prices and close's return from the entry; no row before the last scanned one meets either exit condition |
| `Outcome.ExitOnLastScannedRow` | ohl_pattern_analyzer.py:163-225 | a target exit is reported on the last scanned row, which meets the target condition, with exit price = target and profit 0.2%; a stop exit is reported on a last row meeting the stop condition but not the target condition, with exit price = stop and loss = (stop−entry)/entry×100 |
| `Outcome.TimeExitWhenNothingFires` | ohl_pattern_analyzer.py:228-267 | a time exit happens iff no window row meets either condition; it then covers every row and reports the last close, its return, `days_to_check`, and the best and worst returns from the max High and min Low |
| `Outcome.Resolve` | ohl_pattern_analyzer.py:117-139 | no record iff the forward lookup is None or has no row after the pattern day; otherwise the scan covers exactly those rows, every day offset at least 1 |
| `Outcome.DecidedOutcomeIsStable` | ohl_pattern_analyzer.py:143-227 | appending rows after a window whose scan ended in a target or stop exit does not change the record |
| `Outcome.DaysToCheckIsOnlyRecorded` | ohl_pattern_analyzer.py:99-255 | `days_to_check` changes nothing but the `days_checked` field of a time exit |
| `Outcome.ScanWindow` | ohl_pattern_analyzer.py:142-267 | the source's loop, appending then testing target before stop, computes the same record as the first-touch resolver |
| `Analyzer.AnalyzeFuturePerformance` | ohl_pattern_analyzer.py:116-120 | when the pattern-day key is cached the forward lookup makes no upstream call and resolves over the cached table; the record's flags agree with its exit |
| `Analyzer.LookupsThroughCache` | ohl_pattern_analyzer.py:290-306 | the pattern-day and previous-day lookups answer what the upstream answers, make at most two calls, only append errors, and leave the pattern table cached |
| `Analyzer.OccurrenceRecord` | ohl_pattern_analyzer.py:294-339 | an occurrence has a record iff both lookups are non-empty tables and the pattern table has a row after the pattern day; the record's flags agree with its exit and it carries the occurrence's symbol and date |
| `Analyzer.OccurrenceRecordIsTheScan` | ohl_pattern_analyzer.py:116-139 | the record is the first-touch scan of the pattern table's rows dated after the pattern day, at the derived levels, because the forward lookup of line 117 returns the pattern-day table |
| `Analyzer.AnalyzeOccurrence` | ohl_pattern_analyzer.py:289-339 | through any sound cache, one occurrence yields exactly its cache-free record and appends exactly its cache-free errors; the cache stays sound; at most two upstream calls |
| `Analyzer.RecordCarriesDerivedLevels` | ohl_pattern_analyzer.py:322-337 | when both lookups are non-empty and the pattern table has a row after the pattern day, the record's entry and stop are the levels derived from the two lookups |
| `Analyzer.AnalyzeStocks` | ohl_pattern_analyzer.py:285-339 | the collected results are exactly the occurrences' records in input order, and the logged errors are exactly the batch's upstream errors in order; the cache stays sound; at most two upstream calls per occurrence |
| `Analyzer.Records` | ohl_pattern_analyzer.py:337-339 | the batch's records, in input order: at most one per occurrence, each with flags agreeing with its exit |
| `Analyzer.RecordsOne` | ohl_pattern_analyzer.py:337-339 | a one-occurrence batch collects exactly that occurrence's record, or nothing when it has none |
| `Analyzer.RecordsAppend` | ohl_pattern_analyzer.py:285-339 | a batch's records are the records of its parts in input order; with the one-occurrence case this fixes the results of every batch |
| `Analyzer.OccurrenceErrors` | ohl_pattern_analyzer.py:290-310 | the errors one occurrence logs, each formed from the key as at lines 79-81: a raising pattern-day lookup logs its one error and nothing more; an unusable pattern-day answer that did not raise logs nothing; after a usable pattern day, exactly a raising previous-day lookup logs one error for the previous day; never more than two |
| `Analyzer.BatchErrors` | ohl_pattern_analyzer.py:285-310 | the errors of a batch: none for an empty batch, at most two per occurrence |
| `Analyzer.BatchErrorsOne` | ohl_pattern_analyzer.py:285-310 | a one-occurrence batch logs exactly that occurrence's errors |
| `Analyzer.BatchErrorsAppend` | ohl_pattern_analyzer.py:285-310 | a batch's errors are the errors of its parts in input order; with the one-occurrence case this fixes the error log of every batch |
| `Analyzer.NeverRaisingUpstreamLogsNothing` | ohl_pattern_analyzer.py:73-83 | when the upstream never raises, the raise path of lines 79-83 is never taken and a batch logs no error |
| `Analyzer.CachingDoesNotChangeResults` | ohl_pattern_analyzer.py:65-83 | a batch run from any two sound caches gives the same records and logs the same new errors |
| `Analyzer.AnalyzeAndSummarize` | ohl_pattern_analyzer.py:428-438 | the results are the records of the weekend-adjusted rows in input order; the summary is the summary of those results and of the batch's errors; its time-exit count is the number of records with neither flag, and its rates sum to 100 |
| `Analyzer.MondayPatternsAreSkipped` | ohl_pattern_analyzer.py:301-310 | assuming the upstream returns only tables holding the requested day and dates no row on a weekend, a Monday pattern yields no record |
| `Analyzer.WeekendRowsAreSkipped` | ohl_pattern_analyzer.py:47-53 | under the same two assumptions, an input row dated on a weekend yields no record |
| `Analyzer.FallbacksUnused` | ohl_pattern_analyzer.py:322-326 | assuming the upstream returns only tables holding the requested day, whenever a record is produced its entry is the highest High dated the pattern day and its stop the lowest Low dated the day before |
| `Aggregator.Count` | ohl_pattern_analyzer.py:361-362 | the count is at most the total, zero iff no record is in the category, the total iff all are |
| `Aggregator.CountOne` | ohl_pattern_analyzer.py:361-362 | a single record counts 1 exactly when it is in the category, else 0 |
| `Aggregator.CountAppend` | ohl_pattern_analyzer.py:361-362 | the count of a concatenation is the sum of the counts of its parts; with the one-record case this fixes the count of every list |
| `Aggregator.GenerateSummary` | ohl_pattern_analyzer.py:354-424 | empty results give "No results to analyze"; otherwise the report holds the total, the two flag counts, the leftover time-exit count, each count as a percentage of the total, the error count, and the first five errors (all of them when there are fewer) |
| `Aggregator.CategoriesPartition` | ohl_pattern_analyzer.py:360-363 | for consistent records the target, stop and neither counts add up to the total |
| `Aggregator.TimeExitsAreTheUnflagged` | ohl_pattern_analyzer.py:363-396 | the time-exit count total − successful − stopped equals the number of records with both flags false |
| `Aggregator.RatesSumToHundred` | ohl_pattern_analyzer.py:365-367 | the three rates sum to 100 |
| `Aggregator.RatesAreBounded` | ohl_pattern_analyzer.py:365-367 | for consistent records each rate lies between 0 and 100 |
| `Scenarios.TargetHitOnSecondDay` | ohl_pattern_analyzer.py:162-192 | entry 100, stop 98: a day-1 High of 99 misses; day 2 (High 102, Low 99) hits the target at 100.2 |
| `Scenarios.StopHitOnFirstDay` | ohl_pattern_analyzer.py:194-225 | entry 100, stop 98: a day-1 Low of 97 is a stop-loss exit on day 1 with loss −2% |
| `Scenarios.TimeExitAfterQuietDay` | ohl_pattern_analyzer.py:227-267 | entry 100, stop 98: one quiet day closing at 98.7 is a time exit at −1.3% |
| `Scenarios.NoForwardRowsNoRecord` | ohl_pattern_analyzer.py:137-139 | a lookup with no row after the pattern day gives no record |

## Left out

- `fetch_intraday`, the network, retries and symbol suffixing: these are the upstream collaborator. It is the abstract parameter `fetch`, a deterministic function of the key.
- `time.sleep(0.1)` before each upstream call: a timing concern with no effect on results.
- CSV reading and `pd.to_datetime` parsing: I/O and library parsing. Input rows arrive as (symbol, day number).
- Timezone localisation (line 98): its result is never used.
- `log_debug`, `print`, progress output, `save_results`, the batch saves every 50 rows, and writing the debug log in `main`: all I/O.
- Text formatting of the summary, the means of days, losses and returns, the pattern-day min/max/mean statistics, and the date range: presentation over floats. The counts, rates and error preview are modelled.
- Python float rounding: prices are exact reals, so `entry * 1.002` and the percentages are exact.
- NaN rows and pandas' NaN-skipping `max`/`min` are not modelled.
- The `except` branch of `analyze_future_performance` (lines 269-273) is not modelled. With exact reals and the positivity requirement below, nothing in the modelled body can raise.
- Analyzer.AnalyzeOccurrence: requires every upstream table to have positive Open and High prices. The source divides by the entry and by the first Open, and at zero it would produce IEEE infinities or NaN, which exact reals cannot represent. `Analyzer.OccurrenceRecord`, `Analyzer.Records`, `Analyzer.AnalyzeStocks`, `Analyzer.AnalyzeAndSummarize` and the lemmas about them carry the same requirement.
- Outcome.Resolve: requires `entry > 0` and a positive first Open in the pattern table, for the same reason. `Outcome.ResolveWindow` and `Outcome.ScanWindow` carry the same requirement.
