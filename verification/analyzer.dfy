/** The driver of `OHLPatternAnalyzer`: weekend adjustment of the input rows
    (`load_stock_data`), then for each occurrence the pattern-day and
    previous-day lookups, level derivation and outcome resolution
    (`analyze_stocks`), and finally the summary. */
module Analyzer {
  import opened Bars
  import opened Calendar
  import opened QuoteCache
  import opened Levels
  import opened Outcome
  import Aggregator

  /** A parsed input row; `date` is the day as read, before weekend adjustment. */
  datatype InputRow = InputRow(symbol: string, date: int)

  /** A pattern occurrence whose date has been adjusted. */
  datatype Occurrence = Occurrence(symbol: string, date: int)

  /** Lines 47-55: every input date moved off the weekend. */
  function LoadStockData(rows: seq<InputRow>): (occs: seq<Occurrence>)
    ensures |occs| == |rows|
    ensures forall i :: 0 <= i < |rows| ==>
              && occs[i].symbol == rows[i].symbol
              && IsWeekday(occs[i].date)
              && rows[i].date <= occs[i].date
              && (IsWeekday(rows[i].date) ==> occs[i].date == rows[i].date)
              && (forall d :: rows[i].date <= d < occs[i].date ==> !IsWeekday(d))
  {
    seq(|rows|, i requires 0 <= i < |rows| => Occurrence(rows[i].symbol, AdjustDate(rows[i].date)))
  }

  /** Every table the upstream returns has positive Open and High prices. */
  ghost predicate PositiveUpstream(fetch: Fetcher) {
    forall k :: Lookup(fetch, k).Some? ==> PositivePrices(Lookup(fetch, k).value)
  }

  /** `data is not None and not data.empty`. */
  predicate Usable(t: Option<Table>) {
    t.Some? && |t.value| > 0
  }

  /** The key of the lookup for `symbol` on day `d`. */
  function DailyKey(symbol: string, d: int): Key {
    Key(symbol, d, DailyInterval)
  }

  /** `analyze_future_performance` with its own lookup of the pattern day
      (line 117) threaded through the session. */
  function AnalyzeFuturePerformance(s: Session, fetch: Fetcher, symbol: string, patternDate: int,
                                    entry: real, stop: real, patternData: Table): (res: (Session, Option<TradeRecord>))
    requires entry > 0.0
    requires |patternData| > 0 && patternData[0].open > 0.0
    ensures DailyKey(symbol, patternDate) in s.cache ==>
              && res.0 == s
              && res.1 == Resolve(symbol, patternDate, entry, stop, patternData,
                                  Some(s.cache[DailyKey(symbol, patternDate)]), DefaultDaysToCheck)
    ensures res.1.Some? ==> Consistent(res.1.value)
  {
    var (s1, futureData) := GetStockData(s, fetch, DailyKey(symbol, patternDate));
    (s1, Resolve(symbol, patternDate, entry, stop, patternData, futureData, DefaultDaysToCheck))
  }

  /** The upstream answers for one occurrence: its pattern day and the
      calendar day before it. */
  function PatternLookup(fetch: Fetcher, occ: Occurrence): Option<Table> {
    Lookup(fetch, DailyKey(occ.symbol, occ.date))
  }

  function PrevLookup(fetch: Fetcher, occ: Occurrence): Option<Table> {
    Lookup(fetch, DailyKey(occ.symbol, occ.date - 1))
  }

  /** The errors one occurrence logs: those of its pattern-day lookup, then,
      when that lookup is usable, those of its previous-day lookup. The
      forward lookup of line 117 is a cache hit and logs none. */
  function OccurrenceErrors(fetch: Fetcher, occ: Occurrence): (e: seq<FetchError>)
    ensures |e| <= 2
    // a raising pattern-day lookup logs its one error and ends the occurrence
    ensures fetch(DailyKey(occ.symbol, occ.date)).Raised? ==>
              e == [FetchError(occ.symbol, occ.date, fetch(DailyKey(occ.symbol, occ.date)).message)]
    // an unusable pattern-day answer that did not raise logs nothing
    ensures fetch(DailyKey(occ.symbol, occ.date)).Returned? && !Usable(PatternLookup(fetch, occ)) ==> e == []
    // after a usable pattern day, exactly a raising previous-day lookup logs
    ensures Usable(PatternLookup(fetch, occ)) ==>
              && (fetch(DailyKey(occ.symbol, occ.date - 1)).Returned? ==> e == [])
              && (fetch(DailyKey(occ.symbol, occ.date - 1)).Raised? ==>
                    e == [FetchError(occ.symbol, occ.date - 1, fetch(DailyKey(occ.symbol, occ.date - 1)).message)])
  {
    LookupErrors(fetch, DailyKey(occ.symbol, occ.date))
      + (if Usable(PatternLookup(fetch, occ)) then LookupErrors(fetch, DailyKey(occ.symbol, occ.date - 1)) else [])
  }

  /** What one occurrence contributes to `self.results`, stated without any
      cache: the forward lookup is answered with the pattern-day table itself,
      so the record is the resolution over that table, at the derived levels,
      whenever both lookups are usable. */
  function OccurrenceRecord(fetch: Fetcher, occ: Occurrence): (r: Option<TradeRecord>)
    requires PositiveUpstream(fetch)
    ensures r.Some? <==>
              && Usable(PatternLookup(fetch, occ))
              && Usable(PrevLookup(fetch, occ))
              && AnyMatch(PatternLookup(fetch, occ).value, After(occ.date))
    ensures r.Some? ==> Consistent(r.value) && r.value.symbol == occ.symbol && r.value.date == occ.date
  {
    var patternData := PatternLookup(fetch, occ);
    var prevData := PrevLookup(fetch, occ);
    if !Usable(patternData) || !Usable(prevData) then None
    else
      var levels := DeriveLevels(patternData.value, prevData.value, occ.date);
      EntryPositive(patternData.value, prevData.value, occ.date);
      Resolve(occ.symbol, occ.date, levels.entry, levels.stopLoss, patternData.value, patternData, DefaultDaysToCheck)
  }

  /** An occurrence's record is the first-touch scan of the pattern-day rows
      dated after the pattern day, at the levels derived from its two lookups. */
  lemma OccurrenceRecordIsTheScan(fetch: Fetcher, occ: Occurrence)
    requires PositiveUpstream(fetch)
    ensures var r := OccurrenceRecord(fetch, occ);
            r.Some? ==>
              var patternData := PatternLookup(fetch, occ).value;
              var levels := DeriveLevels(patternData, PrevLookup(fetch, occ).value, occ.date);
              && levels.entry > 0.0 && patternData[0].open > 0.0
              && r.value == ResolveWindow(occ.symbol, occ.date, levels.entry, levels.stopLoss, patternData,
                                          Select(patternData, After(occ.date)), DefaultDaysToCheck)
  {
    var patternData := PatternLookup(fetch, occ);
    var prevData := PrevLookup(fetch, occ);
    if Usable(patternData) && Usable(prevData) {
      EntryPositive(patternData.value, prevData.value, occ.date);
    }
  }

  /** The two lookups of one occurrence, through a sound cache, answer what
      the upstream answers, log what the upstream's raises give, and leave
      the pattern-day table cached. */
  lemma LookupsThroughCache(s: Session, fetch: Fetcher, occ: Occurrence)
    requires CacheSound(s.cache, fetch)
    ensures var first := GetStockData(s, fetch, DailyKey(occ.symbol, occ.date));
            && first.1 == PatternLookup(fetch, occ)
            && CacheSound(first.0.cache, fetch)
            && |s.calls| <= |first.0.calls| <= |s.calls| + 1
            && first.0.errors == s.errors + LookupErrors(fetch, DailyKey(occ.symbol, occ.date))
    ensures var first := GetStockData(s, fetch, DailyKey(occ.symbol, occ.date));
            var second := GetStockData(first.0, fetch, DailyKey(occ.symbol, occ.date - 1));
            && second.1 == PrevLookup(fetch, occ)
            && CacheSound(second.0.cache, fetch)
            && |s.calls| <= |second.0.calls| <= |s.calls| + 2
            && second.0.errors == first.0.errors + LookupErrors(fetch, DailyKey(occ.symbol, occ.date - 1))
            && (first.1.Some? ==> DailyKey(occ.symbol, occ.date) in second.0.cache &&
                                  second.0.cache[DailyKey(occ.symbol, occ.date)] == first.1.value)
  {
    var first := GetStockData(s, fetch, DailyKey(occ.symbol, occ.date));
    CacheTransparent(s, fetch, DailyKey(occ.symbol, occ.date));
    CacheTransparent(first.0, fetch, DailyKey(occ.symbol, occ.date - 1));
  }

  /** One iteration of the loop of `analyze_stocks` (lines 289-339), through
      the cache. Whatever a sound cache holds, the occurrence yields its
      cache-free record and logs its cache-free errors; at most two upstream
      calls are made, since the forward lookup of line 117 is a cache hit. */
  function AnalyzeOccurrence(s: Session, fetch: Fetcher, occ: Occurrence): (res: (Session, Option<TradeRecord>))
    requires CacheSound(s.cache, fetch) && PositiveUpstream(fetch)
    ensures CacheSound(res.0.cache, fetch)
    ensures |s.calls| <= |res.0.calls| <= |s.calls| + 2
    ensures res.0.errors == s.errors + OccurrenceErrors(fetch, occ)
    ensures res.1 == OccurrenceRecord(fetch, occ)
  {
    var patternKey := DailyKey(occ.symbol, occ.date);
    var prevKey := DailyKey(occ.symbol, occ.date - 1);
    LookupsThroughCache(s, fetch, occ);
    var first := GetStockData(s, fetch, patternKey);
    if !Usable(first.1) then (first.0, None)
    else
      var second := GetStockData(first.0, fetch, prevKey);
      if !Usable(second.1) then (second.0, None)
      else
        var patternData := first.1.value;
        var levels := DeriveLevels(patternData, second.1.value, occ.date);
        EntryPositive(patternData, second.1.value, occ.date);
        AnalyzeFuturePerformance(second.0, fetch, occ.symbol, occ.date, levels.entry, levels.stopLoss, patternData)
  }

  /** The occurrence's record as a list of zero or one element (`if result:`). */
  function Collected(r: Option<TradeRecord>): seq<TradeRecord> {
    if r.Some? then [r.value] else []
  }

  /** The records of a batch of occurrences, in input order, without any cache. */
  function Records(fetch: Fetcher, occs: seq<Occurrence>): (rs: seq<TradeRecord>)
    requires PositiveUpstream(fetch)
    ensures |rs| <= |occs|
    ensures forall i :: 0 <= i < |rs| ==> Consistent(rs[i])
  {
    if |occs| == 0 then []
    else
      var r := OccurrenceRecord(fetch, occs[0]);
      var rest := Records(fetch, occs[1..]);
      if r.Some? then [r.value] + rest else rest
  }

  /** The errors a batch logs, in input order, without any cache. */
  function BatchErrors(fetch: Fetcher, occs: seq<Occurrence>): (es: seq<FetchError>)
    ensures |es| <= 2 * |occs|
    ensures |occs| == 0 ==> es == []
  {
    if |occs| == 0 then [] else OccurrenceErrors(fetch, occs[0]) + BatchErrors(fetch, occs[1..])
  }

  /** One occurrence's batch logs that occurrence's errors. */
  lemma BatchErrorsOne(fetch: Fetcher, occ: Occurrence)
    ensures BatchErrors(fetch, [occ]) == OccurrenceErrors(fetch, occ)
  {
    assert [occ][1..] == [];
  }

  /** A batch's errors are those of its parts in order. With `BatchErrorsOne`
      this fixes `BatchErrors` on every batch. */
  lemma {:induction false} BatchErrorsAppend(fetch: Fetcher, a: seq<Occurrence>, b: seq<Occurrence>)
    ensures BatchErrors(fetch, a + b) == BatchErrors(fetch, a) + BatchErrors(fetch, b)
  {
    if |a| == 0 {
      assert a + b == b;
    } else {
      assert (a + b)[1..] == a[1..] + b;
      BatchErrorsAppend(fetch, a[1..], b);
      AppendAssociates(OccurrenceErrors(fetch, a[0]), BatchErrors(fetch, a[1..]), BatchErrors(fetch, b));
    }
  }

  lemma AppendAssociates<T>(a: seq<T>, b: seq<T>, c: seq<T>)
    ensures (a + b) + c == a + (b + c)
  {
  }

  /** A batch is its first occurrence followed by the rest. */
  lemma BatchStep(fetch: Fetcher, occs: seq<Occurrence>)
    requires PositiveUpstream(fetch) && |occs| > 0
    ensures Records(fetch, occs) == Collected(OccurrenceRecord(fetch, occs[0])) + Records(fetch, occs[1..])
    ensures BatchErrors(fetch, occs) == OccurrenceErrors(fetch, occs[0]) + BatchErrors(fetch, occs[1..])
  {
  }

  /** A one-occurrence batch collects that occurrence's record, if any. */
  lemma RecordsOne(fetch: Fetcher, occ: Occurrence)
    requires PositiveUpstream(fetch)
    ensures Records(fetch, [occ]) == Collected(OccurrenceRecord(fetch, occ))
  {
    assert [occ][1..] == [];
  }

  /** A batch's records are those of its parts in input order. With
      `RecordsOne` this fixes `Records` on every batch. */
  lemma {:induction false} RecordsAppend(fetch: Fetcher, a: seq<Occurrence>, b: seq<Occurrence>)
    requires PositiveUpstream(fetch)
    ensures Records(fetch, a + b) == Records(fetch, a) + Records(fetch, b)
  {
    if |a| == 0 {
      assert a + b == b;
    } else {
      assert (a + b)[0] == a[0];
      assert (a + b)[1..] == a[1..] + b;
      BatchStep(fetch, a);
      BatchStep(fetch, a + b);
      RecordsAppend(fetch, a[1..], b);
      AppendAssociates(Collected(OccurrenceRecord(fetch, a[0])), Records(fetch, a[1..]), Records(fetch, b));
    }
  }

  /** An upstream that catches its own failures and answers None instead. */
  ghost predicate NeverRaises(fetch: Fetcher) {
    forall key :: fetch(key).Returned?
  }

  /** With such an upstream no lookup logs an error, so a batch logs none. */
  lemma {:induction false} NeverRaisingUpstreamLogsNothing(fetch: Fetcher, occs: seq<Occurrence>)
    requires NeverRaises(fetch)
    ensures BatchErrors(fetch, occs) == []
  {
    if |occs| > 0 {
      var occ := occs[0];
      assert fetch(DailyKey(occ.symbol, occ.date)).Returned?;
      assert fetch(DailyKey(occ.symbol, occ.date - 1)).Returned?;
      NeverRaisingUpstreamLogsNothing(fetch, occs[1..]);
    }
  }

  /** The loop of `analyze_stocks` over all occurrences, in input order,
      collecting the records into `self.results`. Threading the cache through
      the batch changes neither the records nor the errors: they are the
      batch's cache-free ones. */
  function AnalyzeStocks(s: Session, fetch: Fetcher, occs: seq<Occurrence>): (res: (Session, seq<TradeRecord>))
    requires CacheSound(s.cache, fetch) && PositiveUpstream(fetch)
    ensures CacheSound(res.0.cache, fetch)
    ensures res.1 == Records(fetch, occs)
    ensures |res.1| <= |occs|
    ensures forall i :: 0 <= i < |res.1| ==> Consistent(res.1[i])
    ensures |s.calls| <= |res.0.calls| <= |s.calls| + 2 * |occs|
    ensures res.0.errors == s.errors + BatchErrors(fetch, occs)
    decreases |occs|
  {
    if |occs| == 0 then (s, [])
    else
      var head := AnalyzeOccurrence(s, fetch, occs[0]);
      var tail := AnalyzeStocks(head.0, fetch, occs[1..]);
      BatchStep(fetch, occs);
      AppendAssociates(s.errors, OccurrenceErrors(fetch, occs[0]), BatchErrors(fetch, occs[1..]));
      (tail.0, Collected(head.1) + tail.1)
  }

  /** Two runs of the same batch from any two sound caches, an empty one
      included, give the same records and log the same new errors. */
  lemma CachingDoesNotChangeResults(s1: Session, s2: Session, fetch: Fetcher, occs: seq<Occurrence>)
    requires CacheSound(s1.cache, fetch) && CacheSound(s2.cache, fetch) && PositiveUpstream(fetch)
    ensures AnalyzeStocks(s1, fetch, occs).1 == AnalyzeStocks(s2, fetch, occs).1
    ensures AnalyzeStocks(s1, fetch, occs).0.errors[|s1.errors|..]
         == AnalyzeStocks(s2, fetch, occs).0.errors[|s2.errors|..]
  {
    var e1 := AnalyzeStocks(s1, fetch, occs).0.errors;
    var e2 := AnalyzeStocks(s2, fetch, occs).0.errors;
    assert e1[|s1.errors|..] == BatchErrors(fetch, occs);
    assert e2[|s2.errors|..] == BatchErrors(fetch, occs);
  }

  /** `main`: load, analyze from an empty analyzer, summarise. The summary's
      time-exit count is the number of records with neither flag set. */
  function AnalyzeAndSummarize(rows: seq<InputRow>, fetch: Fetcher): (res: (seq<TradeRecord>, Aggregator.Summary))
    requires PositiveUpstream(fetch)
    ensures res.0 == Records(fetch, LoadStockData(rows))
    ensures res.1 == Aggregator.GenerateSummary(res.0, BatchErrors(fetch, LoadStockData(rows)))
    ensures |res.0| <= |rows|
    ensures res.1.NoResults? <==> |res.0| == 0
    ensures res.1.Report? ==>
              && res.1.total == |res.0|
              && res.1.timeExit == Aggregator.Count(res.0, Aggregator.Neither)
              && res.1.successRate + res.1.stopRate + res.1.timeExitRate == 100.0
  {
    var occs := LoadStockData(rows);
    var run := AnalyzeStocks(EmptySession, fetch, occs);
    var results := run.1;
    var errors := run.0.errors;
    assert errors == BatchErrors(fetch, occs) by {
      AppendAssociates([], BatchErrors(fetch, occs), []);
    }
    var summary := Aggregator.GenerateSummary(results, errors);
    if |results| > 0 then
      Aggregator.TimeExitsAreTheUnflagged(results, errors);
      Aggregator.RatesSumToHundred(results, errors);
      (results, summary)
    else (results, summary)
  }

  /** The upstream `fetch_intraday` returns a table only when it holds a row
      dated the requested day (fetch_intraday.py lines 93-104). */
  ghost predicate ReturnsOnlyRequestedDay(fetch: Fetcher) {
    forall k :: Lookup(fetch, k).Some? ==> HasDay(Lookup(fetch, k).value, k.date)
  }

  /** No returned row is dated a Saturday or Sunday. This is an assumption
      about the dates the upstream assigns, not about market hours: the
      upstream dates a row by converting its timestamp in the machine's local
      time zone (fetch_intraday.py line 64), so it holds when the analyzer
      runs in the exchange's time zone, while far enough west of it a Monday
      session is dated Sunday. */
  ghost predicate NoWeekendRows(fetch: Fetcher) {
    forall k :: Lookup(fetch, k).Some? ==>
      forall i :: 0 <= i < |Lookup(fetch, k).value| ==> IsWeekday(Lookup(fetch, k).value[i].date)
  }

  /** With such an upstream, a Monday pattern never yields a record: its
      previous calendar day is a Sunday, for which the upstream returns no table. */
  lemma MondayPatternsAreSkipped(s: Session, fetch: Fetcher, occ: Occurrence)
    requires CacheSound(s.cache, fetch) && PositiveUpstream(fetch)
    requires ReturnsOnlyRequestedDay(fetch) && NoWeekendRows(fetch)
    requires occ.date % DaysPerWeek == 0
    ensures AnalyzeOccurrence(s, fetch, occ).1.None?
  {
    assert (occ.date - 1) % DaysPerWeek == 6;
    NoTableForWeekendDay(fetch, DailyKey(occ.symbol, occ.date - 1));
    assert !Usable(PrevLookup(fetch, occ));
  }

  /** With such an upstream, a lookup for a Saturday or Sunday returns no table. */
  lemma NoTableForWeekendDay(fetch: Fetcher, k: Key)
    requires ReturnsOnlyRequestedDay(fetch) && NoWeekendRows(fetch)
    requires !IsWeekday(k.date)
    ensures Lookup(fetch, k).None?
  {
    if Lookup(fetch, k).Some? {
      assert false;
    }
  }

  /** Hence an input row dated on a weekend, which adjusts to a Monday, never
      yields a record either. */
  lemma WeekendRowsAreSkipped(s: Session, fetch: Fetcher, row: InputRow)
    requires CacheSound(s.cache, fetch) && PositiveUpstream(fetch)
    requires ReturnsOnlyRequestedDay(fetch) && NoWeekendRows(fetch)
    requires !IsWeekday(row.date)
    ensures AnalyzeOccurrence(s, fetch, LoadStockData([row])[0]).1.None?
  {
    WeekendAdjustsToMonday(row.date);
    MondayPatternsAreSkipped(s, fetch, LoadStockData([row])[0]);
  }

  /** A record carries the levels derived from its two lookups. */
  lemma RecordCarriesDerivedLevels(s: Session, fetch: Fetcher, occ: Occurrence)
    requires CacheSound(s.cache, fetch) && PositiveUpstream(fetch)
    requires Usable(PatternLookup(fetch, occ)) && Usable(PrevLookup(fetch, occ))
    requires AnyMatch(PatternLookup(fetch, occ).value, After(occ.date))
    ensures var r := AnalyzeOccurrence(s, fetch, occ).1.value;
            var levels := DeriveLevels(PatternLookup(fetch, occ).value, PrevLookup(fetch, occ).value, occ.date);
            r.entryPrice == levels.entry && r.stopLossPrice == levels.stopLoss
  {
    OccurrenceRecordIsTheScan(fetch, occ);
  }

  /** With such an upstream the fallbacks of lines 324 and 326 are never taken:
      the entry is the highest High dated the pattern day and the stop the
      lowest Low dated the day before. */
  lemma FallbacksUnused(s: Session, fetch: Fetcher, occ: Occurrence)
    requires CacheSound(s.cache, fetch) && PositiveUpstream(fetch)
    requires ReturnsOnlyRequestedDay(fetch)
    requires Usable(PatternLookup(fetch, occ)) && Usable(PrevLookup(fetch, occ))
    requires AnyMatch(PatternLookup(fetch, occ).value, After(occ.date))
    ensures var r := AnalyzeOccurrence(s, fetch, occ).1.value;
            && IsHighestHighOn(PatternLookup(fetch, occ).value, occ.date, r.entryPrice)
            && IsLowestLowOn(PrevLookup(fetch, occ).value, occ.date - 1, r.stopLossPrice)
  {
    RecordCarriesDerivedLevels(s, fetch, occ);
    LookupsHoldTheirDays(fetch, occ);
    Levels.LevelsOnPresentDays(PatternLookup(fetch, occ).value, PrevLookup(fetch, occ).value, occ.date);
  }

  /** With such an upstream, usable lookups hold rows dated the requested days. */
  lemma LookupsHoldTheirDays(fetch: Fetcher, occ: Occurrence)
    requires ReturnsOnlyRequestedDay(fetch)
    ensures Usable(PatternLookup(fetch, occ)) ==> HasDay(PatternLookup(fetch, occ).value, occ.date)
    ensures Usable(PrevLookup(fetch, occ)) ==> HasDay(PrevLookup(fetch, occ).value, occ.date - 1)
  {
    assert DailyKey(occ.symbol, occ.date).date == occ.date;
    assert DailyKey(occ.symbol, occ.date - 1).date == occ.date - 1;
  }
}
