/** The outcome resolver, `analyze_future_performance`: a single forward,
    first-touch scan over the daily rows dated after the pattern day, which
    ends in a target hit, a stop-loss hit, or a time exit when the rows run out. */
module Outcome {
  import opened Bars

  /** The fixed 0.2% profit target: `target_price = entry_price * 1.002`. */
  const TargetFactor: real := 1.002

  /** `profit_percent` reported on a target hit. */
  const ProfitPercent: real := 0.2

  /** The default `days_to_check`; it is recorded on a time exit but bounds nothing. */
  const DefaultDaysToCheck: int := 10

  /** `((price - entry) / entry) * 100`. */
  function PercentFrom(price: real, entry: real): real
    requires entry > 0.0
  {
    (price - entry) / entry * 100.0
  }

  /** A spread as a percentage of a base is the difference of the two
      percentages from that base. */
  lemma SpreadPercent(high: real, low: real, base: real)
    requires base > 0.0
    ensures (high - low) / base * 100.0 == PercentFrom(high, base) - PercentFrom(low, base)
  {
    assert (high - low) / base == (high - base) / base - (low - base) / base;
  }

  /** `stop_loss_gap` (line 102) is the stop's percentage from the entry, negated. */
  lemma GapIsNegatedPercent(entry: real, stop: real)
    requires entry > 0.0
    ensures (entry - stop) / entry * 100.0 == -PercentFrom(stop, entry)
  {
    assert (entry - stop) / entry == -((stop - entry) / entry);
  }

  /** Line 163: the High reaches the target while the Low stays above the stop. */
  predicate TargetCondition(b: Bar, target: real, stop: real) {
    b.high >= target && b.low > stop
  }

  /** Line 195: the Low touches the stop. */
  predicate StopCondition(b: Bar, stop: real) {
    b.low <= stop
  }

  /** The row ends the scan. */
  predicate Fires(b: Bar, target: real, stop: real) {
    TargetCondition(b, target, stop) || StopCondition(b, stop)
  }

  /** One entry of `daily_performance`. */
  datatype DayPerformance = DayPerformance(day: int, open: real, high: real, low: real, close: real, ret: real)

  /** The `pattern_day_*` fields, computed over the whole pattern-day lookup. */
  datatype PatternDayStats = PatternDayStats(open: real, high: real, low: real, close: real, range: real, move: real)

  /** The exit-specific fields of the three kinds of record. */
  datatype Exit =
    | TargetExit(daysToTarget: int, profitPercent: real, exitBar: Bar)
    | StopExit(daysToStop: int, lossPercent: real, exitBar: Bar)
    | TimeExit(finalPrice: real, finalPercent: real, daysChecked: int,
               bestPossibleReturn: real, worstPossibleReturn: real)

  /** The dictionary `analyze_future_performance` returns. */
  datatype TradeRecord = TradeRecord(
    date: int,
    symbol: string,
    entryPrice: real,
    targetPrice: real,
    stopLossPrice: real,
    stopLossGap: real,
    targetHit: bool,
    stopLossHit: bool,
    exit: Exit,
    dailyPerformance: seq<DayPerformance>,
    exitPrice: real,
    patternDay: PatternDayStats)

  /** The `target_hit` and `stop_loss_hit` flags agree with the exit reason:
      never both, and both false exactly on a time exit. */
  predicate Consistent(r: TradeRecord) {
    && r.targetHit == r.exit.TargetExit?
    && r.stopLossHit == r.exit.StopExit?
  }

  /** `exit_reason`. */
  function ExitReason(r: TradeRecord): string {
    match r.exit
    case TargetExit(_, _, _) => "target_hit"
    case StopExit(_, _, _) => "stop_loss"
    case TimeExit(_, _, _, _, _) => "time_exit"
  }

  /** For a consistent record the reported `exit_reason` and the two flags
      say the same thing (lines 175-181, 208-214 and 251-260). */
  lemma ExitReasonMatchesFlags(r: TradeRecord)
    requires Consistent(r)
    ensures ExitReason(r) == "target_hit" <==> r.targetHit
    ensures ExitReason(r) == "stop_loss" <==> r.stopLossHit
    ensures ExitReason(r) == "time_exit" <==> !r.targetHit && !r.stopLossHit
  {
    assert "target_hit"[0] != "stop_loss"[0] && "target_hit"[1] != "time_exit"[1] && "stop_loss"[0] != "time_exit"[0];
  }

  /** A row can never satisfy both exit conditions, so the order of the two
      tests only matters for which one is reported, not for whether one fires. */
  lemma ConditionsExclusive(b: Bar, target: real, stop: real)
    ensures !(TargetCondition(b, target, stop) && StopCondition(b, stop))
  {
  }

  /** The `daily_performance` entry of one scanned row. */
  function DayEntry(b: Bar, patternDate: int, entry: real): DayPerformance
    requires entry > 0.0
  {
    DayPerformance(b.date - patternDate, b.open, b.high, b.low, b.close, PercentFrom(b.close, entry))
  }

  function Performance(rows: Table, patternDate: int, entry: real): seq<DayPerformance>
    requires entry > 0.0
  {
    seq(|rows|, i requires 0 <= i < |rows| => DayEntry(rows[i], patternDate, entry))
  }

  /** Lines 103-104 and the `pattern_day_*` fields: first Open, highest High,
      lowest Low and last Close of the whole pattern-day lookup. */
  function PatternStats(patternData: Table): (st: PatternDayStats)
    requires |patternData| > 0 && patternData[0].open > 0.0
    ensures st.open == patternData[0].open && st.close == patternData[|patternData| - 1].close
    ensures IsHighestHigh(patternData, st.high) && IsLowestLow(patternData, st.low)
    ensures st.move == PercentFrom(st.close, st.open)
    ensures st.range == PercentFrom(st.high, st.open) - PercentFrom(st.low, st.open)
  {
    var open := patternData[0].open;
    var high := MaxHigh(patternData);
    var low := MinLow(patternData);
    var close := patternData[|patternData| - 1].close;
    SpreadPercent(high, low, open);
    PatternDayStats(open, high, low, close, (high - low) / open * 100.0, (close - open) / open * 100.0)
  }

  /** The index of the first row on which an exit condition holds, or the
      length of `rows` when none does. */
  function FirstTouch(rows: Table, target: real, stop: real): (k: nat)
    ensures k <= |rows|
    ensures forall j :: 0 <= j < k ==> !Fires(rows[j], target, stop)
    ensures k < |rows| ==> Fires(rows[k], target, stop)
  {
    if |rows| == 0 then 0
    else if Fires(rows[0], target, stop) then 0
    else
      var k := FirstTouch(rows[1..], target, stop);
      assert forall j :: 1 <= j < |rows| ==> rows[j] == rows[1..][j - 1];
      1 + k
  }

  /** A row that fires after none before it did is the first touch. */
  lemma FirstTouchAt(rows: Table, target: real, stop: real, i: nat)
    requires i < |rows| && Fires(rows[i], target, stop)
    requires forall j :: 0 <= j < i ==> !Fires(rows[j], target, stop)
    ensures FirstTouch(rows, target, stop) == i
  {
  }

  /** With no row firing, the scan runs to the end. */
  lemma NoTouch(rows: Table, target: real, stop: real)
    requires forall j :: 0 <= j < |rows| ==> !Fires(rows[j], target, stop)
    ensures FirstTouch(rows, target, stop) == |rows|
  {
  }

  /** Scanning one more row appends its entry. */
  lemma PerformanceExtend(rows: Table, i: nat, patternDate: int, entry: real)
    requires entry > 0.0 && i < |rows|
    ensures Performance(rows[..i + 1], patternDate, entry)
         == Performance(rows[..i], patternDate, entry) + [DayEntry(rows[i], patternDate, entry)]
  {
  }

  /** `daily` holds one entry per row of `window`, from its first row on:
      the day offset from the pattern day, the row's prices, and the close's
      return from the entry. */
  predicate DescribesRows(daily: seq<DayPerformance>, window: Table, patternDate: int, entry: real)
    requires entry > 0.0
  {
    && |daily| <= |window|
    && forall i :: 0 <= i < |daily| ==>
         && daily[i].day == window[i].date - patternDate
         && daily[i].open == window[i].open
         && daily[i].high == window[i].high
         && daily[i].low == window[i].low
         && daily[i].close == window[i].close
         && daily[i].ret == PercentFrom(window[i].close, entry)
  }

  /** The entries of the first `n` rows describe those rows. */
  lemma PerformanceDescribesRows(window: Table, n: nat, patternDate: int, entry: real)
    requires entry > 0.0 && n <= |window|
    ensures |Performance(window[..n], patternDate, entry)| == n
    ensures DescribesRows(Performance(window[..n], patternDate, entry), window, patternDate, entry)
  {
  }

  /** The record of a target exit on `row` (lines 168-192). */
  function TargetRecord(symbol: string, patternDate: int, entry: real, stop: real, gap: real,
                        stats: PatternDayStats, row: Bar, daily: seq<DayPerformance>): TradeRecord {
    var target := entry * TargetFactor;
    TradeRecord(patternDate, symbol, entry, target, stop, gap, true, false,
                TargetExit(row.date - patternDate, ProfitPercent, row), daily, target, stats)
  }

  /** The record of a stop-loss exit on `row` (lines 201-225). */
  function StopRecord(symbol: string, patternDate: int, entry: real, stop: real, gap: real,
                      stats: PatternDayStats, row: Bar, daily: seq<DayPerformance>): TradeRecord
    requires entry > 0.0
  {
    TradeRecord(patternDate, symbol, entry, entry * TargetFactor, stop, gap, false, true,
                StopExit(row.date - patternDate, (stop - entry) / entry * 100.0, row), daily, stop, stats)
  }

  /** The record of a time exit after scanning all of `window` (lines 228-267). */
  function TimeRecord(symbol: string, patternDate: int, entry: real, stop: real, gap: real,
                      stats: PatternDayStats, window: Table, daily: seq<DayPerformance>, daysToCheck: int): TradeRecord
    requires entry > 0.0 && |window| > 0
  {
    var lastClose := window[|window| - 1].close;
    TradeRecord(patternDate, symbol, entry, entry * TargetFactor, stop, gap, false, false,
                TimeExit(lastClose, (lastClose - entry) / entry * 100.0, daysToCheck,
                         (MaxHigh(window) - entry) / entry * 100.0,
                         (MinLow(window) - entry) / entry * 100.0),
                daily, lastClose, stats)
  }

  /** The record for a non-empty window of rows already restricted to dates
      after the pattern day (lines 101-102 and 142-267). Its contract fixes
      the fields every kind of exit shares; the lemmas below state which rows
      were scanned and what each kind of exit reports. */
  function ResolveWindow(symbol: string, patternDate: int, entry: real, stop: real,
                         patternData: Table, window: Table, daysToCheck: int): (r: TradeRecord)
    requires entry > 0.0 && |window| > 0
    requires |patternData| > 0 && patternData[0].open > 0.0
    ensures Consistent(r)
    ensures r.symbol == symbol && r.date == patternDate
    ensures r.entryPrice == entry && r.stopLossPrice == stop && r.targetPrice == entry * TargetFactor
    ensures r.stopLossGap == -PercentFrom(stop, entry)
    ensures r.patternDay == PatternStats(patternData)
    // one entry per scanned row, up to and including the exit row
    ensures 1 <= |r.dailyPerformance| <= |window|
  {
    var target := entry * TargetFactor;
    var gap := (entry - stop) / entry * 100.0;
    GapIsNegatedPercent(entry, stop);
    var stats := PatternStats(patternData);
    var k := FirstTouch(window, target, stop);
    if k < |window| then
      var row := window[k];
      var daily := Performance(window[..k + 1], patternDate, entry);
      if TargetCondition(row, target, stop) then
        TargetRecord(symbol, patternDate, entry, stop, gap, stats, row, daily)
      else
        StopRecord(symbol, patternDate, entry, stop, gap, stats, row, daily)
    else
      TimeRecord(symbol, patternDate, entry, stop, gap, stats, window, Performance(window, patternDate, entry), daysToCheck)
  }

  /** The scan reads the window from its first row and stops at the first row
      meeting either condition: the performance entries describe exactly the
      rows scanned, and no row before the last scanned one fired. */
  lemma ScannedRows(symbol: string, patternDate: int, entry: real, stop: real,
                    patternData: Table, window: Table, daysToCheck: int)
    requires entry > 0.0 && |window| > 0
    requires |patternData| > 0 && patternData[0].open > 0.0
    ensures var r := ResolveWindow(symbol, patternDate, entry, stop, patternData, window, daysToCheck);
            && DescribesRows(r.dailyPerformance, window, patternDate, entry)
            && forall i :: 0 <= i < |r.dailyPerformance| - 1 ==> !Fires(window[i], r.targetPrice, stop)
  {
    var k := FirstTouch(window, entry * TargetFactor, stop);
    if k < |window| {
      PerformanceDescribesRows(window, k + 1, patternDate, entry);
    } else {
      assert window[..|window|] == window;
      PerformanceDescribesRows(window, |window|, patternDate, entry);
    }
  }

  /** A target or stop exit is reported on the last scanned row, which meets
      the target condition (lines 163-192), or else the stop condition
      (lines 195-225). */
  lemma ExitOnLastScannedRow(symbol: string, patternDate: int, entry: real, stop: real,
                             patternData: Table, window: Table, daysToCheck: int)
    requires entry > 0.0 && |window| > 0
    requires |patternData| > 0 && patternData[0].open > 0.0
    ensures var r := ResolveWindow(symbol, patternDate, entry, stop, patternData, window, daysToCheck);
            var k := |r.dailyPerformance| - 1;
            && (r.exit.TargetExit? ==>
                  && TargetCondition(window[k], r.targetPrice, stop)
                  && r.exit.daysToTarget == window[k].date - patternDate
                  && r.exit.exitBar == window[k]
                  && r.exit.profitPercent == ProfitPercent
                  && r.exitPrice == r.targetPrice)
            && (r.exit.StopExit? ==>
                  && StopCondition(window[k], stop)
                  && !TargetCondition(window[k], r.targetPrice, stop)
                  && r.exit.daysToStop == window[k].date - patternDate
                  && r.exit.exitBar == window[k]
                  && r.exit.lossPercent == PercentFrom(stop, entry)
                  && r.exitPrice == stop)
  {
    var k := FirstTouch(window, entry * TargetFactor, stop);
    if k < |window| {
      PerformanceDescribesRows(window, k + 1, patternDate, entry);
    }
  }

  /** The time exit (lines 228-267) happens exactly when no row fires; it
      reports the last row's close and the best and worst returns over the
      whole window. */
  lemma TimeExitWhenNothingFires(symbol: string, patternDate: int, entry: real, stop: real,
                                 patternData: Table, window: Table, daysToCheck: int)
    requires entry > 0.0 && |window| > 0
    requires |patternData| > 0 && patternData[0].open > 0.0
    ensures var r := ResolveWindow(symbol, patternDate, entry, stop, patternData, window, daysToCheck);
            && (r.exit.TimeExit? <==> forall i :: 0 <= i < |window| ==> !Fires(window[i], r.targetPrice, stop))
            && (r.exit.TimeExit? ==>
                  && |r.dailyPerformance| == |window|
                  && r.exitPrice == r.exit.finalPrice == window[|window| - 1].close
                  && r.exit.finalPercent == PercentFrom(window[|window| - 1].close, entry)
                  && r.exit.daysChecked == daysToCheck
                  && r.exit.bestPossibleReturn == PercentFrom(MaxHigh(window), entry)
                  && r.exit.worstPossibleReturn == PercentFrom(MinLow(window), entry))
  {
  }

  /** `analyze_future_performance` once the forward lookup is in hand: None
      when the lookup is None or has no row dated after the pattern day, and
      otherwise the record of the scan over exactly those rows, in table order. */
  function Resolve(symbol: string, patternDate: int, entry: real, stop: real,
                   patternData: Table, futureData: Option<Table>, daysToCheck: int): (r: Option<TradeRecord>)
    requires entry > 0.0
    requires |patternData| > 0 && patternData[0].open > 0.0
    ensures r.Some? <==> futureData.Some? && AnyMatch(futureData.value, After(patternDate))
    ensures r.Some? ==>
              var window := Select(futureData.value, After(patternDate));
              && |window| > 0
              && r.value == ResolveWindow(symbol, patternDate, entry, stop, patternData, window, daysToCheck)
    ensures r.Some? ==> forall i :: 0 <= i < |r.value.dailyPerformance| ==> r.value.dailyPerformance[i].day >= 1
  {
    if futureData.None? || |futureData.value| == 0 then None
    else
      var window := Select(futureData.value, After(patternDate));
      if |window| == 0 then None
      else
        var r := ResolveWindow(symbol, patternDate, entry, stop, patternData, window, daysToCheck);
        ScannedRows(symbol, patternDate, entry, stop, patternData, window, daysToCheck);
        assert forall i :: 0 <= i < |r.dailyPerformance| ==> Matches(window[i], After(patternDate));
        Some(r)
  }

  /** The outcome of a target or stop exit depends only on the rows up to the
      exit row: more rows after it change nothing. A time exit is what a
      window too short to reach the deciding row produces. */
  lemma DecidedOutcomeIsStable(symbol: string, patternDate: int, entry: real, stop: real,
                                patternData: Table, window: Table, extra: Table, daysToCheck: int)
    requires entry > 0.0 && |window| > 0
    requires |patternData| > 0 && patternData[0].open > 0.0
    requires !ResolveWindow(symbol, patternDate, entry, stop, patternData, window, daysToCheck).exit.TimeExit?
    ensures ResolveWindow(symbol, patternDate, entry, stop, patternData, window + extra, daysToCheck)
         == ResolveWindow(symbol, patternDate, entry, stop, patternData, window, daysToCheck)
  {
    var target := entry * TargetFactor;
    var w2 := window + extra;
    var k := FirstTouch(window, target, stop);
    var k2 := FirstTouch(w2, target, stop);
    assert forall j :: 0 <= j < |window| ==> w2[j] == window[j];
    assert k < |window|;
    assert k2 == k;
    assert w2[..k + 1] == window[..k + 1];
  }

  /** `days_to_check` bounds nothing: two calls that differ only in it agree
      on everything but the `days_checked` field of a time exit. */
  lemma DaysToCheckIsOnlyRecorded(symbol: string, patternDate: int, entry: real, stop: real,
                                  patternData: Table, window: Table, d1: int, d2: int)
    requires entry > 0.0 && |window| > 0
    requires |patternData| > 0 && patternData[0].open > 0.0
    ensures var r1 := ResolveWindow(symbol, patternDate, entry, stop, patternData, window, d1);
            var r2 := ResolveWindow(symbol, patternDate, entry, stop, patternData, window, d2);
            && r1.exit.TimeExit? == r2.exit.TimeExit?
            && (r1.exit.TimeExit? ==> r1 == r2.(exit := r2.exit.(daysChecked := d1)))
            && (!r1.exit.TimeExit? ==> r1 == r2)
  {
  }

  /** Lines 142-267 as the source writes them: a loop that appends each row's
      performance entry and returns at the first row meeting the target
      condition or, failing that, the stop condition. */
  method ScanWindow(symbol: string, patternDate: int, entry: real, stop: real,
                    patternData: Table, window: Table, daysToCheck: int) returns (r: TradeRecord)
    requires entry > 0.0 && |window| > 0
    requires |patternData| > 0 && patternData[0].open > 0.0
    ensures r == ResolveWindow(symbol, patternDate, entry, stop, patternData, window, daysToCheck)
  {
    var target := entry * TargetFactor;
    var gap := (entry - stop) / entry * 100.0;
    var stats := PatternStats(patternData);
    var daily: seq<DayPerformance> := [];
    var i := 0;
    while i < |window|
      invariant 0 <= i <= |window|
      invariant forall j :: 0 <= j < i ==> !Fires(window[j], target, stop)
      invariant daily == Performance(window[..i], patternDate, entry)
    {
      var row := window[i];
      daily := daily + [DayEntry(row, patternDate, entry)];
      PerformanceExtend(window, i, patternDate, entry);
      if row.high >= target && row.low > stop {
        FirstTouchAt(window, target, stop, i);
        return TargetRecord(symbol, patternDate, entry, stop, gap, stats, row, daily);
      }
      if row.low <= stop {
        FirstTouchAt(window, target, stop, i);
        return StopRecord(symbol, patternDate, entry, stop, gap, stats, row, daily);
      }
      i := i + 1;
    }
    assert window[..i] == window;
    NoTouch(window, target, stop);
    r := TimeRecord(symbol, patternDate, entry, stop, gap, stats, window, daily, daysToCheck);
  }
}
