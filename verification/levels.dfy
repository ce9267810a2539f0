/** Entry and stop-loss levels of one pattern occurrence, as `analyze_stocks`
    derives them from the pattern-day lookup and the previous-day lookup. */
module Levels {
  import opened Bars

  datatype TradeLevels = TradeLevels(entry: real, stopLoss: real)

  /** `m` is the greatest High among the rows of `t` dated `d`, attained by one of them. */
  ghost predicate IsHighestHighOn(t: Table, d: int, m: real) {
    && (exists i :: 0 <= i < |t| && t[i].date == d && t[i].high == m)
    && (forall i :: 0 <= i < |t| && t[i].date == d ==> t[i].high <= m)
  }

  /** `m` is the least Low among the rows of `t` dated `d`, attained by one of them. */
  ghost predicate IsLowestLowOn(t: Table, d: int, m: real) {
    && (exists i :: 0 <= i < |t| && t[i].date == d && t[i].low == m)
    && (forall i :: 0 <= i < |t| && t[i].date == d ==> m <= t[i].low)
  }

  /** The highest High of the rows dated `d`, read off the selected rows. */
  lemma HighestOfSelected(t: Table, d: int)
    ensures HasDay(t, d) ==>
              |Select(t, Exactly(d))| > 0 && IsHighestHighOn(t, d, MaxHigh(Select(t, Exactly(d))))
  {
    if HasDay(t, d) {
      var sel := Select(t, Exactly(d));
      var m := MaxHigh(sel);
      var j :| 0 <= j < |sel| && sel[j].high == m;
      assert sel[j] in t;
      forall k | 0 <= k < |t| && t[k].date == d ensures t[k].high <= m {
        assert t[k] in sel;
      }
    }
  }

  /** The lowest Low of the rows dated `d`, read off the selected rows. */
  lemma LowestOfSelected(t: Table, d: int)
    ensures HasDay(t, d) ==>
              |Select(t, Exactly(d))| > 0 && IsLowestLowOn(t, d, MinLow(Select(t, Exactly(d))))
  {
    if HasDay(t, d) {
      var sel := Select(t, Exactly(d));
      var m := MinLow(sel);
      var j :| 0 <= j < |sel| && sel[j].low == m;
      assert sel[j] in t;
      forall k | 0 <= k < |t| && t[k].date == d ensures m <= t[k].low {
        assert t[k] in sel;
      }
    }
  }

  /** Lines 323-335: the entry is the highest High of the pattern-day rows,
      falling back to the whole pattern table when none is dated that day;
      the stop is the lowest Low of the rows dated the calendar day before,
      falling back to the whole previous-day table. */
  function DeriveLevels(patternData: Table, prevData: Table, patternDate: int): (l: TradeLevels)
    requires |patternData| > 0 && |prevData| > 0
    ensures HasDay(patternData, patternDate) ==> IsHighestHighOn(patternData, patternDate, l.entry)
    ensures !HasDay(patternData, patternDate) ==> IsHighestHigh(patternData, l.entry)
    ensures HasDay(prevData, patternDate - 1) ==> IsLowestLowOn(prevData, patternDate - 1, l.stopLoss)
    ensures !HasDay(prevData, patternDate - 1) ==> IsLowestLow(prevData, l.stopLoss)
  {
    var patternDayOnly := Select(patternData, Exactly(patternDate));
    var prevDayOnly := Select(prevData, Exactly(patternDate - 1));
    var entryAll := MaxHigh(patternData);
    var entryFiltered :=
      if |patternDayOnly| > 0 then MaxHigh(patternDayOnly) else entryAll;
    var stopAll := MinLow(prevData);
    var stopFiltered :=
      if |prevDayOnly| > 0 then MinLow(prevDayOnly) else stopAll;
    HighestOfSelected(patternData, patternDate);
    LowestOfSelected(prevData, patternDate - 1);
    TradeLevels(entryFiltered, stopFiltered)
  }

  /** When both days are present, neither fallback is taken. */
  lemma LevelsOnPresentDays(patternData: Table, prevData: Table, patternDate: int)
    requires HasDay(patternData, patternDate) && HasDay(prevData, patternDate - 1)
    ensures |patternData| > 0 && |prevData| > 0
    ensures var l := DeriveLevels(patternData, prevData, patternDate);
            && IsHighestHighOn(patternData, patternDate, l.entry)
            && IsLowestLowOn(prevData, patternDate - 1, l.stopLoss)
  {
  }

  /** Every High on the pattern table positive: the entry is positive. */
  lemma EntryPositive(patternData: Table, prevData: Table, patternDate: int)
    requires |patternData| > 0 && |prevData| > 0
    requires PositivePrices(patternData)
    ensures DeriveLevels(patternData, prevData, patternDate).entry > 0.0
  {
    var e := DeriveLevels(patternData, prevData, patternDate).entry;
    if HasDay(patternData, patternDate) {
      var i :| 0 <= i < |patternData| && patternData[i].date == patternDate && patternData[i].high == e;
    } else {
      var i :| 0 <= i < |patternData| && patternData[i].high == e;
    }
  }
}
