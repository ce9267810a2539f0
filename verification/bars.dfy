/** Daily OHLCV rows and the table operations the analyzer applies to them:
    selecting rows by calendar date and taking the column extremes
    (pandas `df[mask]`, `df['High'].max()`, `df['Low'].min()`). */
module Bars {

  datatype Option<T> = None | Some(value: T)

  /** One daily bar. `date` is a day number: Python's `date.toordinal() - 1`,
      so day 0 is a Monday and `date % 7` is `date.weekday()`. */
  datatype Bar = Bar(date: int, open: real, high: real, low: real, close: real, volume: int)

  /** An OHLCV table in the order the data source delivered it. */
  type Table = seq<Bar>

  /** The two row filters the analyzer uses: rows dated exactly one day
      (`strftime(...) == day`) and rows dated strictly after one day
      (`strftime(...) > day`). */
  datatype DateFilter = Exactly(day: int) | After(day: int)

  predicate Matches(b: Bar, f: DateFilter) {
    match f
    case Exactly(d) => b.date == d
    case After(d) => b.date > d
  }

  /** Some row of `t` passes `f`. */
  predicate AnyMatch(t: Table, f: DateFilter) {
    exists i :: 0 <= i < |t| && Matches(t[i], f)
  }

  /** Some row of `t` is dated `d`. */
  predicate HasDay(t: Table, d: int) {
    AnyMatch(t, Exactly(d))
  }

  /** The rows of `t` that pass `f`, in table order. */
  function Select(t: Table, f: DateFilter): (r: Table)
    ensures |r| <= |t|
    ensures forall b :: b in r <==> b in t && Matches(b, f)
    ensures forall i :: 0 <= i < |r| ==> Matches(r[i], f)
    ensures |r| > 0 <==> AnyMatch(t, f)
    ensures (forall i :: 0 <= i < |t| ==> Matches(t[i], f)) ==> r == t
  {
    if |t| == 0 then []
    else if Matches(t[0], f) then [t[0]] + Select(t[1..], f)
    else
      assert AnyMatch(t, f) ==> AnyMatch(t[1..], f) by {
        if AnyMatch(t, f) {
          var i :| 0 <= i < |t| && Matches(t[i], f);
          assert t[1..][i - 1] == t[i];
        }
      }
      Select(t[1..], f)
  }

  /** A single row is kept exactly when it passes the filter. */
  lemma SelectOne(b: Bar, f: DateFilter)
    ensures Select([b], f) == if Matches(b, f) then [b] else []
  {
    assert [b][1..] == [];
  }

  /** Filtering distributes over concatenation: the kept rows of each part
      stay in place, in table order. With `SelectOne` this fixes the result
      for every table, since every table is a concatenation of single rows. */
  lemma {:induction false} SelectAppend(a: Table, b: Table, f: DateFilter)
    ensures Select(a + b, f) == Select(a, f) + Select(b, f)
  {
    if |a| == 0 {
      assert a + b == b;
    } else {
      assert (a + b)[0] == a[0];
      assert (a + b)[1..] == a[1..] + b;
      SelectAppend(a[1..], b, f);
      if Matches(a[0], f) {
        assert [a[0]] + (Select(a[1..], f) + Select(b, f)) == ([a[0]] + Select(a[1..], f)) + Select(b, f);
      }
    }
  }

  /** Dates strictly increase along the table (one row per trading day). */
  predicate DatesIncrease(t: Table) {
    forall i, j :: 0 <= i < j < |t| ==> t[i].date < t[j].date
  }

  /** Selecting rows keeps them in table order: a date-ordered table stays date-ordered. */
  lemma {:induction false} SelectKeepsOrder(t: Table, f: DateFilter)
    requires DatesIncrease(t)
    ensures DatesIncrease(Select(t, f))
  {
    if |t| > 0 {
      var tail := t[1..];
      TailIncreases(t);
      SelectKeepsOrder(tail, f);
      if Matches(t[0], f) {
        var rest := Select(tail, f);
        forall j | 0 <= j < |rest| ensures t[0].date < rest[j].date {
          LaterThanHead(t, rest[j]);
        }
        PrependIncreases(t[0], rest);
      }
    }
  }

  lemma TailIncreases(t: Table)
    requires |t| > 0 && DatesIncrease(t)
    ensures DatesIncrease(t[1..])
  {
    forall i, j | 0 <= i < j < |t[1..]| ensures t[1..][i].date < t[1..][j].date {
      assert t[1..][i] == t[i + 1] && t[1..][j] == t[j + 1];
    }
  }

  lemma LaterThanHead(t: Table, b: Bar)
    requires |t| > 0 && DatesIncrease(t) && b in t[1..]
    ensures t[0].date < b.date
  {
    var k :| 0 <= k < |t[1..]| && t[1..][k] == b;
    assert t[k + 1] == b;
  }

  lemma PrependIncreases(b: Bar, rest: Table)
    requires DatesIncrease(rest)
    requires forall j :: 0 <= j < |rest| ==> b.date < rest[j].date
    ensures DatesIncrease([b] + rest)
  {
    var r := [b] + rest;
    forall i, j | 0 <= i < j < |r| ensures r[i].date < r[j].date {
      assert r[j] == rest[j - 1];
      if i > 0 {
        assert r[i] == rest[i - 1];
      }
    }
  }

  /** `m` is the greatest High of `t` and is attained by some row. */
  ghost predicate IsHighestHigh(t: Table, m: real) {
    && (exists i :: 0 <= i < |t| && t[i].high == m)
    && (forall i :: 0 <= i < |t| ==> t[i].high <= m)
  }

  /** `m` is the least Low of `t` and is attained by some row. */
  ghost predicate IsLowestLow(t: Table, m: real) {
    && (exists i :: 0 <= i < |t| && t[i].low == m)
    && (forall i :: 0 <= i < |t| ==> m <= t[i].low)
  }

  /** `df['High'].max()` over a non-empty table. */
  function MaxHigh(t: Table): (m: real)
    requires |t| > 0
    ensures IsHighestHigh(t, m)
  {
    if |t| == 1 then t[0].high
    else
      var rest := MaxHigh(t[1..]);
      assert forall i :: 1 <= i < |t| ==> t[i] == t[1..][i - 1];
      if t[0].high >= rest then t[0].high else rest
  }

  /** `df['Low'].min()` over a non-empty table. */
  function MinLow(t: Table): (m: real)
    requires |t| > 0
    ensures IsLowestLow(t, m)
  {
    if |t| == 1 then t[0].low
    else
      var rest := MinLow(t[1..]);
      assert forall i :: 1 <= i < |t| ==> t[i] == t[1..][i - 1];
      if t[0].low <= rest then t[0].low else rest
  }

  /** Every row carries a positive Open and High, the prices the analyzer divides by. */
  predicate PositivePrices(t: Table) {
    forall i :: 0 <= i < |t| ==> t[i].open > 0.0 && t[i].high > 0.0
  }
}
