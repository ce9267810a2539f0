/** Weekend adjustment of pattern dates (`is_weekday`, `next_weekday` and the
    adjusting loop of `load_stock_data`). Days are day numbers whose
    remainder modulo 7 is the weekday, 0 = Monday ... 6 = Sunday. */
module Calendar {

  const DaysPerWeek: int := 7

  /** `date.weekday() < 5`: Monday to Friday. */
  predicate IsWeekday(d: int) {
    d % DaysPerWeek < 5
  }

  /** The first weekday on or after `d`: the `while not is_weekday(...)` loop. */
  function FirstWeekdayFrom(d: int): (r: int)
    ensures d <= r && IsWeekday(r)
    ensures forall k :: d <= k < r ==> !IsWeekday(k)
    decreases if IsWeekday(d) then 0 else DaysPerWeek - d % DaysPerWeek
  {
    if IsWeekday(d) then d
    else
      assert (d + 1) % DaysPerWeek == if d % DaysPerWeek == 6 then 0 else d % DaysPerWeek + 1;
      FirstWeekdayFrom(d + 1)
  }

  /** `next_weekday`: the first weekday strictly after `d`. */
  function NextWeekday(d: int): (r: int)
    ensures d < r && IsWeekday(r)
    ensures forall k :: d < k < r ==> !IsWeekday(k)
  {
    FirstWeekdayFrom(d + 1)
  }

  /** One step of the loop in `load_stock_data`: a weekend date moves to the
      following weekday, a weekday is kept. */
  function AdjustDate(d: int): (r: int)
    ensures IsWeekday(r) && d <= r
    ensures IsWeekday(d) ==> r == d
    ensures forall k :: d <= k < r ==> !IsWeekday(k)
  {
    if IsWeekday(d) then d else NextWeekday(d)
  }

  /** Adjusting twice is adjusting once. */
  lemma AdjustIdempotent(d: int)
    ensures AdjustDate(AdjustDate(d)) == AdjustDate(d)
  {
  }

  /** The next weekday is at most three days away (Friday to Monday). */
  lemma {:induction false} NextWeekdayWithinThree(d: int)
    ensures NextWeekday(d) <= d + 3
  {
    var w := d % DaysPerWeek;
    var e := if w <= 3 || w == 6 then d + 1 else if w == 5 then d + 2 else d + 3;
    assert e % DaysPerWeek == if w <= 3 then w + 1 else 0;
    assert d < e && IsWeekday(e);
  }

  /** A Saturday or Sunday adjusts to the following Monday. */
  lemma {:induction false} WeekendAdjustsToMonday(d: int)
    requires !IsWeekday(d)
    ensures AdjustDate(d) % DaysPerWeek == 0
    ensures AdjustDate(d) == d + (DaysPerWeek - d % DaysPerWeek)
  {
    var m := d + (DaysPerWeek - d % DaysPerWeek);
    assert m % DaysPerWeek == 0 && IsWeekday(m);
    assert d % DaysPerWeek == 5 ==> (d + 1) % DaysPerWeek == 6;
  }

  /** `next_weekday` as the source writes it: step one day at a time until a weekday. */
  method NextWeekdayLoop(d: int) returns (n: int)
    ensures d < n && IsWeekday(n)
    ensures forall k :: d < k < n ==> !IsWeekday(k)
  {
    n := d + 1;
    while !IsWeekday(n)
      invariant d < n <= NextWeekday(d)
      decreases NextWeekday(d) - n
    {
      n := n + 1;
    }
  }

  /** The loop of `load_stock_data` over every parsed date. */
  method AdjustDates(dates: seq<int>) returns (adjusted: seq<int>)
    ensures |adjusted| == |dates|
    ensures forall i :: 0 <= i < |dates| ==> IsWeekday(adjusted[i]) && dates[i] <= adjusted[i]
    ensures forall i :: 0 <= i < |dates| && IsWeekday(dates[i]) ==> adjusted[i] == dates[i]
    ensures forall i :: 0 <= i < |dates| ==> adjusted[i] == AdjustDate(dates[i])
  {
    adjusted := [];
    var i := 0;
    while i < |dates|
      invariant 0 <= i <= |dates|
      invariant |adjusted| == i
      invariant forall j :: 0 <= j < i ==> adjusted[j] == AdjustDate(dates[j])
    {
      var adj := dates[i];
      if !IsWeekday(adj) {
        adj := NextWeekdayLoop(adj);
      }
      adjusted := adjusted + [adj];
      i := i + 1;
    }
  }
}
