/** The count and rate part of `generate_summary`. */
module Aggregator {
  import opened Outcome
  import QuoteCache

  const NoResultsMessage: string := "No results to analyze"

  /** How many error messages the summary lists. */
  const ErrorPreviewLength: nat := 5

  /** The three outcome classes as the flags of a record describe them. */
  datatype Category = Successful | Stopped | Neither

  predicate InCategory(r: TradeRecord, c: Category) {
    match c
    case Successful => r.targetHit
    case Stopped => r.stopLossHit
    case Neither => !r.targetHit && !r.stopLossHit
  }

  /** `len(df[mask])` for the mask of category `c`. */
  function Count(rs: seq<TradeRecord>, c: Category): (n: nat)
    ensures n <= |rs|
    ensures n == 0 <==> forall i :: 0 <= i < |rs| ==> !InCategory(rs[i], c)
    ensures n == |rs| <==> forall i :: 0 <= i < |rs| ==> InCategory(rs[i], c)
  {
    if |rs| == 0 then 0
    else
      var n := Count(rs[1..], c);
      assert forall i :: 1 <= i < |rs| ==> rs[i] == rs[1..][i - 1];
      (if InCategory(rs[0], c) then 1 else 0) + n
  }

  /** A single record counts once exactly when it is in the category. */
  lemma CountOne(r: TradeRecord, c: Category)
    ensures Count([r], c) == if InCategory(r, c) then 1 else 0
  {
    assert [r][1..] == [];
  }

  /** Counting a concatenation adds the counts of its parts. With `CountOne`
      this fixes `Count` on every list. */
  lemma {:induction false} CountAppend(a: seq<TradeRecord>, b: seq<TradeRecord>, c: Category)
    ensures Count(a + b, c) == Count(a, c) + Count(b, c)
  {
    if |a| == 0 {
      assert a + b == b;
    } else {
      assert (a + b)[0] == a[0];
      assert (a + b)[1..] == a[1..] + b;
      CountAppend(a[1..], b, c);
    }
  }

  /** `(count / total) * 100`. */
  function Rate(count: int, total: nat): real
    requires total > 0
  {
    count as real / total as real * 100.0
  }

  /** Rates of counts add like the counts. */
  lemma RatesAdd(a: int, b: int, c: int, total: nat)
    requires total > 0
    ensures Rate(a, total) + Rate(b, total) + Rate(c, total) == Rate(a + b + c, total)
  {
    var t := total as real;
    assert a as real / t + b as real / t + c as real / t == (a + b + c) as real / t;
  }

  /** The whole is 100 percent. */
  lemma RateOfWhole(total: nat)
    requires total > 0
    ensures Rate(total, total) == 100.0
  {
    assert total as real / total as real == 1.0;
  }

  /** A count between 0 and the total has a rate between 0 and 100. */
  lemma RateBounded(count: int, total: nat)
    requires total > 0 && 0 <= count <= total
    ensures 0.0 <= Rate(count, total) <= 100.0
  {
    var t := total as real;
    assert count as real / t <= 1.0;
  }

  datatype Summary =
    | NoResults(message: string)
    | Report(total: nat, successful: nat, stopped: nat, timeExit: int,
             successRate: real, stopRate: real, timeExitRate: real,
             errorCount: nat, errorPreview: seq<QuoteCache.FetchError>)

  /** Lines 356-367 and 420-424: no report on an empty result list; otherwise
      the flag counts, the time-exit count taken as what is left, each count
      as a percentage of the total, and the error count with the first five
      errors. */
  function GenerateSummary(results: seq<TradeRecord>, errors: seq<QuoteCache.FetchError>): (s: Summary)
    ensures s.NoResults? <==> |results| == 0
    ensures s.NoResults? ==> s.message == NoResultsMessage
    ensures s.Report? ==>
              && s.total == |results|
              && s.successful == Count(results, Successful)
              && s.stopped == Count(results, Stopped)
              && s.successful + s.stopped + s.timeExit == s.total
              && s.successRate == Rate(s.successful, s.total)
              && s.stopRate == Rate(s.stopped, s.total)
              && s.timeExitRate == Rate(s.timeExit, s.total)
              && s.errorCount == |errors|
              && |s.errorPreview| <= ErrorPreviewLength
              && |s.errorPreview| <= |errors|
              && s.errorPreview == errors[..|s.errorPreview|]
              && (|errors| >= ErrorPreviewLength ==> |s.errorPreview| == ErrorPreviewLength)
              && (|errors| < ErrorPreviewLength ==> s.errorPreview == errors)
  {
    if |results| == 0 then NoResults(NoResultsMessage)
    else
      var total := |results|;
      var successful := Count(results, Successful);
      var stopped := Count(results, Stopped);
      var timeExit := total - successful - stopped;
      Report(total, successful, stopped, timeExit,
             Rate(successful, total), Rate(stopped, total), Rate(timeExit, total),
             |errors|,
             if |errors| <= ErrorPreviewLength then errors else errors[..ErrorPreviewLength])
  }

  /** For records whose flags agree with their exit, every record lies in
      exactly one category, so the three counts add up to the total. */
  lemma {:induction false} CategoriesPartition(rs: seq<TradeRecord>)
    requires forall i :: 0 <= i < |rs| ==> Consistent(rs[i])
    ensures Count(rs, Successful) + Count(rs, Stopped) + Count(rs, Neither) == |rs|
  {
    if |rs| > 0 {
      assert forall i :: 0 <= i < |rs[1..]| ==> rs[1..][i] == rs[i + 1];
      CategoriesPartition(rs[1..]);
    }
  }

  /** The time-exit count `total - successful - stopped` is the number of
      records with both flags false, provided every record is consistent. */
  lemma TimeExitsAreTheUnflagged(results: seq<TradeRecord>, errors: seq<QuoteCache.FetchError>)
    requires forall i :: 0 <= i < |results| ==> Consistent(results[i])
    requires |results| > 0
    ensures GenerateSummary(results, errors).timeExit == Count(results, Neither)
  {
    CategoriesPartition(results);
  }

  /** The three rates add up to 100. */
  lemma RatesSumToHundred(results: seq<TradeRecord>, errors: seq<QuoteCache.FetchError>)
    requires |results| > 0
    ensures var s := GenerateSummary(results, errors);
            s.successRate + s.stopRate + s.timeExitRate == 100.0
  {
    var s := GenerateSummary(results, errors);
    RatesAdd(s.successful, s.stopped, s.timeExit, s.total);
    RateOfWhole(s.total);
  }

  /** With consistent records each rate lies between 0 and 100. */
  lemma RatesAreBounded(results: seq<TradeRecord>, errors: seq<QuoteCache.FetchError>)
    requires forall i :: 0 <= i < |results| ==> Consistent(results[i])
    requires |results| > 0
    ensures var s := GenerateSummary(results, errors);
            && 0.0 <= s.successRate <= 100.0
            && 0.0 <= s.stopRate <= 100.0
            && 0.0 <= s.timeExitRate <= 100.0
  {
    CategoriesPartition(results);
    var s := GenerateSummary(results, errors);
    RateBounded(s.successful, s.total);
    RateBounded(s.stopped, s.total);
    RateBounded(s.timeExit, s.total);
  }
}
