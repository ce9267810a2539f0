/** Worked examples of the outcome resolver: entry 100, stop 98, a forward
    lookup that also holds the pattern day itself (dated 0), which the
    date filter drops. */
module Scenarios {
  import opened Bars
  import opened Outcome

  const PatternDay: Bar := Bar(0, 99.0, 100.0, 98.5, 99.5, 1000)

  /** Day 1 stays below the target; day 2 reaches 100.2 with its Low above
      the stop, so the target is hit on day 2 at 100.2. */
  lemma TargetHitOnSecondDay()
    ensures var r := Resolve("ABC", 0, 100.0, 98.0, [PatternDay],
                             Some([PatternDay, Bar(1, 99.0, 99.0, 98.5, 98.7, 1000),
                                   Bar(2, 99.5, 102.0, 99.0, 101.0, 1000)]), DefaultDaysToCheck);
            && r.Some? && r.value.targetHit && !r.value.stopLossHit
            && r.value.exit.TargetExit? && r.value.exit.daysToTarget == 2
            && r.value.exitPrice == 100.2
            && |r.value.dailyPerformance| == 2
  {
    var rows := [PatternDay, Bar(1, 99.0, 99.0, 98.5, 98.7, 1000), Bar(2, 99.5, 102.0, 99.0, 101.0, 1000)];
    assert Select(rows, After(0)) == rows[1..];
  }

  /** Day 1's Low of 97 touches the stop: a stop-loss exit on day 1 losing 2%. */
  lemma StopHitOnFirstDay()
    ensures var r := Resolve("ABC", 0, 100.0, 98.0, [PatternDay],
                             Some([PatternDay, Bar(1, 98.0, 99.0, 97.0, 97.5, 1000)]), DefaultDaysToCheck);
            && r.Some? && !r.value.targetHit && r.value.stopLossHit
            && r.value.exit.StopExit? && r.value.exit.daysToStop == 1
            && r.value.exit.lossPercent == -2.0
            && r.value.exitPrice == 98.0
  {
    var rows := [PatternDay, Bar(1, 98.0, 99.0, 97.0, 97.5, 1000)];
    assert Select(rows, After(0)) == rows[1..];
  }

  /** A single quiet day: a time exit at the close of 98.7, down 1.3%. */
  lemma TimeExitAfterQuietDay()
    ensures var r := Resolve("ABC", 0, 100.0, 98.0, [PatternDay],
                             Some([PatternDay, Bar(1, 99.0, 99.0, 98.5, 98.7, 1000)]), DefaultDaysToCheck);
            && r.Some? && !r.value.targetHit && !r.value.stopLossHit
            && r.value.exit.TimeExit?
            && r.value.exit.finalPercent == -1.3
            && r.value.exitPrice == 98.7
            && r.value.exit.bestPossibleReturn == -1.0
            && r.value.exit.worstPossibleReturn == -1.5
  {
    var rows := [PatternDay, Bar(1, 99.0, 99.0, 98.5, 98.7, 1000)];
    assert Select(rows, After(0)) == rows[1..];
  }

  /** A lookup holding nothing after the pattern day gives no record. */
  lemma NoForwardRowsNoRecord()
    ensures Resolve("ABC", 0, 100.0, 98.0, [PatternDay], Some([PatternDay]), DefaultDaysToCheck).None?
  {
  }
}
