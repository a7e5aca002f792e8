/**
 * Worked histories for the three forecasts, with the outcome each one must
 * give. Dates are day numbers: 738886 is 2024-01-01, 738914 is 2024-01-29,
 * 738942 is 2024-02-26, 738970 is 2024-03-25.
 */
module Scenarios {
  import opened Records
  import opened Prediction
  import CycleMath

  function Started(day: Day): PeriodRecord {
    PeriodRecord(day, None, None, None)
  }

  function Ovulated(day: Day): OvulationRecord {
    OvulationRecord(day, None, None, None)
  }

  /** One cycle of 28 days: 2024-02-26 with confidence 'medium'. */
  method OneCycle() {
    var p := PredictNextPeriod([Started(738914), Started(738886)]);
    assert p == PeriodForecast(738942, 28.0, Medium, 1);
  }

  /** A single period is not enough to forecast. */
  method SinglePeriod() {
    var p := PredictNextPeriod([Started(738886)]);
    assert p.PredictedDate() == None && p.confidence == Low;
  }

  /** Three cycles of 28 days each: confidence 'high'. */
  method ThreeEqualCycles() {
    var history := [Started(738970), Started(738942), Started(738914), Started(738886)];
    assert Gaps(history) == [28, 28, 28];
    assert CycleMath.Dispersion([28, 28, 28]) == 0;
    var p := PredictNextPeriod(history);
    assert p.averageCycleLength == 28.0;
    assert p.confidence == High;
  }

  /** No ovulation records: day 14, confidence 'low', 2024-01-15 while that is not yet past. */
  method DefaultOvulationDayAhead() {
    var p := PredictNextOvulation([Started(738886)], [], 738895);
    assert p == OvulationForecast(738900, 14.0, Low, 0);
  }

  /** The same forecast once 2024-01-15 is past: with one period it stays as it was. */
  method DefaultOvulationDayStale() {
    var p := PredictNextOvulation([Started(738886)], [], 738917);
    assert p.predictedDate == 738900;
  }

  /** An ovulation 30 days after the only period start is not counted. */
  method OvulationTooLate() {
    var p := PredictNextOvulation([Started(738886)], [Ovulated(738916)], 738886);
    assert p.recordsAnalyzed == 0 && p.confidence == Low;
  }

  /** With no records at all, every statistic is left unset. */
  method EmptyStatistics() {
    var stats := ComputeCycleStats([], []);
    assert stats == CycleStats(0, 0, None, None, None);
  }
}
