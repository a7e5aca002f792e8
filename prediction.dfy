/**
 * The cycle prediction engine: the computations inside the three prediction
 * handlers (next period, next ovulation, cycle statistics), over period and
 * ovulation histories that the storage layer returns newest first.
 */
module Prediction {
  import opened Records
  import opened CycleMath

  datatype Confidence = Low | Medium | High

  datatype Regularity = VeryRegular | Regular | Irregular

  // ---------------------------------------------------------------------------
  // Cycle lengths (the loop shared by all three handlers)
  // ---------------------------------------------------------------------------

  /** The days between each start date and the next older one: N records give N - 1 lengths. */
  function Gaps(periods: seq<PeriodRecord>): (g: seq<int>)
    ensures |g| == if |periods| < 2 then 0 else |periods| - 1
  {
    if |periods| < 2 then []
    else [periods[0].startDate - periods[1].startDate] + Gaps(periods[1..])
  }

  /** Length i of `Gaps` is the distance from start i back to start i + 1. */
  lemma {:induction false} GapsAt(periods: seq<PeriodRecord>)
    ensures forall i :: 0 <= i < |Gaps(periods)| ==>
      Gaps(periods)[i] == periods[i].startDate - periods[i + 1].startDate
  {
    if |periods| >= 2 {
      var rest := periods[1..];
      GapsAt(rest);
      var g := Gaps(periods);
      assert g == [periods[0].startDate - periods[1].startDate] + Gaps(rest);
      forall i | 1 <= i < |g|
        ensures g[i] == periods[i].startDate - periods[i + 1].startDate
      {
        assert g[i] == Gaps(rest)[i - 1];
        assert rest[i - 1] == periods[i] && rest[i] == periods[i + 1];
      }
    }
  }

  method CycleLengths(periods: seq<PeriodRecord>) returns (lengths: seq<int>)
    ensures lengths == Gaps(periods)
    ensures |lengths| == if |periods| < 2 then 0 else |periods| - 1
    ensures forall i :: 0 <= i < |lengths| ==> lengths[i] == periods[i].startDate - periods[i + 1].startDate
    ensures NewestFirst(periods) ==> forall i :: 0 <= i < |lengths| ==> lengths[i] >= 0
  {
    lengths := [];
    var i := 0;
    while i < |periods| - 1
      invariant 0 <= i <= if |periods| < 2 then 0 else |periods| - 1
      invariant |lengths| == i
      invariant forall k :: 0 <= k < i ==> lengths[k] == periods[k].startDate - periods[k + 1].startDate
    {
      var currentPeriod, previousPeriod := periods[i], periods[i + 1];
      lengths := lengths + [currentPeriod.startDate - previousPeriod.startDate];
      i := i + 1;
    }
    GapsAt(periods);
    assert |lengths| == |Gaps(periods)|;
    forall k | 0 <= k < |lengths|
      ensures lengths[k] == Gaps(periods)[k]
    {
      assert lengths[k] == periods[k].startDate - periods[k + 1].startDate;
    }
    if NewestFirst(periods) {
      forall k | 0 <= k < |lengths|
        ensures lengths[k] >= 0
      {
        assert periods[k].startDate >= periods[k + 1].startDate;
      }
    }
  }

  /** The cycle lengths add up to the span from the oldest start to the newest one. */
  lemma {:induction false} GapsTelescope(periods: seq<PeriodRecord>)
    requires |periods| >= 2
    ensures Sum(Gaps(periods)) == periods[0].startDate - periods[|periods| - 1].startDate
  {
    var rest := periods[1..];
    var g := Gaps(periods);
    assert g == [periods[0].startDate - periods[1].startDate] + Gaps(rest);
    assert g[1..] == Gaps(rest);
    if |periods| > 2 {
      GapsTelescope(rest);
    }
  }

  /**
   * The mean cycle length is the span from the oldest to the newest start over
   * the number of cycles (N - 1 for N records).
   */
  lemma MeanCycleSpan(periods: seq<PeriodRecord>)
    requires |periods| >= 2
    ensures Mean(Gaps(periods))
         == (periods[0].startDate - periods[|periods| - 1].startDate) as real / |Gaps(periods)| as real
  {
    GapsTelescope(periods);
  }

  /**
   * When the newest start is not before the oldest one, as on a newest-first
   * history, `int(mean(cycle_lengths))` is the span divided, rounding down, by
   * the number of cycles, so it is never negative.
   */
  lemma TruncatedMeanCycle(periods: seq<PeriodRecord>)
    requires |periods| >= 2 && periods[0].startDate >= periods[|periods| - 1].startDate
    ensures Truncate(Mean(Gaps(periods)))
         == (periods[0].startDate - periods[|periods| - 1].startDate) / |Gaps(periods)|
    ensures Truncate(Mean(Gaps(periods))) >= 0
  {
    GapsTelescope(periods);
    TruncatedMeanIsQuotient(Gaps(periods), periods[0].startDate - periods[|periods| - 1].startDate, |Gaps(periods)|);
    QuotientNonNegative(periods[0].startDate - periods[|periods| - 1].startDate, |Gaps(periods)|);
  }

  // ---------------------------------------------------------------------------
  // Confidence and regularity labels (one set of thresholds)
  // ---------------------------------------------------------------------------

  /** The next-period confidence: judged from the spread only once there are 3 or more cycles. */
  function CycleConfidence(lengths: seq<int>): Confidence
  {
    if |lengths| >= 3 then
      match SpreadOf(lengths)
      case Tight => High
      case Moderate => Medium
      case Wide => Low
    else
      Medium
  }

  /** The regularity label of the statistics: left unset below 3 cycles. */
  function CycleRegularity(lengths: seq<int>): Option<Regularity>
  {
    if |lengths| >= 3 then
      match SpreadOf(lengths)
      case Tight => Some(VeryRegular)
      case Moderate => Some(Regular)
      case Wide => Some(Irregular)
    else
      None
  }

  /**
   * Below 3 cycle lengths the confidence is 'medium'. From 3 on it is 'high' when
   * the standard deviation is at most 2 days, 'medium' when it is over 2 and at
   * most 5, and 'low' when it is over 5.
   */
  lemma CycleConfidenceBands(lengths: seq<int>)
    ensures |lengths| < 3 ==> CycleConfidence(lengths) == Medium
    ensures |lengths| >= 3 ==>
      (CycleConfidence(lengths) == High <==> SampleVariance(lengths) <= 4.0) &&
      (CycleConfidence(lengths) == Medium <==> 4.0 < SampleVariance(lengths) <= 25.0) &&
      (CycleConfidence(lengths) == Low <==> SampleVariance(lengths) > 25.0)
  {
    if |lengths| >= 3 {
      SpreadBands(lengths);
    }
  }

  /** The regularity label is set from 3 cycle lengths on, with the same bands as the confidence. */
  lemma CycleRegularityBands(lengths: seq<int>)
    ensures CycleRegularity(lengths).Some? <==> |lengths| >= 3
    ensures |lengths| >= 3 ==>
      (CycleRegularity(lengths) == Some(VeryRegular) <==> SampleVariance(lengths) <= 4.0) &&
      (CycleRegularity(lengths) == Some(Regular) <==> 4.0 < SampleVariance(lengths) <= 25.0) &&
      (CycleRegularity(lengths) == Some(Irregular) <==> SampleVariance(lengths) > 25.0)
  {
    if |lengths| >= 3 {
      SpreadBands(lengths);
    }
  }

  /** Both labellings draw the same lines: high is very regular, medium regular, low irregular. */
  lemma LabelsAgree(lengths: seq<int>)
    requires |lengths| >= 3
    ensures CycleConfidence(lengths) == High <==> CycleRegularity(lengths) == Some(VeryRegular)
    ensures CycleConfidence(lengths) == Medium <==> CycleRegularity(lengths) == Some(Regular)
    ensures CycleConfidence(lengths) == Low <==> CycleRegularity(lengths) == Some(Irregular)
  {
  }

  // ---------------------------------------------------------------------------
  // Next period
  // ---------------------------------------------------------------------------

  /** The next-period response: too little data still reports a confidence, but no date. */
  datatype PeriodPrediction =
    | TooFewPeriods(confidence: Confidence)
    | PeriodForecast(predictedDate: Day, averageCycleLength: real, confidence: Confidence, cyclesAnalyzed: nat)
  {
    function PredictedDate(): Option<Day> {
      if PeriodForecast? then Some(predictedDate) else None
    }
  }

  method PredictNextPeriod(history: seq<PeriodRecord>) returns (p: PeriodPrediction)
    ensures p.TooFewPeriods? <==> |history| < 2
    ensures p.TooFewPeriods? ==> p.PredictedDate() == None && p.confidence == Low
    ensures |history| >= 2 ==>
      var lengths := Gaps(Recent(history));
      p.cyclesAnalyzed == |Recent(history)| - 1 == |lengths| &&
      p.averageCycleLength == Mean(lengths) &&
      p.predictedDate == history[0].startDate + Truncate(Mean(lengths)) &&
      p.confidence == CycleConfidence(lengths)
    ensures |history| >= 2 ==>
      var recent := Recent(history);
      var span := history[0].startDate - recent[|recent| - 1].startDate;
      p.averageCycleLength == span as real / p.cyclesAnalyzed as real &&
      (span >= 0 ==> p.predictedDate == history[0].startDate + span / p.cyclesAnalyzed)
    ensures |history| >= 2 && NewestFirst(history) ==> p.predictedDate >= history[0].startDate
  {
    var periods := Recent(history);
    if |periods| < 2 {
      return TooFewPeriods(Low);
    }
    var cycleLengths := CycleLengths(periods);
    var avgCycleLength := Mean(cycleLengths);
    var lastPeriod := periods[0];
    var predictedDate := lastPeriod.startDate + Truncate(avgCycleLength);
    var confidence := CycleConfidence(cycleLengths);
    p := PeriodForecast(predictedDate, avgCycleLength, confidence, |cycleLengths|);
    MeanCycleSpan(periods);
    if NewestFirst(history) {
      assert history[0].startDate >= history[|periods| - 1].startDate;
    }
    if periods[0].startDate >= periods[|periods| - 1].startDate {
      TruncatedMeanCycle(periods);
    }
  }

  // ---------------------------------------------------------------------------
  // Ovulation offsets
  // ---------------------------------------------------------------------------

  /** Offsets beyond this many days after a period start are treated as noise. */
  const MaxOvulationOffset: int := 21

  /** The ovulation day assumed when no offset is known. */
  const DefaultOvulationDay: int := 14

  /**
   * The offset an ovulation on `date` contributes: the first period, scanning
   * newest first, that starts on or before `date` claims it, and the offset is
   * kept only when it is at most 21 days; no older period is tried after that.
   */
  function MatchOffset(periods: seq<PeriodRecord>, date: Day): (r: Option<int>)
    ensures r.Some? ==> 0 <= r.value <= MaxOvulationOffset
    ensures r.Some? ==> exists k :: 0 <= k < |periods| && r.value == date - periods[k].startDate
    ensures (forall k :: 0 <= k < |periods| ==> periods[k].startDate > date) ==> r == None
  {
    if |periods| == 0 then None
    else if periods[0].startDate <= date then
      var offset := date - periods[0].startDate;
      if 0 <= offset <= MaxOvulationOffset then Some(offset) else None
    else
      MatchOffset(periods[1..], date)
  }

  /** Only the first period starting on or before the ovulation decides; an offset over 21 drops the ovulation. */
  lemma {:induction false} FirstStartDecides(periods: seq<PeriodRecord>, date: Day, j: nat)
    requires j < |periods| && periods[j].startDate <= date
    requires forall k :: 0 <= k < j ==> periods[k].startDate > date
    ensures MatchOffset(periods, date)
         == if date - periods[j].startDate <= MaxOvulationOffset then Some(date - periods[j].startDate) else None
  {
    if j > 0 {
      FirstStartDecides(periods[1..], date, j - 1);
    }
  }

  /**
   * On a newest-first history the first-match rule picks the nearest earlier
   * start: an ovulation gets an offset exactly when some period starts 0 to 21
   * days before it, and that offset is the smallest such distance.
   */
  lemma {:induction false} NearestPeriodMatch(periods: seq<PeriodRecord>, date: Day)
    requires NewestFirst(periods)
    ensures MatchOffset(periods, date).Some?
        <==> exists k :: 0 <= k < |periods| && 0 <= date - periods[k].startDate <= MaxOvulationOffset
    ensures MatchOffset(periods, date).Some? ==>
      forall k :: 0 <= k < |periods| && periods[k].startDate <= date ==>
        MatchOffset(periods, date).value <= date - periods[k].startDate
  {
    if |periods| > 0 {
      if periods[0].startDate <= date {
        assert forall k :: 0 <= k < |periods| ==> periods[k].startDate <= periods[0].startDate;
      } else {
        var rest := periods[1..];
        NearestPeriodMatch(rest, date);
        forall k | 0 <= k < |periods| && 0 <= date - periods[k].startDate <= MaxOvulationOffset
          ensures exists k' :: 0 <= k' < |rest| && 0 <= date - rest[k'].startDate <= MaxOvulationOffset
        {
          assert k > 0 && rest[k - 1] == periods[k];
        }
        forall k | 0 <= k < |rest| && 0 <= date - rest[k].startDate <= MaxOvulationOffset
          ensures exists k' :: 0 <= k' < |periods| && 0 <= date - periods[k'].startDate <= MaxOvulationOffset
        {
          assert rest[k] == periods[k + 1];
        }
        forall k | 0 <= k < |periods| && periods[k].startDate <= date
          ensures k > 0 && periods[k] == rest[k - 1]
        {
        }
      }
    }
  }

  /** The offsets of the ovulations, in ovulation order, leaving out those with no offset. */
  function Offsets(periods: seq<PeriodRecord>, ovulations: seq<OvulationRecord>): (r: seq<int>)
    ensures |r| <= |ovulations|
    ensures forall i :: 0 <= i < |r| ==> 0 <= r[i] <= MaxOvulationOffset
    ensures (forall i, k :: 0 <= i < |ovulations| && 0 <= k < |periods| ==>
               ovulations[i].ovulationDate < periods[k].startDate) ==> r == []
  {
    if |ovulations| == 0 then []
    else
      var earlier := Offsets(periods, ovulations[..|ovulations| - 1]);
      match MatchOffset(periods, ovulations[|ovulations| - 1].ovulationDate)
      case Some(offset) => earlier + [offset]
      case None => earlier
  }

  method OvulationOffsets(periods: seq<PeriodRecord>, ovulations: seq<OvulationRecord>) returns (offsets: seq<int>)
    ensures offsets == Offsets(periods, ovulations)
    ensures |offsets| <= |ovulations|
    ensures forall i :: 0 <= i < |offsets| ==> 0 <= offsets[i] <= MaxOvulationOffset
  {
    offsets := [];
    var i := 0;
    while i < |ovulations|
      invariant 0 <= i <= |ovulations|
      invariant offsets == Offsets(periods, ovulations[..i])
    {
      var ovulation := ovulations[i];
      assert ovulations[..i + 1][..i] == ovulations[..i];
      var j := 0;
      while j < |periods|
        invariant 0 <= j <= |periods|
        invariant forall k :: 0 <= k < j ==> periods[k].startDate > ovulation.ovulationDate
        invariant offsets == Offsets(periods, ovulations[..i])
      {
        var period := periods[j];
        if period.startDate <= ovulation.ovulationDate {
          FirstStartDecides(periods, ovulation.ovulationDate, j);
          var offset := ovulation.ovulationDate - period.startDate;
          if 0 <= offset <= MaxOvulationOffset {
            offsets := offsets + [offset];
          }
          assert offsets == Offsets(periods, ovulations[..i + 1]);
          break;
        }
        j := j + 1;
      }
      assert offsets == Offsets(periods, ovulations[..i + 1]);
      i := i + 1;
    }
    assert ovulations[..i] == ovulations;
  }

  // ---------------------------------------------------------------------------
  // Next ovulation
  // ---------------------------------------------------------------------------

  datatype OvulationPrediction =
    | NoPeriodData
    | OvulationForecast(predictedDate: Day, averageOvulationDay: real, confidence: Confidence, recordsAnalyzed: nat)

  /** The mean offset, or the standard 14 days when no ovulation could be matched. */
  function AverageOffset(offsets: seq<int>): real
  {
    if |offsets| == 0 then DefaultOvulationDay as real else Mean(offsets)
  }

  /** The average offset of matched ovulations lies in the accepted window of 0 to 21 days. */
  lemma AverageOffsetInWindow(offsets: seq<int>)
    requires forall i :: 0 <= i < |offsets| ==> 0 <= offsets[i] <= MaxOvulationOffset
    ensures 0.0 <= AverageOffset(offsets) <= MaxOvulationOffset as real
    ensures 0 <= Truncate(AverageOffset(offsets)) <= MaxOvulationOffset
  {
    if |offsets| > 0 {
      MeanAtLeast(offsets, 0);
      MeanAtMost(offsets, MaxOvulationOffset);
    }
  }

  method PredictNextOvulation(periodHistory: seq<PeriodRecord>, ovulationHistory: seq<OvulationRecord>, today: Day)
    returns (p: OvulationPrediction)
    ensures p.NoPeriodData? <==> |periodHistory| == 0
    ensures |periodHistory| > 0 ==>
      var offsets := Offsets(Recent(periodHistory), Recent(ovulationHistory));
      var newest := periodHistory[0].startDate;
      var base := newest + Truncate(AverageOffset(offsets));
      p.recordsAnalyzed == |offsets| <= |Recent(ovulationHistory)| &&
      p.averageOvulationDay == AverageOffset(offsets) &&
      (|offsets| == 0 ==> p.averageOvulationDay == DefaultOvulationDay as real && p.confidence == Low) &&
      (0 < |offsets| < 3 ==> p.confidence == Medium) &&
      (|offsets| >= 3 ==> p.confidence == High) &&
      newest <= base <= newest + MaxOvulationOffset &&
      (base < today && |periodHistory| >= 2 ==>
         p.predictedDate == base + Truncate(Mean(Gaps(Recent(periodHistory))))) &&
      (base >= today || |periodHistory| == 1 ==> p.predictedDate == base)
    ensures |periodHistory| > 0 && NewestFirst(periodHistory) ==> p.predictedDate >= periodHistory[0].startDate
  {
    if |periodHistory| == 0 {
      return NoPeriodData;
    }
    var lastPeriod := periodHistory[0];
    var ovulations := Recent(ovulationHistory);
    var periods := Recent(periodHistory);
    var ovulationOffsets := OvulationOffsets(periods, ovulations);
    var avgOffset: real;
    var confidence: Confidence;
    if |ovulationOffsets| > 0 {
      avgOffset := Mean(ovulationOffsets);
      confidence := if |ovulationOffsets| >= 3 then High else Medium;
    } else {
      avgOffset := DefaultOvulationDay as real;
      confidence := Low;
    }
    AverageOffsetInWindow(ovulationOffsets);
    var predictedOvulation := lastPeriod.startDate + Truncate(avgOffset);
    if predictedOvulation < today {
      if |periods| >= 2 {
        var cycleLengths := CycleLengths(periods);
        var avgCycleLength := Mean(cycleLengths);
        var nextPeriodDate := lastPeriod.startDate + Truncate(avgCycleLength);
        predictedOvulation := nextPeriodDate + Truncate(avgOffset);
        if NewestFirst(periodHistory) {
          assert periodHistory[0].startDate >= periodHistory[|periods| - 1].startDate;
          TruncatedMeanCycle(periods);
        }
      }
    }
    p := OvulationForecast(predictedOvulation, avgOffset, confidence, |ovulationOffsets|);
  }

  // ---------------------------------------------------------------------------
  // Cycle statistics
  // ---------------------------------------------------------------------------

  /** The inclusive length (end - start + 1) of every period that has an end date, in order. */
  function InclusiveLengths(periods: seq<PeriodRecord>): (r: seq<int>)
    ensures |r| <= |periods|
    ensures |r| == 0 <==> forall k :: 0 <= k < |periods| ==> periods[k].endDate.None?
    ensures (forall k :: 0 <= k < |periods| ==> WellFormed(periods[k])) ==> forall i :: 0 <= i < |r| ==> r[i] >= 1
  {
    if |periods| == 0 then []
    else
      var earlier := InclusiveLengths(periods[..|periods| - 1]);
      var last := periods[|periods| - 1];
      match last.endDate
      case Some(end) => earlier + [end - last.startDate + 1]
      case None => earlier
  }

  method PeriodLengths(periods: seq<PeriodRecord>) returns (lengths: seq<int>)
    ensures lengths == InclusiveLengths(periods)
  {
    lengths := [];
    var i := 0;
    while i < |periods|
      invariant 0 <= i <= |periods|
      invariant lengths == InclusiveLengths(periods[..i])
    {
      var period := periods[i];
      assert periods[..i + 1][..i] == periods[..i];
      if period.endDate.Some? {
        var length := period.endDate.value - period.startDate + 1;
        lengths := lengths + [length];
      }
      i := i + 1;
    }
    assert periods[..i] == periods;
  }

  datatype CycleStats = CycleStats(
    totalPeriods: nat,
    totalOvulations: nat,
    averageCycleLength: Option<real>,
    cycleRegularity: Option<Regularity>,
    averagePeriodLength: Option<real>)

  method ComputeCycleStats(periods: seq<PeriodRecord>, ovulations: seq<OvulationRecord>) returns (stats: CycleStats)
    ensures stats.totalPeriods == |periods| && stats.totalOvulations == |ovulations|
    ensures stats.averageCycleLength == if |periods| >= 2 then Some(Mean(Gaps(periods))) else None
    ensures stats.cycleRegularity == CycleRegularity(Gaps(periods))
    ensures stats.cycleRegularity.Some? <==> |periods| >= 4
    ensures var lengths := InclusiveLengths(periods);
      stats.averagePeriodLength == if |lengths| == 0 then None else Some(Mean(lengths))
    ensures stats.averagePeriodLength.None? <==> forall k :: 0 <= k < |periods| ==> periods[k].endDate.None?
    ensures |periods| >= 2 ==>
      stats.averageCycleLength
        == Some((periods[0].startDate - periods[|periods| - 1].startDate) as real / |Gaps(periods)| as real)
    ensures (forall k :: 0 <= k < |periods| ==> WellFormed(periods[k])) && stats.averagePeriodLength.Some? ==>
      stats.averagePeriodLength.value >= 1.0
  {
    stats := CycleStats(|periods|, |ovulations|, None, None, None);
    if |periods| >= 2 {
      var cycleLengths := CycleLengths(periods);
      stats := stats.(averageCycleLength := Some(Mean(cycleLengths)));
      if |cycleLengths| >= 3 {
        var regularity := CycleRegularity(cycleLengths);
        stats := stats.(cycleRegularity := regularity);
      }
      MeanCycleSpan(periods);
    }
    var periodLengths := PeriodLengths(periods);
    if |periodLengths| > 0 {
      stats := stats.(averagePeriodLength := Some(Mean(periodLengths)));
      if forall k :: 0 <= k < |periods| ==> WellFormed(periods[k]) {
        MeanAtLeast(periodLengths, 1);
      }
    }
  }
}
