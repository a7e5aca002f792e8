/**
 * The records the prediction engine reads: period records and ovulation records,
 * as the storage layer hands them over. Calendar dates are day numbers (the
 * proleptic Gregorian ordinal, so that the difference of two dates is the
 * number of days between them).
 */
module Records {

  datatype Option<+T> = None | Some(value: T)

  /** A calendar date as a day number; `b - a` is `(b - a).days`. */
  type Day = int

  /**
   * A period: its start date, and an end date that is absent while the period
   * is still open. Flow intensity and symptoms are free text the engine never reads.
   */
  datatype PeriodRecord = PeriodRecord(
    startDate: Day,
    endDate: Option<Day>,
    flowIntensity: Option<string>,
    symptoms: Option<string>)

  /**
   * An ovulation marker. The cervical mucus label is meant to be one of dry,
   * sticky, creamy, watery or egg-white, but it is stored as unchecked text.
   */
  datatype OvulationRecord = OvulationRecord(
    ovulationDate: Day,
    basalBodyTemperature: Option<real>,
    cervicalMucus: Option<string>,
    symptoms: Option<string>)

  /** A period does not end before it starts. Nothing in the source checks this; it is only a hypothesis here. */
  ghost predicate WellFormed(p: PeriodRecord) {
    p.endDate.Some? ==> p.endDate.value >= p.startDate
  }

  /** Periods in the order the storage layer returns them: latest start date first. */
  ghost predicate NewestFirst(periods: seq<PeriodRecord>) {
    forall i, j :: 0 <= i < j < |periods| ==> periods[i].startDate >= periods[j].startDate
  }

  /** How many of the most recent records the two forecasts look at. */
  const RecentLimit: nat := 6

  /** The records a `limit(6)` query returns from a history sorted newest first. */
  function Recent<T>(history: seq<T>): (r: seq<T>)
    ensures |r| == if |history| < RecentLimit then |history| else RecentLimit
    ensures r <= history
    ensures |history| > 0 ==> r[0] == history[0]
  {
    if |history| < RecentLimit then history else history[..RecentLimit]
  }

  lemma RecentKeepsOrder(periods: seq<PeriodRecord>)
    requires NewestFirst(periods)
    ensures NewestFirst(Recent(periods))
  {
  }
}
