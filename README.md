# Cycle prediction engine

A Dafny model of the prediction engine of a period-tracking backend. The engine takes a
user's period records and ovulation records, as the storage layer returns them (newest first),
and derives three things:

- the **next period** start date, with a low/medium/high confidence taken from the sample
  standard deviation of the cycle lengths;
- the **next ovulation** date: the mean distance (0 to 21 days) from a period start to the
  ovulations it claims, or 14 days when none is known, added to the newest period start and
  moved one mean cycle forward when that date has already passed and there are at least two
  periods; with a single period the past date is returned unchanged;
- **cycle statistics**: record counts, mean cycle length, a regularity label and the mean
  inclusive period length.

Calendar dates are day numbers (the proleptic Gregorian ordinal), so `(a - b).days` is integer
subtraction and adding a `timedelta` is integer addition. Means are exact (`real`). Python's
`int()` on a mean is `CycleMath.Truncate`, which rounds toward zero. The standard deviation
thresholds are decided exactly: `stdev <= k` holds exactly when the sample variance is at most
`k * k`, and that holds exactly when `n * Σx² - (Σx)² <= k² * n * (n - 1)`
(`CycleMath.VarianceAtMost`).

Files:

- `records.dfy` (module `Records`): the record datatypes, `Option`, the newest-first order and
  the window of the 6 most recent records that the forecasting queries return.
- `cycle_math.dfy` (module `CycleMath`): sum, mean, truncation, sample variance and the
  integer spread test shared by the confidence and regularity labels.
- `prediction.dfy` (module `Prediction`): the three handlers' computations. Each loop of the
  source is a method with loop invariants, proved against a specification function:
  `CycleLengths` against `Gaps`, `OvulationOffsets` (the nested loop with `break`) against
  `Offsets`, and `PeriodLengths` against `InclusiveLengths`. The statistics record is built
  field by field, as the source fills its dictionary.
- `scenarios.dfy` (module `Scenarios`): worked histories with the outcome each must give.
  Examples are one 28-day cycle, three equal cycles, the default ovulation day, the stale
  single-period forecast and an ovulation too late to count.

None of the operations requires the input to be sorted, since the source does not check the
order. The mean cycle length is (first start − last start) / (N − 1) in any order. Properties
that depend on the order take `NewestFirst` as a hypothesis. Examples are the nearest-start
reading of ovulation matching and "never earlier than the newest start".

Two points about what the code does:

- The forecast adds `int(mean)` days, which truncates toward zero rather than rounding to the
  nearest day.
- A period whose end date is before its start date is not rejected: the period handlers in
  `src/routes/period.py` (lines 31-34 and 85-91) parse and store the dates without comparing
  them. `WellFormed` is used only as a hypothesis, for the bound "mean period length is at
  least 1".

## Model

| member | source | states |
|---|---|---|
| Records.Recent | src/routes/prediction.py:17 | the forecasting queries see the first min(6, N) records of the newest-first history, and the same newest record |
| Records.RecentKeepsOrder | src/routes/prediction.py:82 | the 6-record window of a newest-first history is newest-first |
| CycleMath.MeanTimesCount | src/routes/prediction.py:35 | the mean times the count is the sum |
| CycleMath.Mean | src/routes/prediction.py:35 | the exact value `statistics.mean` approximates (also used at lines 98, 121, 162 and 181); `MeanTimesCount` states it is the sum over the count, and `MeanAtLeast`/`MeanAtMost` bound it by the values |
| CycleMath.Truncate | src/routes/prediction.py:41 | `int()` keeps the whole part, rounding toward zero: 0 <= t <= r < t + 1 for r >= 0, and the mirror image below 0 |
| CycleMath.TruncatedMeanIsQuotient | src/routes/prediction.py:35-41 | for n values with sum s >= 0, `int(mean(xs))` is the integer quotient s div n |
| CycleMath.SampleVariance | src/routes/prediction.py:45 | the square of `statistics.stdev` (also at line 165): the squared deviations from the mean over n − 1; `VarianceIdentity` and `VarianceAtMost` characterise it |
| CycleMath.VarianceIdentity | src/routes/prediction.py:45 | the sample variance times n(n-1) equals n·Σx² − (Σx)² |
| CycleMath.VarianceAtMost | src/routes/prediction.py:45-51 | stdev <= k (variance <= k²) exactly when n·Σx² − (Σx)² <= k²·n·(n−1) |
| CycleMath.SpreadBands | src/routes/prediction.py:46-51 | the integer test picks one of three bands: Tight iff variance <= 4 (stdev <= 2), Moderate iff 4 < variance <= 25, Wide iff variance > 25 |
| CycleMath.SpreadOf | src/routes/prediction.py:46-51 | the band of the shared thresholds (also lines 166-171), decided on integers; `SpreadBands` proves it picks the band the sample variance falls in |
| Prediction.Gaps | src/routes/prediction.py:26-32 | N records give max(0, N−1) cycle lengths |
| Prediction.GapsAt | src/routes/prediction.py:28-32 | cycle length i is start[i] − start[i+1], the distance from a start back to the next older one |
| Prediction.CycleLengths | src/routes/prediction.py:26-32 | the loop computes exactly `Gaps`: max(0, N−1) lengths, length i is start[i] − start[i+1]; on a newest-first list all lengths are >= 0 |
| Prediction.GapsTelescope | src/routes/prediction.py:27-35 | the cycle lengths sum to newest start − oldest start |
| Prediction.MeanCycleSpan | src/routes/prediction.py:35 | whatever the order, the mean cycle length is (first start − last start) over the number of cycles |
| Prediction.TruncatedMeanCycle | src/routes/prediction.py:35-41 | when the first start is not before the last (as on a newest-first list), `int()` of the mean cycle is (first − last) div (number of cycles), and is >= 0 |
| Prediction.CycleConfidenceBands | src/routes/prediction.py:43-53 | below 3 lengths 'medium'; from 3 lengths on, 'high' iff stdev <= 2, 'medium' iff 2 < stdev <= 5, 'low' iff stdev > 5 |
| Prediction.CycleRegularityBands | src/routes/prediction.py:164-171 | set iff there are at least 3 lengths; then 'very regular' iff stdev <= 2, 'regular' iff 2 < stdev <= 5, 'irregular' iff stdev > 5 |
| Prediction.CycleConfidence | src/routes/prediction.py:43-53 | the next-period confidence label; its bands are the ones proved in `CycleConfidenceBands` |
| Prediction.CycleRegularity | src/routes/prediction.py:164-171 | the statistics regularity label; its bands and when it is set are proved in `CycleRegularityBands` |
| Prediction.LabelsAgree | src/routes/prediction.py:166-171 | the regularity label and the next-period confidence use the same thresholds: high is very regular, medium is regular, low is irregular |
| Prediction.PredictNextPeriod | src/routes/prediction.py:12-60 | fewer than 2 records give a response with no date and confidence 'low'. Otherwise it reports `cycles_analyzed` = N−1 for the N-record window, with the exact mean of the window's cycle lengths and their confidence. The date is the newest start plus `int(mean)`. The mean is (newest − oldest) / (N−1). When the newest start is not before the oldest, the date is newest + (newest − oldest) div (N−1). On a newest-first history it is never before the newest start |
| Prediction.MatchOffset | src/routes/prediction.py:89-94 | an ovulation's offset, when it has one, is in [0, 21] and is its distance from some period start; an ovulation earlier than every period start gets none |
| Prediction.FirstStartDecides | src/routes/prediction.py:89-94 | only the first newest-first period starting on or before the ovulation decides: its offset if at most 21, otherwise the ovulation is dropped and no older period is tried |
| Prediction.NearestPeriodMatch | src/routes/prediction.py:87-94 | on a newest-first list an ovulation has an offset iff some period starts 0 to 21 days before it, and the offset is the smallest such distance |
| Prediction.Offsets | src/routes/prediction.py:85-94 | at most one offset per ovulation, each in [0, 21]; ovulations before every period start give none |
| Prediction.OvulationOffsets | src/routes/prediction.py:84-94 | the nested loop with `break` computes exactly `Offsets`, so at most one offset per ovulation, each in [0, 21] |
| Prediction.AverageOffsetInWindow | src/routes/prediction.py:96-102 | the average offset (14 when there are none) and its `int()` lie in [0, 21] |
| Prediction.AverageOffset | src/routes/prediction.py:96-101 | the mean of the matched offsets, or 14 when there are none; `AverageOffsetInWindow` bounds it and its `int()` to [0, 21] |
| Prediction.PredictNextOvulation | src/routes/prediction.py:67-130 | no periods give no date. Otherwise `ovulation_records_analyzed` is the offset count; the average is their mean or 14; confidence is 'low' (0 offsets), 'medium' (1–2) or 'high' (3+). The base date is the newest start + `int(avg)`, within 21 days of it. A base before today with >= 2 periods moves on by `int(mean cycle)`; otherwise the base is returned, even when past (1 period). On a newest-first history the date is never before the newest start |
| Prediction.InclusiveLengths | src/routes/prediction.py:173-178 | at most one length per period; none at all iff no period has an end date; with well-formed records every length is >= 1 |
| Prediction.PeriodLengths | src/routes/prediction.py:174-178 | the accumulation loop computes exactly `InclusiveLengths` (end − start + 1 for each ended period, in order) |
| Prediction.ComputeCycleStats | src/routes/prediction.py:137-183 | totals are the unfiltered counts. The mean cycle length is set iff there are >= 2 periods, and is (newest − oldest)/(N−1). Regularity is set iff there are >= 4 periods, with the shared thresholds. The mean period length is unset iff no period has an end date, and is >= 1 for well-formed records. No input fails |

## Left out

- HTTP routing, JWT identity and the JSON responses, including the `except` branch that turns
  any exception into status 500. The results are datatypes: a missing field is `None` or a
  separate constructor (`TooFewPeriods`, `NoPeriodData`).
- The database queries. Histories are parameters, in the newest-first order the queries
  return. The `limit(6)` is `Recent`. The repeated period queries of the ovulation handler
  return the same list and are modelled once.
- The wall clock: `today` is a parameter.
- Floating point: `statistics.mean` and `statistics.stdev` are replaced by the exact mean and an
  exact variance test. Float rounding near a threshold or near a whole number is not modelled.
  Neither is the one-decimal `round(x, 1)` of the reported averages: the model reports the
  exact mean.
- Calendar conversion (`isoformat`, date parsing) and the `date` range: dates are unbounded day
  numbers, so the overflow error of a date past year 9999 is not modelled.
- Flow intensity, symptoms, basal body temperature and cervical mucus are carried in the record
  types but not read by the engine. The mucus vocabulary is not checked, as in the source.
- Account registration, login, and the period and ovulation create/read/update/delete handlers.
  These copy fields into storage and compute nothing.
