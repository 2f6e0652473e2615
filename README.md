# UIDAI update-demand analytics, modelled in Dafny

The system reads Aadhaar update and enrolment records and turns them into one
risk row per pincode. Three kinds of record come in:

- biometric updates, counted by age bracket;
- demographic updates, counted by age bracket;
- enrolments, counted by age bracket.

This project models the computational core of that pipeline and proves what
it promises:

- **Pincode aggregation** (`aggregate_by_pincode`). Each record category is
  grouped by pincode and its age-bracket counters are summed. The union of
  pincodes is listed, and each category's sums are left-merged in, with 0
  for a pincode the category lacks.
- **Timeline aggregation** (`aggregate_time_series`). The caller's date
  columns are parsed in place and each category is summed per date. The two
  daily tables are outer-merged and `total_updates` is added. The result is
  ordered by date and summed per week (weeks close on Sunday).
- **Update rates and load tiers** (`calculate_update_rates`,
  `categorize_risk`). A rate is a division with a zero-denominator guard. The
  tier is a three-way staircase over the batch's 25th and 75th percentiles
  of `mbu_rate`. pandas' linear-interpolation quantile is written out over a
  sorted sequence of reals.
- **Identity Health Score** (`calculate_ihs`, `assign_ihs_strategy`,
  `calculate_pincode_ihs`). The score is 600 plus two clipped bonuses. There
  is one scorer, parameterised by a profile, with two instances:
  - the analysis module: biometric coefficient 200, strict `>` boundaries;
  - the dashboard script: coefficient 150, inclusive `>=` boundaries,
    rounding half to even.

  Lemmas show exactly where the two profiles disagree.
- **Dashboard metrics** (`process_data`, lines 41-122). Per-pincode sums of
  the three categories are outer-merged, then:
  - missing values are filled: 0 for counts, 100 for enrolment, `'Unknown'`
    for state and district;
  - a zero enrolment is raised to 1;
  - the load, the 95th-percentile High Risk flag, the rates, the rounded
    score and the strategy are added.
- **Monthly demand** (`process_data`, lines 139-150). Dates are parsed with
  coercion, and records whose date fails to parse are dropped. The
  `bio_age_5_17` counter is then summed per (month, pincode, state,
  district).
- **Signal adjustment** (`adjust_forecast_with_signals`,
  `get_festival_impact`):
  - each forecast period is multiplied by the product of the impact factors
    of the signal rows dated exactly that period;
  - the festival multiplier is a fixed staircase over the month.

## How the model is built

- **Tables.** A table is a `Frame`: a set of columns and a sequence of rows,
  each row a map from column to cell.
- **Cells.** `Cell.Missing` stands for pandas' NaN and NaT. Counts and rates
  are `real`, not IEEE floats. Dates are day numbers.
- **Tables changed in place.** Where the source changes a table in place,
  the model uses the `DataFrame` class and its methods carry `modifies`:
  - `calculate_pincode_ihs`;
  - the date rewrites in `aggregate_time_series` and
    `adjust_forecast_with_signals`, on the caller's tables;
  - the date rewrite in the monthly-demand step, on the loaded biometric
    table, which the model takes as a parameter because the loaders are
    left out.
- **Step-by-step code.** Code that accumulates step by step is a method with
  its loop or its sequence of steps: the pincode set and merges, the factor
  loop, and the dashboard's column-by-column enrichment. Each such method is
  specified by a function of its inputs.

The modules are:

- `Frames`: the table primitives of pandas used by the core: group-by sums,
  `first`, outer and left merges, `fillna`, adding a column.
- `Quantiles`: sorting, minimum and maximum, linear-interpolation quantiles.
- `RealArith`: small facts about real multiplication.
- `IhsScoring`: `src/ihs_scoring.py` and the dashboard's score and strategy.
- `RiskProfiling`: `src/risk_profiling.py`.
- `DataProcessing`: `aggregate_by_pincode`.
- `TimeSeries`: `aggregate_time_series`.
- `DashboardMetrics`: `dashboard/scripts/process_data.py`, lines 41-122 and
  139-150.
- `SignalAdjustment`: `src/signal_adjustment.py`.

### Where the code and the written design differ

The model follows the code in each case.

- **Low Load boundary.** The design text says units at or below the 25th
  percentile are Low Load. `get_risk_label` tests `rate >= q25` for Medium
  Load, so a rate exactly at the 25th percentile is Medium Load
  (`RiskProfiling.RateAtLowerQuartile`).
- **Missing and zero enrolment.** The design text floors a zero or missing
  population to 1. The dashboard fills a missing enrolment with 100 and
  raises only a zero enrolment to 1 (`DashboardMetrics.Divisor`).
- **Strategy boundaries.** The design text asks for one boundary rule. The
  code keeps two, and the model states both
  (`IhsScoring.ProfilesDisagreeAtThresholds`).

## Model

| member | source | states |
|---|---|---|
| IhsScoring.Clip | src/ihs_scoring.py:26-29 | `np.clip` keeps its result within the two bounds |
| IhsScoring.Score | src/ihs_scoring.py:10-31 | a profile's score lies between 600 and 600 plus both bonus caps |
| IhsScoring.CalculateIhs | src/ihs_scoring.py:4-31 | `calculate_ihs` lies in [600, 900] for every pair of rates, because the bonuses are clipped to [0, 200] and [0, 100] |
| IhsScoring.ScoreOfZeroRates | src/ihs_scoring.py:10-31 | zero rates give exactly the base score, 600 |
| IhsScoring.BonusSaturates | src/ihs_scoring.py:26-29 | once rate times coefficient reaches the cap, the bonus is the cap |
| IhsScoring.NotebookSaturation | src/ihs_scoring.py:26-29 | `mbu_rate >= 1` gives a biometric bonus of 200; `demo_rate >= 1` gives a demographic bonus of 100 |
| IhsScoring.ClipMonotone | src/ihs_scoring.py:26-29 | clipping is monotone |
| IhsScoring.ScoreMonotone | src/ihs_scoring.py:26-31 | the score never decreases when either rate grows |
| IhsScoring.AssignIhsStrategy | src/ihs_scoring.py:33-42 | above 800 is Maintain; above 700 up to 800 is Awareness; 700 and below is Intervention (each an if-and-only-if) |
| IhsScoring.StrategyMonotone | src/ihs_scoring.py:37-42 | a higher score never yields a more urgent tier, under either boundary rule |
| IhsScoring.GetStrategy | dashboard/scripts/process_data.py:117-120 | 800 or more is Healthy; 700 up to 800 is Warning; below 700 is Critical (each an if-and-only-if) |
| IhsScoring.ProfilesAgreeAwayFromThresholds | dashboard/scripts/process_data.py:117-120 | off 700 and 800, the strict and the inclusive staircase choose the same tier |
| IhsScoring.ProfilesDisagreeAtThresholds | dashboard/scripts/process_data.py:117-120 | at exactly 800 and exactly 700 the two staircases differ: Awareness against Healthy, Intervention against Warning |
| IhsScoring.DashboardNeverMoreUrgent | dashboard/scripts/process_data.py:117-120 | for every score, the dashboard's tier is never more urgent than the analysis module's |
| IhsScoring.DashboardScoresNoHigher | dashboard/scripts/process_data.py:110-112 | the dashboard's coefficient 150 never scores higher than the module's coefficient 200 |
| IhsScoring.ScoreExactlyAtMiddleThreshold | dashboard/scripts/process_data.py:109-120 | 1000 biometric and 500 demographic updates over 2000 enrolled score exactly 700, which is Warning on the dashboard and Intervention in the module |
| IhsScoring.PincodeIhs | src/ihs_scoring.py:44-53 | without `mbu_rate` or `demo_rate` the table is unchanged; otherwise every row gets the score of its rates and the strategy of that score, other columns and the row count kept |
| IhsScoring.PincodeIhsRows | src/ihs_scoring.py:51-52 | a row with both rates scores in [600, 900] with the strategy of its score; a row with a NaN rate gets a NaN score and Intervention |
| IhsScoring.CalculatePincodeIhs | src/ihs_scoring.py:44-53 | the caller's table is changed in place into `PincodeIhs` of its old value |
| RiskProfiling.Rate | src/risk_profiling.py:11-15 | the rate is 0 when either count is NaN or the denominator is 0; otherwise rate times denominator is the numerator |
| RiskProfiling.RateNonNegative | src/risk_profiling.py:11-15 | non-negative counts give a non-negative rate |
| RiskProfiling.CalculateUpdateRates | src/risk_profiling.py:4-17 | each rate column is added exactly when both of its source columns exist, holding each row's rate; every other cell, including an existing rate column whose sources are missing, and the row count are kept; without sources the table is unchanged |
| RiskProfiling.UpdateRateRow | src/risk_profiling.py:11-12 | a zero `age_5_17` gives `mbu_rate` 0; otherwise `mbu_rate * age_5_17 == bio_age_5_17` |
| RiskProfiling.RatesAllPresent | src/risk_profiling.py:11-12 | after `calculate_update_rates` no `mbu_rate` is NaN, so the quantiles see every row |
| RiskProfiling.RiskLabelOf | src/risk_profiling.py:32-38 | High Load if and only if rate >= q75; Medium Load if and only if q25 <= rate < q75; Low Load otherwise, including a NaN rate or threshold |
| RiskProfiling.CategorizeRisk | src/risk_profiling.py:19-42 | without `mbu_rate` the table is unchanged; otherwise each row is labelled against the batch's q25 and q75, other columns and the row count kept |
| RiskProfiling.ThresholdsOrdered | src/risk_profiling.py:29-30 | with any rate present, min <= q25 <= q75 <= max |
| RiskProfiling.MaxRateIsHighLoad | src/risk_profiling.py:29-40 | a row with the batch's largest `mbu_rate` is High Load |
| RiskProfiling.LabelMonotone | src/risk_profiling.py:32-38 | a larger rate never gets a lower tier |
| RiskProfiling.CategorizeMonotone | src/risk_profiling.py:29-40 | within a batch, the row with the larger rate has at least the tier of the other |
| RiskProfiling.RateAtLowerQuartile | src/risk_profiling.py:32-38 | a rate exactly at q25, below q75, is Medium Load, not Low Load |
| Quantiles.Sort | src/risk_profiling.py:29-30 | sorting yields an ascending permutation of the values |
| Quantiles.Quantile | src/risk_profiling.py:29-30 | the quantile exists if and only if some value is present (all-NaN gives NaN) |
| Quantiles.QuantileBounds | src/risk_profiling.py:29-30 | every quantile lies between the minimum and the maximum |
| Quantiles.QuantileMonotone | src/risk_profiling.py:29-30 | a higher probability never gives a lower quantile |
| Quantiles.InterpolateBounds | src/risk_profiling.py:29-30 | linear interpolation over sorted values stays between the first and the last |
| Frames.GroupBy | src/data_processing.py:81 | the grouped table has one row per pincode of the input, keyed, with the summed columns |
| Frames.GroupByLookup | src/data_processing.py:81 | the grouped cell of a pincode is the sum of the column over that pincode's rows |
| Frames.GroupByLookupAbsent | src/data_processing.py:103 | a pincode absent from a category reads as NaN in its grouped table, and its sum is 0 |
| Frames.GroupSumAppend | src/data_processing.py:81 | group sums split over a split of the rows |
| Frames.GroupFirstMissing | dashboard/scripts/process_data.py:45-46 | `first` is NaN if and only if no row of the pincode has a value in the column |
| Frames.GroupFirstAt | dashboard/scripts/process_data.py:45-46 | otherwise `first` is the cell of the first row of the pincode that has one, skipping NaN |
| Frames.OuterMerge | src/data_processing.py:52 | an outer merge holds the union of both tables' keys, once each, and both tables' columns |
| Frames.OuterMergeAscending | dashboard/scripts/process_data.py:75-76 | outer-merged rows come in ascending key order |
| Frames.LeftMerge | src/data_processing.py:103 | a left merge keeps the left rows, in order, and reads the right table's cells at each row's key |
| Frames.FillNa | dashboard/scripts/process_data.py:79-83 | `fillna` replaces exactly the NaN cells of one column and keeps every other cell |
| Frames.SortedList | dashboard/scripts/process_data.py:75-76 | the merged keys listed in ascending order, each once |
| DataProcessing.GroupCategory | src/data_processing.py:78-91 | a category with rows and one of its listed counters yields its pincodes with the counter sums of each; otherwise an empty table |
| DataProcessing.AllPincodes | src/data_processing.py:95-98 | the collected set is the union of the pincodes of the non-empty grouped tables |
| DataProcessing.GroupedKeys | src/data_processing.py:95-98 | a grouped table contributes its category's pincodes exactly when it is non-empty |
| DataProcessing.ListOf | src/data_processing.py:100 | `list(pincodes)` lists each pincode of the set exactly once |
| DataProcessing.MergeStep | src/data_processing.py:103 | a left merge followed by `fillna(0)`: the rows of `df_risk` in order, each extended with its pincode's grouped cells, 0 where absent |
| DataProcessing.MergeCategory | src/data_processing.py:102-109 | after a merge each row keeps its pincode and holds the category's sums for it, 0 for a pincode the category lacks |
| DataProcessing.MergeInto | src/data_processing.py:102-109 | merging a category adds exactly its summed counters, keeps every earlier cell, and holds its sums per pincode |
| DataProcessing.MergeCategories | src/data_processing.py:100-109 | the three merges keep the listed pincodes and add each category's sums |
| DataProcessing.PincodeTable | src/data_processing.py:93-111 | from the grouped tables: one row per contributed pincode, with the contributed columns and their sums |
| DataProcessing.AggregateByPincode | src/data_processing.py:70-111 | the result is keyed by pincode; its pincodes are the union of those contributed (none when all inputs are empty); its columns are the listed counters present; each cell is the sum over the category's rows with that pincode |
| TimeSeries.ParsedDate | src/data_processing.py:33-36 | a parsed cell is a date or NaT, and an already-parsed date is kept |
| TimeSeries.ParseDates | src/data_processing.py:33-36 | the date column is parsed row by row and every other cell is kept |
| TimeSeries.WithParsedDates | src/data_processing.py:33-36 | a non-empty table gets its dates parsed; columns and row count are kept |
| TimeSeries.ParseTwice | src/data_processing.py:33-36 | parsing dates is idempotent |
| TimeSeries.ParseInPlace | src/data_processing.py:33-36 | the caller's table is rewritten in place to its parsed dates |
| TimeSeries.WeekBounds | src/data_processing.py:66 | every date falls in the week closing on the first Sunday on or after it |
| TimeSeries.WeekOfMonotone | src/data_processing.py:66 | later dates never fall in earlier weeks |
| TimeSeries.DaySumAbsent | src/data_processing.py:52 | a date that a category does not carry sums to 0 in its counters |
| TimeSeries.TotalOf | src/data_processing.py:42 | a category's total on a date is the sum of its three counters over that date's records |
| TimeSeries.AddTotal | src/data_processing.py:41-48 | adding the total keeps the dates and gives each date its counter sums and their total |
| TimeSeries.DailyTotals | src/data_processing.py:38-48 | one row per distinct date, ascending, with each counter's sum and the total; empty when no record has a date |
| TimeSeries.DailyLookup | src/data_processing.py:38-48 | reading a date's cell in the daily table gives that date's sum over the records |
| TimeSeries.MergeBoth | src/data_processing.py:51-52 | the outer merge filled with 0 has one ascending row per date of either category, each holding both categories' sums |
| TimeSeries.OtherSideZero | src/data_processing.py:54-58 | the absent category's total set to 0 is its (empty) sum |
| TimeSeries.OneSided | src/data_processing.py:53-58 | with one category alone, its daily rows gain the other's total as 0 and are that category's sums |
| TimeSeries.AddTotalUpdates | src/data_processing.py:62 | `total_updates` equals `total_bio + total_demo` on every row, other cells kept |
| TimeSeries.MergeDaily | src/data_processing.py:50-62 | the master timeline has one ascending row per date of either category, each with both categories' sums and their sum |
| TimeSeries.Resample | src/data_processing.py:63-66 | one row per week from the first to the last, each holding the column sums over the week's days |
| TimeSeries.Weekly | src/data_processing.py:63-66 | the weekly table holds each week's sums over the records, and keeps the grand total of every column of the timeline, `total_updates` among them |
| TimeSeries.ResampleKeepsTotals | src/data_processing.py:66 | weekly summing keeps a column's grand total |
| TimeSeries.WeekSumAdd | src/data_processing.py:62-66 | a column that is the sum of two others per row is so per week too |
| TimeSeries.WeeklyRow | src/data_processing.py:66 | each weekly row is dated at its week's Sunday, with that week's sums of both categories and `total_updates` their sum |
| TimeSeries.WeeksKeepRecords | src/data_processing.py:66 | the weeks from the earliest to the latest date keep every dated record |
| TimeSeries.WeeklyKeepsBiometric | src/data_processing.py:66 | each biometric counter's weekly column adds up to its total over the dated records |
| TimeSeries.WeeklyKeepsDemographic | src/data_processing.py:66 | each demographic counter's weekly column adds up to its total over the dated records |
| TimeSeries.Timeline | src/data_processing.py:38-66 | from records with parsed dates: the empty table if and only if no record has a date, otherwise the weekly timeline of both categories |
| TimeSeries.AggregateTimeSeries | src/data_processing.py:28-68 | both inputs get their dates parsed in place; the result is empty if and only if no record has a date; otherwise it is the weekly timeline of the records |
| DashboardMetrics.RoundHalfEven | dashboard/scripts/process_data.py:114 | `round()` gives an integer within 0.5 of the score, the even one on a tie |
| DashboardMetrics.RoundUnique | dashboard/scripts/process_data.py:114 | that integer is the only one with those two properties |
| DashboardMetrics.RoundWithin | dashboard/scripts/process_data.py:114 | rounding a value between two integers stays between them |
| DashboardMetrics.Enrich | dashboard/scripts/process_data.py:79-122 | each merged row becomes a metrics row: NaNs filled with 0, 100 and 'Unknown', a zero enrolment raised to 1, load, High Risk against the batch's 95th percentile, rates, the rounded score and its strategy |
| DashboardMetrics.MergedDescribes | dashboard/scripts/process_data.py:75-122 | an enriched merged row states its pincode's metrics in terms of the three input tables |
| DashboardMetrics.ComputeMetrics | dashboard/scripts/process_data.py:41-122 | one row per pincode of any category, ascending; each holds its update sums (0 if absent), the first state and district (else 'Unknown'), enrolment (100 if absent, 1 if zero), load, risk flag, rates, score and strategy |
| DashboardMetrics.ScoreRange | dashboard/scripts/process_data.py:109-122 | every `ihs_score` is an integer in [600, 900], and its strategy follows the inclusive staircase |
| DashboardMetrics.PeakLoadIsHighRisk | dashboard/scripts/process_data.py:92-94 | the row(s) with the largest load are High Risk, so some row always is |
| DashboardMetrics.RiskMonotone | dashboard/scripts/process_data.py:92-94 | a row with at least the load of a High Risk row is High Risk |
| DashboardMetrics.GroupSumNonNegative | dashboard/scripts/process_data.py:64-69 | sums of non-negative counters are non-negative |
| DashboardMetrics.DivisorPositive | dashboard/scripts/process_data.py:79-86 | with non-negative enrolment counters the rates' denominator is positive |
| DashboardMetrics.DropUndated | dashboard/scripts/process_data.py:142 | `dropna` keeps only records with a parsed date, each from the input |
| DashboardMetrics.DropUndatedAppend | dashboard/scripts/process_data.py:142 | `dropna` works record by record and keeps their order: it distributes over concatenation |
| DashboardMetrics.DropUndatedOne | dashboard/scripts/process_data.py:142 | a single record is kept exactly when its date parsed |
| DashboardMetrics.DropUndatedKeepsDated | dashboard/scripts/process_data.py:142 | every record with a parsed date is kept |
| DashboardMetrics.DropUndatedFrame | dashboard/scripts/process_data.py:142 | the dropped table keeps its columns |
| DashboardMetrics.WithMonth | dashboard/scripts/process_data.py:145 | each record gains the month of its date, other cells kept |
| DashboardMetrics.ParsedDemand | dashboard/scripts/process_data.py:141 | parsing the dates changes no record's key or counter |
| DashboardMetrics.DropKeepsDemand | dashboard/scripts/process_data.py:141-142 | dropping undated records changes neither the keys nor the sums |
| DashboardMetrics.UndatedIgnored | dashboard/scripts/process_data.py:141-142 | a record whose date fails to parse contributes to no key |
| DashboardMetrics.DemandAppend | dashboard/scripts/process_data.py:149 | demand keys and sums split over a split of the records |
| DashboardMetrics.StampedDemand | dashboard/scripts/process_data.py:145-149 | grouping the month-stamped records yields the records' keys and their counter sums |
| DashboardMetrics.DemandOfParsed | dashboard/scripts/process_data.py:141-150 | from a table whose dates were parsed, the grouped demand holds one entry per (month, pincode, state, district) of a dated raw record, with the sum of its `bio_age_5_17` |
| DashboardMetrics.MonthlyDemand | dashboard/scripts/process_data.py:139-150 | no demand if and only if the table is empty; otherwise one entry per (month, pincode, state, district) of a record with a parsed date, holding the sum of its `bio_age_5_17`; the dates of the loaded biometric table, taken as a parameter because the loaders are left out, are parsed in place |
| SignalAdjustment.Adjust | src/signal_adjustment.py:36-48 | the adjusted forecast has the forecast's index and length |
| SignalAdjustment.ScaleAt | src/signal_adjustment.py:45-46 | `.loc[d] *= factor` multiplies the periods equal to `d` and keeps every other |
| SignalAdjustment.Adjustment | src/signal_adjustment.py:36-46 | the loop leaves each period's factor at the product of the factors of the signal rows dated exactly that period (1.0 when none is) |
| SignalAdjustment.Scaled | src/signal_adjustment.py:48 | the product is taken period by period, NaN absorbing |
| SignalAdjustment.AdjustForecastWithSignals | src/signal_adjustment.py:13-49 | an empty signal table returns the forecast unchanged; otherwise the signals' dates are parsed in place and each period is the forecast times its matching factors |
| SignalAdjustment.NoMatchNoFactor | src/signal_adjustment.py:36-46 | a period that no signal row matches keeps factor 1.0 |
| SignalAdjustment.UnmatchedIgnored | src/signal_adjustment.py:45-46 | a signal row dated outside the forecast's index changes nothing |
| SignalAdjustment.NoSignalsIdentity | src/signal_adjustment.py:36-48 | without signal rows the forecast comes back unchanged |
| SignalAdjustment.AllOnesProduct | src/signal_adjustment.py:42 | rows with factor 1.0, including those of a table lacking the factor column, give every period factor 1.0 |
| SignalAdjustment.AllOnesIdentity | src/signal_adjustment.py:36-48 | all-1.0 factors return the forecast unchanged |
| SignalAdjustment.ProductAppend | src/signal_adjustment.py:40-46 | a period's factor splits over a split of the signal rows |
| SignalAdjustment.SignalOrderIrrelevant | src/signal_adjustment.py:40-48 | the order of the signal rows does not change the result |
| SignalAdjustment.FestivalImpact | src/signal_adjustment.py:51-62 | May and June give 1.1, October and November 0.9, every other month 1.0; always within [0.9, 1.1] |
| SignalAdjustment.FestivalMonths | src/signal_adjustment.py:57-62 | the impact is above 1 exactly in months 5 and 6, below 1 exactly in months 10 and 11, and 1 in the other eight |

## Left out

- File input and output are not modelled:
  - the loaders `load_and_concat` and `load_data` (src/data_processing.py:6-26, dashboard/scripts/process_data.py:12-29);
  - `load_simulated_signals` (src/signal_adjustment.py:4-11);
  - the JSON exports (dashboard/scripts/process_data.py:131-135 and 153-157);
  - the progress messages the script prints.
- The export's column selection (dashboard/scripts/process_data.py:125-129) is not modelled. It only projects columns the model already computes.
- Holt-Winters forecasting (`src/forecasting.py`) is a foreign floating-point optimiser. The forecast is an input series.
- The Streamlit user interface (`dashboard/app.py`, `streamlit_app.py`, `dashboard/components/*`) and the synthetic data generator (`scripts/generate_data.py`) are outside the core.
- `add_geography_from_pincode` is not part of this model.
- Floating point is not modelled: counts, rates, scores and factors are exact reals, so IEEE rounding is absent. The `replace([inf, -inf], 0).fillna(0)` of a rate is the zero-denominator branch of `RiskProfiling.Rate`.
- Calendar parsing is a caller-given function. `pd.to_datetime(..., dayfirst=True, errors='coerce')` and the default parse of the signals are both a function from text to an optional day number, and a failure is NaT.
- Formatting a date as its month string (`to_period('M').astype(str)`) is also a caller-given function.
- SignalAdjustment.AdjustForecastWithSignals: requires every signal date text to parse (`Parsable`), because `pd.to_datetime` without coercion raises on bad text and the exception is not modelled; requires a date column in a non-empty signal table (`HasDates`), because pandas raises a key error without it; and fixes the column names to `date` and `impact_factor`, the default arguments of src/signal_adjustment.py:13, rather than taking them as parameters.
- DataProcessing.AggregateByPincode: requires a pincode column when a non-empty category has a listed counter (`Groupable`), because pandas raises a key error without it and the exception is not modelled.
- SignalAdjustment.FestivalImpact: takes the month number of the date rather than the date itself.
- DataProcessing.ListOf: states only that each pincode is listed once. The order of `list(set)` follows Python's hashing and is not modelled.
- DashboardMetrics.MonthlyDemand: returns the grouped sums as a map from (month, pincode, state, district) to the sum, not as a table with ordered rows and renamed columns; requires a date column and, in a non-empty table, the pincode, state, district and bio_age_5_17 columns the group-by reads (`HasDates`, `DemandReadable`), because pandas raises a key error without them and the exception is not modelled.
- DashboardMetrics.ComputeMetrics: returns the merged table's rows as values of one record type rather than as a table of cells. It requires the columns the script reads, because pandas raises a key error without them.
- TimeSeries.AggregateTimeSeries: the weekly index is kept as a date column holding each week's closing Sunday rather than as an index. It requires, in a non-empty table, the date column and the counter columns the function reads (`Dated`, `HasDates`), because pandas raises a key error without them and the exception is not modelled.
- Dtypes are not modelled: integer against float columns, and the `astype(int)` beyond the rounding it follows.
