# MarketPulse core, modelled in Dafny

MarketPulse is a marketing-intelligence dashboard. It loads four CSV exports:
Facebook, Google and TikTok ad reports, plus a business ledger. It runs them
through a pipeline of five steps:

1. Clean each table: normalise column names, use the first column whose name
   contains `date` as the date, coerce counts, rename to the schema, and drop
   rows with no date.
2. Stack the three ad tables and add missing required columns as zero.
3. Derive CTR, CPC, ROAS and CPM, guarded against division by zero.
4. Aggregate per (date, channel) and per date (the `Total` rows).
5. Outer-join with the business ledger on the date, fill gaps with zero and
   sort by (date, channel).

An analytics engine reads the merged table and produces:

- channel performance and daily trends with 7-day rolling means;
- business impact figures and top performers;
- the five-rule insight list, efficiency scores and letter grades;
- weekday patterns, budget reallocation and the executive summary.

Helpers format money and percentages, report and filter the date range, and
list missing columns.

Modules:

- `Frames`: a table is a list of column names plus rows of cells (`Null`,
  `Num`, `Day`, `Text`).
- `Cleaning`, `Combining`, `Metrics`, `Aggregation`, `Merging`: pure stages of
  `src/data_processor.py`.
- `DataProcessor`: the class `MarketPulseDataProcessor`. Its fields are
  `marketingCombined` and `finalDataset`. The column loops are methods proved
  against the stage functions.
- `Analytics`, `Insights`: `src/analytics.py` as functions over the merged rows
  (`FinalRow`). The loops over channels and insights are methods.
- `Loader`: the class `DataLoader`, with the directory listing and file reader
  as a `Disk` parameter.
- `Helpers`: `utils/helpers.py`.
- `Base`, `Seqs`, `Sorting`: shared sums, strings, filters, distinctness and a
  verified insertion sort.

Where the docstrings and the code disagree, the model follows the code. The
insight labelled "highest ROAS" in `get_performance_insights` reports
`channel_perf.iloc[0]`. That channel is the one with the highest spend, because
`calculate_channel_performance` sorts by spend. `Insights.InsightsTop` states
this as written.

A date that appears only in the business ledger gets the integer channel 0
from `fillna(0)` in the merge. That channel has no spend, so its ROAS is 0 and
the Optimization Opportunity check lists it. `', '.join` then raises
`TypeError`, which ends `get_performance_insights` and
`generate_executive_summary`. The model returns that error as
`NonTextChannelName`, and `Insights.MergedInsightsFail` states exactly when it
happens for a ledger that has a `total_revenue` column. A ledger without that
column makes `calculate_business_impact` raise `KeyError` first; the model does
not capture that failure (see `Analytics.BusinessImpact` under "## Left out").

## Model

| member | source | states |
|---|---|---|
| Frames.ToNumber | src/data_processor.py:34 | a coerced cell is a number: numbers are kept, text is parsed or becomes 0, NaN becomes 0 |
| Frames.ToDay | src/data_processor.py:24 | a coerced date cell is a day or `NaT`: days are kept, NaN stays `NaT`, anything else is parsed |
| Cleaning.NormalizeColumns | src/data_processor.py:17-18 | every column name is lower-cased with spaces turned into underscores; rows untouched |
| Cleaning.DateColumnIndex | src/data_processor.py:20-23 | the chosen column contains `date` and no earlier column does; none when no column does |
| Cleaning.WithDateColumn | src/data_processor.py:20-25 | fails exactly when there is no date column; keeps row and column counts |
| Cleaning.CoerceColumns | src/data_processor.py:30-34 | each listed numeric column is coerced cell by cell (unparsable becomes 0); the other cells are unchanged |
| Cleaning.CoerceNumericColumns | src/data_processor.py:30-34 | the loop over the listed columns, skipping those the frame lacks, ends in exactly the coerced frame; the same loop serves the ledger (lines 62-66) |
| Cleaning.CoerceNext | src/data_processor.py:32-34 | one pass of the loop, guard included: the listed column is coerced when present, else nothing changes |
| Cleaning.RenameSchema | src/data_processor.py:36-41 | `impression` becomes `impressions` and `attributed_revenue` becomes `revenue`; other names and all rows unchanged |
| Cleaning.DropMissingDates | src/data_processor.py:43-44 | keeps exactly the rows whose date cell parsed, in order |
| Cleaning.CleanMarketing | src/data_processor.py:13-46 | defines `clean_marketing_data`: normalise names, parse the first date column, coerce the listed counts, rename to the schema, drop undated rows, label the channel; its properties are the three `CleanMarketing…` rows below |
| Cleaning.CleanMarketingFails | src/data_processor.py:13-46 | cleaning an ad table fails exactly when no normalised column name contains `date` |
| Cleaning.CleanMarketingColumns | src/data_processor.py:13-46 | output columns: the normalised names, the date column renamed `date`, schema renames applied, `channel` appended only when absent |
| Cleaning.CleanMarketingRows | src/data_processor.py:24-44 | kept rows are exactly those with a parsed date, in order, no more than the input; every row carries the channel label |
| Cleaning.PrepareMarketingCell | src/data_processor.py:24-34 | each cell before `dropna`: the date is parsed, listed numeric columns are coerced, other cells are kept |
| Cleaning.PrepareBusinessCell | src/data_processor.py:53-66 | each business cell before `dropna`: the date is parsed, the six ledger columns are coerced, other cells are kept |
| Cleaning.CleanBusiness | src/data_processor.py:48-71 | defines `clean_business_data`: the same steps for the ledger's six columns, with no rename and no label |
| Cleaning.CleanBusinessRows | src/data_processor.py:48-71 | kept business rows are exactly those with a parsed date, in order |
| Combining.AddMissing | src/data_processor.py:84-88 | appends exactly the missing required columns, filled with 0; existing cells unchanged |
| Combining.CombineMarketing | src/data_processor.py:73-91 | defines `combine_marketing_data`: clean the three feeds, stopping at the first failure, stack them and add the missing count columns as 0 |
| Combining.CombineFails | src/data_processor.py:73-91 | combining fails exactly when one of the three ad tables has no date column |
| Combining.CombineValue | src/data_processor.py:76-88 | on success the result is the three cleaned tables stacked, with the required columns added |
| Combining.CombineRows | src/data_processor.py:81-82 | the stacked rows are Facebook's, then Google's, then TikTok's, each cell read from its own table |
| Combining.CombineRequired | src/data_processor.py:84-88 | every required column exists; it reads 0 when no source table had it |
| Combining.CombineLabels | src/data_processor.py:76-82 | every combined row has a parsed date and the label of the table it came from |
| Metrics.Ratio | src/data_processor.py:97-108 | a guarded quotient: `r * den == num` when `den > 0`, else 0 |
| Metrics.Derive | src/data_processor.py:93-110 | CTR, CPM, CPC and ROAS each times its denominator gives its numerator when positive, and 0 otherwise |
| Metrics.CtrNotClamped | src/data_processor.py:98-99 | CTR is not capped: 2 clicks on 1 impression give a CTR of 2 |
| Metrics.CreateDerivedMetrics | src/data_processor.py:93-110 | same rows in the same order; counts kept and ratios derived from them |
| Metrics.SumCountsFields | src/data_processor.py:114-118 | a summed group's spend, revenue, impressions and clicks are the sums of the member values |
| Metrics.MeanRatios | src/data_processor.py:119-122 | each aggregated ratio times the group size equals the sum of the members' ratios |
| Aggregation.GroupKeys | src/data_processor.py:114 | the (date, channel) groups are distinct, and are exactly the keys present |
| Aggregation.Dates | src/data_processor.py:126 | the date groups are distinct, and are exactly the dates present |
| Aggregation.AggregateDailyMarketing | src/data_processor.py:112-140 | the per-(date, channel) rows followed by the per-date `Total` rows, as the final `concat` stacks them |
| Aggregation.ChannelDailyKeys | src/data_processor.py:114-123 | the per-channel output has one row per (date, channel) group |
| Aggregation.ChannelDailyGroup | src/data_processor.py:114-123 | each per-channel row sums its group's counts and averages its group's ratios |
| Aggregation.TotalDailyDates | src/data_processor.py:126-135 | one `Total` row per date |
| Aggregation.TotalDailyCounts | src/data_processor.py:126-134 | each `Total` row sums the day's counts; its ROAS is recomputed from the sums, not averaged |
| Aggregation.TotalIsSumOfChannels | src/data_processor.py:112-140 | a day's `Total` counts equal the sum of that day's per-channel rows |
| Merging.RowLeTotalPreorder | src/data_processor.py:153 | the (date, channel) sort key, with the zero-filled channel before every name, is a total preorder |
| Merging.MergeMarketingBusiness | src/data_processor.py:147-153 | defines the merge: the outer join on the date, gaps filled with 0, sorted by (date, channel) |
| Merging.MergeSorted | src/data_processor.py:147-153 | the merged rows are a permutation of the outer join, sorted by (date, channel) |
| Merging.MergeCopiesBusiness | src/data_processor.py:147 | a marketing row joined with a ledger row of the same date is in the output |
| Merging.MergeMarketingOnly | src/data_processor.py:147-150 | a marketing row with no ledger row for its date appears with zero business figures |
| Merging.MergeBusinessOnly | src/data_processor.py:147-150 | a ledger row with no marketing row for its date appears with channel 0 and zero counts |
| Merging.MergeMember | src/data_processor.py:147-153 | every outer-join row is kept by the sort |
| Merging.MergeOrigin | src/data_processor.py:147-153 | each output row comes from a marketing row or, with channel 0, from an unmatched ledger row |
| DataProcessor.DateRange | src/data_processor.py:178 | none exactly for an empty table; otherwise dates present in the table that bound every row |
| DataProcessor.MergeSpec | src/data_processor.py:142-147 | merging fails exactly when the ledger has no date column |
| DataProcessor.ProcessOutcome | src/data_processor.py:158-189 | the pipeline fails exactly when one of the four tables has no date column; on success the date range bounds every row and the day count is at most the row count |
| DataProcessor.MarketPulseDataProcessor.constructor | src/data_processor.py:8-11 | both recorded tables start empty |
| DataProcessor.MarketPulseDataProcessor.CleanMarketingData | src/data_processor.py:13-46 | the loop over the numeric columns yields exactly the cleaned table (or the missing-date failure) |
| DataProcessor.MarketPulseDataProcessor.CleanBusinessData | src/data_processor.py:48-71 | the loop over the ledger columns yields exactly the cleaned ledger (or the failure) |
| DataProcessor.MarketPulseDataProcessor.CombineMarketingData | src/data_processor.py:73-91 | returns the combined table; on success records it in `marketingCombined`; nothing else changes |
| DataProcessor.MarketPulseDataProcessor.CombineFeeds | src/data_processor.py:73-91 | cleans the three feeds in turn, stopping at the first failure, then stacks them and adds the missing count columns: exactly the specified combination |
| DataProcessor.MarketPulseDataProcessor.AddRequiredColumns | src/data_processor.py:84-88 | the loop adds exactly the missing required columns |
| DataProcessor.MarketPulseDataProcessor.MergeMarketingBusiness | src/data_processor.py:142-156 | returns the merged table; on success records it in `finalDataset`; nothing else changes |
| DataProcessor.MarketPulseDataProcessor.ProcessAllData | src/data_processor.py:158-189 | the outcome is the specified pipeline result; on success both fields hold its tables; whenever the combination succeeds `marketingCombined` holds it, even if the merge then fails; otherwise it is unchanged; a failure leaves `finalDataset` as it was |
| Analytics.ChannelPerformance | src/analytics.py:11-48 | defines `calculate_channel_performance`: one summary per non-`Total` channel, summed counts, ratios from the sums, sorted by spend |
| Analytics.ChannelPerformanceSorted | src/analytics.py:11-48 | the summaries are a permutation of the per-channel summaries, ordered by spend, highest first |
| Analytics.ChannelsMember | src/analytics.py:14-16 | a channel is summarised exactly when some non-`Total` row carries it |
| Analytics.ChannelPerformanceChannels | src/analytics.py:14-21 | each channel appears once, and a channel appears exactly when some non-`Total` row has it |
| Analytics.ChannelPerformanceSums | src/analytics.py:16-46 | each summary holds its channel's summed counts, with ratios derived from those sums |
| Analytics.Rolling | src/analytics.py:56-58 | entry i is the mean of the last up to 7 values ending at i |
| Analytics.RollingNoLookahead | src/analytics.py:56-58 | a rolling mean depends only on the values up to its own position |
| Analytics.DailyTrends | src/analytics.py:50-60 | one trend row per `Total` row, in date order, with the rolling spend, ROAS and revenue means |
| Analytics.DailyTrendsRows | src/analytics.py:52-53 | the trend rows are a permutation of the `Total` rows, sorted by date |
| Analytics.DailyTrendsWindow | src/analytics.py:52-58 | each trend row is a `Total` row whose 7-day spend, ROAS and revenue are the means of their windows of up to 7 rows ending at it |
| Analytics.BusinessImpact | src/analytics.py:62-89 | sums over the `Total` rows; attribution rate, ROAS and daily averages are guarded quotients; the day count is the number of `Total` rows |
| Analytics.AttributionNotClamped | src/analytics.py:71 | the attribution rate is not capped at 100: 3 attributed on 1 of business revenue gives 300 |
| Analytics.BusinessImpactIgnoresChannelRows | src/analytics.py:64 | adding per-channel rows does not change the business impact |
| Analytics.TopPerformers | src/analytics.py:91-94 | defines `get_top_performers`: the channel table ordered by the metric, highest first, cut to n |
| Analytics.TopPerformersSorted | src/analytics.py:91-94 | min(n, channel count) summaries, drawn from the channel performance, ordered by the metric, highest first |
| Analytics.TopPerformersBeatRest | src/analytics.py:91-94 | every selected summary scores at least as high as every summary left out |
| Analytics.Weekdays | src/analytics.py:223-227 | the weekday groups are exactly the weekdays present among the `Total` rows, each once, in sorted string order |
| Analytics.ArgMax | src/analytics.py:234 | the first position holding the largest value |
| Analytics.ArgMin | src/analytics.py:235 | the first position holding the smallest value |
| Analytics.DowAgg | src/analytics.py:227-231 | a weekday's row holds the means of spend, revenue and ROAS over that weekday's `Total` rows |
| Analytics.DowTable | src/analytics.py:227-231 | one row per weekday present, in `groupby`'s sorted order, each holding its weekday's means |
| Analytics.PickedExtremes | src/analytics.py:234-235 | `idxmax`/`idxmin` over the ROAS column pick the first highest and the first lowest weekday row |
| Analytics.SeasonalPatterns | src/analytics.py:216-249 | defines `calculate_seasonal_patterns`: nothing under 30 `Total` rows, else the weekday table with the `idxmax` and `idxmin` rows |
| Analytics.SeasonalSpec | src/analytics.py:216-249 | no result exactly when there are fewer than 30 `Total` rows; otherwise one row per weekday present, in sorted order, each holding that weekday's mean spend, revenue and ROAS; best and worst are the first weekday with the highest and the first with the lowest mean ROAS (`idxmax`, `idxmin`) |
| Analytics.PerformanceGrade | src/analytics.py:201-214 | defines `_get_performance_grade`: A+ from 90, A from 80, B+ from 70, B from 60, C from 50, else D |
| Analytics.GradeMonotone | src/analytics.py:201-214 | a higher score never gets a lower grade |
| Analytics.GradeThresholds | src/analytics.py:201-214 | the score reaches its grade's threshold and stays below every higher grade's threshold |
| Insights.Median | src/analytics.py:129-130 | the median lies between values present in the column; it is the value itself for a single channel |
| Insights.TopRule | src/analytics.py:104-113 | at most one insight, of kind Top Performer; the engine's list starts with it whenever the engine completes (`Insights.InsightsAll`) |
| Insights.OptimizationList | src/analytics.py:115-126 | once the names are joined: at most one insight, of kind Optimization Opportunity |
| Insights.OptimizationRule | src/analytics.py:115-126 | `TypeError` from `', '.join` exactly when the zero-filled channel (integer 0) is among the channels with ROAS below 2; otherwise at most one Optimization Opportunity, naming exactly those channels and never channel 0 |
| Insights.ConversionRule | src/analytics.py:128-139 | at most one insight, of kind Conversion Optimization |
| Insights.AttributionRule | src/analytics.py:141-149 | at most one insight, of kind Attribution Gap |
| Insights.RiskRule | src/analytics.py:151-161 | at most one insight, of kind Portfolio Risk |
| Insights.InsightsOf | src/analytics.py:98-163 | defines the insight list: the Optimization check's `TypeError`, or the five rules in order, cut to five |
| Insights.GetPerformanceInsights | src/analytics.py:98-163 | the method's result is exactly the specified insight list for the data, or the same `TypeError` |
| Insights.CollectInsights | src/analytics.py:104-163 | the appends, in source order and cut to five, yield exactly the specified insight list; it stops with the `TypeError` exactly where the specification fails |
| Insights.AddTopPerformer | src/analytics.py:104-113 | appends the Top Performer insight exactly when there is a channel, for the first channel of the spend ordering |
| Insights.AddOptimization | src/analytics.py:115-126 | fails exactly when the zero-filled channel has ROAS below 2; otherwise appends one Optimization Opportunity naming every channel with ROAS below 2.0 and 15% of their spend, when there is one |
| Insights.AddConversion | src/analytics.py:128-139 | appends one Conversion Optimization for the first channel with CTR above and ROAS below the medians, when there is one |
| Insights.AddAttributionGap | src/analytics.py:141-149 | appends an Attribution Gap exactly when the attribution rate is below 15 |
| Insights.AddPortfolioRisk | src/analytics.py:151-161 | appends a Portfolio Risk for the top-spend channel exactly when its share of total spend exceeds 0.6 in IEEE division (a positive spend over a zero total counts, zero over zero does not) |
| Insights.InsightsAll | src/analytics.py:104-163 | fails exactly when the zero-filled channel has ROAS below 2; otherwise the cut to five never drops anything: the list is the five rules' outputs in order |
| Insights.InsightsOrder | src/analytics.py:104-163 | when the engine completes: at most five insights, each kind at most once, in source order |
| Insights.InsightsTop | src/analytics.py:104-113 | when the engine completes: a Top Performer exists exactly when there is a channel; it is first and reports the highest-spend channel with revenue increase spend × 0.2 × ROAS |
| Insights.HasKindAppend | src/analytics.py:100-163 | a kind occurs in a concatenation exactly when it occurs in one part |
| Insights.KindFromRule | src/analytics.py:104-163 | when the engine completes, each kind occurs exactly when its rule fires |
| Insights.OptimizationFires | src/analytics.py:115-118 | the engine fails exactly when some channel with ROAS below 2 is the zero-filled channel; otherwise an Optimization Opportunity exists exactly when some channel's ROAS is below 2 |
| Insights.ConversionFires | src/analytics.py:128-131 | when the engine completes, a Conversion Optimization exists exactly when some channel is above the CTR median and below the ROAS median |
| Insights.GapAndRiskFire | src/analytics.py:141-161 | when the engine completes, an Attribution Gap exists exactly when the rate is below 15; a Portfolio Risk exists exactly when the top-spend channel's share exceeds 60% (IEEE division) |
| Insights.OptimizationSavings | src/analytics.py:116-119 | when the engine completes, the insight names exactly the channels with ROAS below 2, never channel 0, and saves 15% of their spend |
| Insights.ConversionNeedsTwoChannels | src/analytics.py:128-131 | when the engine completes, a Conversion Optimization needs at least two channels |
| Insights.RaisesOnZeroFill | src/analytics.py:115-118 | when channel 0, if listed, has ROAS below 2, the engine fails exactly when channel 0 is listed |
| Insights.ZeroFillRaises | src/analytics.py:14-21 | on a final table where channel 0 has ROAS below 2, the insights fail exactly when some row carries channel 0 |
| Insights.ZeroFillNoCounts | src/data_processor.py:147-150 | in a merged table, channel 0 sums to zero impressions, clicks, spend and revenue |
| Insights.MergedInsightsFail | src/analytics.py:115-118 | on a merged table whose ledger has a `total_revenue` column, `get_performance_insights` raises exactly when some ledger date has no marketing rows (a row with channel 0, spend 0, ROAS 0) |
| Insights.EfficiencyOf | src/analytics.py:181-197 | the score is at most 100, and non-negative for non-negative ROAS and CTR; each ratio is its benchmark relation; the grade is the score's grade |
| Insights.EfficiencyBenchmarks | src/analytics.py:165-199 | one entry per channel in the channel performance, each that channel's efficiency (empty when there are no channels) |
| Insights.ScoreChannels | src/analytics.py:180-199 | the loop keys the results by exactly the given channels, each with its efficiency |
| Insights.NetGain | src/analytics.py:267-277 | gain minus loss factors as amount × ROAS difference; divided by a positive amount it is the difference |
| Insights.Reallocate | src/analytics.py:263-278 | moves 20% of the bottom channel's spend to the top channel; net gain and ROI improvement as the source computes them |
| Insights.BudgetOpportunities | src/analytics.py:251-288 | nothing exactly when there are fewer than two channels; otherwise a reallocation from a lowest-ROAS to a highest-ROAS channel, plus scale-up (ROAS > 3) and optimise (ROAS < 2) lists in channel order |
| Insights.PlanBudget | src/analytics.py:255-288 | the same result for a given channel performance, computed by the method |
| Insights.ReallocateExtremes | src/analytics.py:261-278 | reallocating from the lowest-ROAS to the highest-ROAS channel meets the reallocation's specification |
| Insights.NetGainNonNegative | src/analytics.py:267-270 | moving money from the worst to the best ROAS never projects a loss |
| Insights.OpportunityListsDisjoint | src/analytics.py:280-286 | no channel is both scaled up and marked for optimisation; membership in each list is exactly its ROAS condition |
| Insights.StatusMonotone | src/analytics.py:297-298 | a higher overall ROAS never gets a worse status |
| Insights.ExecutiveSummaryOf | src/analytics.py:290-313 | fails exactly when the insight engine it calls fails; otherwise status, top channel, recommendations and key insights as the source assembles them |
| Insights.HighInsights | src/analytics.py:301 | when the engine completes, the High-priority insights are exactly the Top Performer and Optimization Opportunity outputs |
| Insights.SummaryRecommendations | src/analytics.py:300-302 | when the summary completes: at most two recommendations, all High priority, taken from the insights in order |
| Insights.SummaryHeadline | src/analytics.py:294-312 | the summary fails exactly when the zero-filled channel has ROAS below 2; otherwise the key insights are the first three; no top channel exactly when there are no channels; Excellent exactly above 4, Good exactly in (2.5, 4] |
| Loader.Classify | src/data_loader.py:25-35 | defines the file test: a lower-cased `.csv` name goes to the first key whose token it contains |
| Loader.ClassifySpec | src/data_loader.py:25-35 | a file feeds key k exactly when its lower-cased name ends in `.csv`, contains k's token, and contains no earlier key's token |
| Loader.Load | src/data_loader.py:11-40 | defines `load_csv_files`: folder-not-found when the folder is absent, else the scan of the listing |
| Loader.ScanStops | src/data_loader.py:23-38 | after a read error, later files change nothing |
| Loader.LastFor | src/data_loader.py:24-35 | the chosen file is listed and classified for the key |
| Loader.ScanLastWins | src/data_loader.py:24-35 | with no error, each key holds the table read from the last listed file for it, or nothing |
| Loader.ScanFailure | src/data_loader.py:23-38 | an error names the first unreadable classified file, and keeps the tables loaded before it |
| Loader.CsvNameInjective | src/data_loader.py:49 | distinct keys give distinct `<key>.csv` names |
| Loader.LoadedMissing | src/data_loader.py:42-49 | after a clean scan, a key is reported missing exactly when no listed file feeds it |
| Loader.NoneMissing | src/data_loader.py:47-54 | the missing list is empty exactly when every key holds a table |
| Loader.DataLoader.constructor | src/data_loader.py:8-9 | the folder is the one given |
| Loader.DataLoader.LoadCsvFiles | src/data_loader.py:11-40 | the loop over the listing returns exactly the specified load: folder-not-found, the first read error with the tables so far, or the tables |
| Loader.DataLoader.ValidateDataFiles | src/data_loader.py:42-54 | the loop lists exactly the missing `<key>.csv` names in key order; ok exactly when nothing is missing |
| Helpers.FormatCurrency | utils/helpers.py:9-13 | "$0" exactly for NaN or 0; otherwise the value is rendered |
| Helpers.FormatPercentage | utils/helpers.py:16-20 | "0.0%" exactly for NaN; otherwise the value is rendered |
| Helpers.GetDateRangeOptions | utils/helpers.py:32-45 | defines `get_date_range_options`: nothing without a `date` column, else the earliest and latest parsed day as bounds and defaults |
| Helpers.DaysInMember | utils/helpers.py:37-38 | the days considered are exactly the parsed date cells |
| Helpers.DateRangeShape | utils/helpers.py:32-45 | nothing exactly without a `date` column; the defaults equal the bounds; no bounds exactly when no date cell holds a day |
| Helpers.DateRangeBounds | utils/helpers.py:37-45 | the bounds are dates present in the table, and every dated row lies between them |
| Helpers.FilterDataByDate | utils/helpers.py:48-56 | defines `filter_data_by_date`: the table unchanged without a `date` column, else the rows whose day lies in [start, end] |
| Helpers.FilterDataByDateSpec | utils/helpers.py:48-56 | columns kept; rows are a subsequence; unchanged without a `date` column; otherwise a row is kept exactly when its date lies in [start, end], each with its full multiplicity |
| Helpers.FilterEmptyRange | utils/helpers.py:53-56 | an inverted range keeps no row |
| Helpers.ValidateDataCompleteness | utils/helpers.py:59-69 | the loop lists exactly the required columns that are absent, in order; ok exactly when all are present |
| Frames.MissingColumnsSpec | utils/helpers.py:61-64 | a column is listed exactly when it is required and absent; the list is empty exactly when all are present |
| Sorting.SortSpec | src/analytics.py:48 | the sort used for `sort_values` returns a sorted permutation of its input |
| Sorting.PrefixBeforeRest | src/analytics.py:94 | in a sorted sequence, every element of a prefix precedes every element left out of it |

## Left out

- File and network I/O. `os.path.exists`, `os.listdir` and `pd.read_csv` become the `Disk` parameter. Exceptions other than a failed read are not modelled.
- Text parsing. `pd.to_numeric` and `pd.to_datetime` become the `Parsers` parameter. A date is a day number; times of day are dropped.
- Weekday names. `dt.day_name()` becomes the `dayName` parameter. The `week_number` column is computed but never used, so it is left out.
- Floating point. Money and ratios are reals. IEEE behaviour is modelled only where it changes a branch: the Portfolio Risk share when total spend is zero (`Insights.Concentrated`).
- NaN. After the outer join and `fillna(0)`, every gap reads as 0. A column that exists in only some ad tables is also read as 0 in the rows that lack it; pandas would hold NaN there until the later `fillna`.
- Analytics.BusinessImpact: a business ledger with a `date` column but no `total_revenue` column is cleaned and merged as in the source, and `Combining.BizRowAt` then reads every total revenue as 0. pandas raises `KeyError` at src/analytics.py:68 instead, and so do `get_performance_insights` and `generate_executive_summary`, which call `calculate_business_impact` first. The model reports total business revenue 0, attribution rate 0 and an Attribution Gap. Every statement about the business impact, the insights and the summary is therefore faithful only for a ledger that has that column.
- Combining.AdRowAt: a `Null` or `Text` cell in a count column that the cleaning loop does not coerce reads as 0. This happens for a feed whose column is already named `revenue`, which is not in the coerced list (`attributed_revenue` is). pandas would hold NaN there, which propagates into sums and ratios, or keep the text, which fails in later arithmetic; the model captures neither.
- Insights: the `TypeError` that `', '.join` raises on the integer channel 0 is modelled as the `NonTextChannelName` error; the Streamlit page that would show the traceback is not part of this model.
- Duplicate column names. Column lookup takes the first match. Lower-casing covers ASCII letters only.
- Group order. `groupby` emits groups in first-appearance order here, where pandas sorts them. The merge re-sorts by (date, channel), so the final table is unaffected. The per-channel summaries are re-sorted by spend.
- Order among equal keys. Sorts are specified as sorted permutations, and the model's insertion sort may order tied rows differently from pandas. `sort_values(['date', 'channel'])` (a stable lexsort) and `nlargest` with `keep='first'` are deterministic on ties, but which tied row comes first is simply not claimed: not for the merged table, the spend ordering of the channel table, the daily trends or the top performers.
- Analytics.TopPerformers: the Python defaults (ROAS, n = 3) are not modelled; the metric and n are always passed explicitly.
- Insights.Median: states only that the median lies between values present in the column, not the exact mean of the two middle values for an even count.
- Text of the insights, recommendations and messages. Each insight keeps only the figures it reports. The loader's and validators' message strings become an error value and a list of names.
- `Helpers.format_number` and the rendered digits of `format_currency`/`format_percentage`. Only the NaN and zero cases are modelled.
- `Helpers.show_data_info`, `app.py`, `pages/` and `components/`. These are Streamlit display code.
- The `processed_data` field of `MarketPulseDataProcessor`. It is initialised and never used.
- The date range of `process_all_data` on an empty final table. Pandas prints `NaT`; the model returns no range.
- A date column that holds non-day cells in `get_date_range_options` and `filter_data_by_date`. Such cells are treated as `NaT`: ignored by min/max and never inside a range.
- Metrics.CtrNotClamped and Analytics.AttributionNotClamped: single concrete examples of the unclamped ratios. They are not general statements.
