# blocktime-calculator in Dafny

A model of blocktime-calculator. This tool estimates the block time of a Cosmos SDK chain: it reads a range of
blocks from a node and builds block-time statistics from them. The statistics are the minimum and maximum, the mean, a
variance, percentiles and an estimated range. The estimated range is
used to predict when a future height will be produced. The model covers these parts:

- **The calculator** (`Calculator`, `Outliers`, `Statistics`, `Percentiles`,
  `Ordering`):
  - config normalisation;
  - range checks;
  - the block-time series, which keeps strictly positive gaps only;
  - outlier removal by MAD with IQR fallback and trimming;
  - the summary statistics and the confidence-adjusted range;
  - the latest-blocks window;
  - per-proposer analysis.
- **The predictor** (`Predictor`): single-target prediction and the
  next-N-blocks schedule.
- **The client** (`Client`): the constructor's defaults, the range guard, the collection of fetched
  blocks, the exchange sort by height and the conversion to `BlockInfo`
  with per-block gaps.
- **The configuration** (`Config`): defaults and validation order.
- **The command line** (`Cli`):
  - `formatDuration`;
  - `Sscanf("%d")` of the predict argument;
  - how `calculate`, `analyze` and `predict` decide what to compute.

Modelling choices:

- `float64` is `real`, and an instant is a real number of seconds.
- A `time.Duration` in the configuration and the command line is an `int` of nanoseconds.
- The chain is a `Calculator.Chain` value holding the answers the node would give: the head height, the block at a height, and a range of blocks.
- Errors are structured `Errors.Error` values. Each `fmt.Errorf("...: %w")` wrap is a `Wrapped(context, cause)`.

## Model

| member | source | states |
|---|---|---|
| Calculator.DefaultConfig | internal/calculator/calculator.go:52-61 | the default calculator settings lie in every normalised range |
| Calculator.NewBlockTimeCalculator | internal/calculator/calculator.go:20-49 | nil gives the defaults; each out-of-range setting is replaced by its own default and every other setting is kept; the result is always normalised, and a normalised config comes back unchanged |
| Calculator.NewBlockTimeCalculatorIdempotent | internal/calculator/calculator.go:25-43 | normalising an already normalised configuration changes nothing |
| Calculator.Gaps | internal/calculator/calculator.go:100-101 | one gap per consecutive pair, equal to the later time minus the earlier |
| Calculator.DeltasArePositiveGaps | internal/calculator/calculator.go:99-105 | the series is exactly the gaps with the non-positive ones removed, in order; kept plus dropped gaps number len(blocks)−1 |
| Calculator.DeltasPositive | internal/calculator/calculator.go:102-104 | every value of the block-time series is strictly positive |
| Calculator.StatsFromBlocks | internal/calculator/calculator.go:99-129 | fewer valid block times than the minimum is an error carrying both counts; otherwise the summary carries the series length, the heights, the first and last block times and the configured confidence; its descriptive fields are the statistics of the cleaned series, its outlier count is the number removed (so kept plus removed equals the sample size), its range is computed from the cleaned series, its extremes are block times of the list, its values are ordered and its range is sound |
| Calculator.SummaryDescribes | internal/calculator/calculator.go:111-127 | the filled-in summary is the statistics of the cleaned series with its outlier count and the range computed from it |
| Calculator.CalculateStatsForRange | internal/calculator/calculator.go:81-130 | start > end and a too-short range are rejected before any request; a fetch error is wrapped; a successful summary has at least minSampleSize values, the requested heights, ordered percentiles, and a range between 0 and P95 that is anchored at the median |
| Calculator.RangeChecksPrecedeFetch | internal/calculator/calculator.go:83-90 | the two range errors do not depend on the chain at all |
| Calculator.EmptyBlockListRejected | internal/calculator/calculator.go:99-109 | corrected behaviour: an empty block list for a valid range is the insufficient-block-times error with count 0 |
| Calculator.StatsFromBlocksAsWritten | internal/calculator/calculator.go:99 | the series buffer as allocated panics exactly when the block list is empty, and agrees with the corrected pipeline otherwise |
| Calculator.CalculateStatsForRangeAsWritten | internal/calculator/calculator.go:81-130 | the pipeline as written equals the corrected one on every input except a valid range whose fetch returns no blocks, where it panics |
| Calculator.EmptyRangePanicsAsWritten | internal/calculator/calculator.go:93-99 | a valid 100-block range whose fetch yields no blocks panics as written, where the corrected pipeline reports 0 < 30 valid block times |
| Calculator.WindowStart | internal/calculator/calculator.go:72-75 | the window starts at height 1 or later and ends at the head; it holds min(sampleSize, head) blocks |
| Calculator.CalculateStats | internal/calculator/calculator.go:64-78 | a head error is wrapped; otherwise the result is the range statistics of the window ending at the head, which is never an invalid range for head ≥ 1 |
| Calculator.GroupByProposer | internal/calculator/calculator.go:314-322 | the proposers present are exactly those with a positive block time after the first block, each mapped to its times in block order |
| Calculator.AnalyzeProposerPatterns | internal/calculator/calculator.go:313-337 | a proposer is reported exactly when it has at least five positive block times; its sample size is that count, and its outliers never exceed it |
| Percentiles.RankBounds | internal/calculator/calculator.go:299-301 | floor and ceiling of p·(n−1) are valid indices at most one apart |
| Percentiles.PercentileInterpolates | internal/calculator/calculator.go:299-309 | the percentile lies between the two neighbouring order statistics and equals the lower one when the rank is whole |
| Percentiles.PercentileWithinRange | internal/calculator/calculator.go:287-297 | the percentile lies between the least and greatest value; p ≤ 0 gives the least and p ≥ 1 the greatest |
| Percentiles.PercentileMedian | internal/calculator/calculator.go:299-309 | the 0.5 percentile is the middle value, or the mean of the two middle values |
| Percentiles.PercentileMonotone | internal/calculator/calculator.go:287-310 | a higher p never gives a lower percentile |
| Ordering.Sort | internal/calculator/calculator.go:139-141 | an ascending rearrangement of the input |
| Ordering.Filter | internal/calculator/calculator.go:203-209 | keeps exactly the values that pass, each with its full multiplicity |
| Ordering.CountRejected | internal/calculator/calculator.go:206-208 | kept and rejected values together make up the input |
| Ordering.FilterConcat | internal/calculator/calculator.go:165-172 | filtering distributes over concatenation, so order is kept |
| Ordering.FilterSorted | internal/calculator/calculator.go:203-209 | filtering an ascending series keeps it ascending |
| Ordering.SumOfPermutation | internal/calculator/calculator.go:235-246 | a sum over the values does not depend on their order |
| Outliers.RemoveOutliersIQR | internal/calculator/calculator.go:192-212 | keeps exactly the values within [Q1 − k·IQR, Q3 + k·IQR] and counts every other one as an outlier; ascending input gives ascending output |
| Outliers.MadFilter | internal/calculator/calculator.go:165-172 | keeps each value whose modified z-score 0.6745·(v − median)/MAD is at most 3.5 in absolute value, with its full multiplicity, and counts every other one as an outlier |
| Outliers.TrimCountBound | internal/calculator/calculator.go:179-183 | with t < 0.5, trimming k from both ends leaves at least one value |
| Outliers.Trim | internal/calculator/calculator.go:178-186 | when more than ten values and t > 0 give k ≥ 1, the k smallest and k largest are removed, the rest stays sorted and 2k outliers are added; otherwise nothing changes |
| Outliers.RemoveOutliers | internal/calculator/calculator.go:133-189 | at most three values pass through untouched; kept values plus outliers always equal the input count, and kept values are drawn from the input |
| Outliers.IqrPath | internal/calculator/calculator.go:160-163 | without the MAD test, or with a zero MAD, cleaning is the IQR fence over the sorted series and its result is ascending |
| Outliers.MadPath | internal/calculator/calculator.go:146-186 | with a non-zero MAD, cleaning is the z-score filter over the series in input order, then trimming |
| Outliers.ConstantSeriesKept | internal/calculator/calculator.go:133-212 | a series of identical block times loses nothing |
| Statistics.CalculateStatistics | internal/calculator/calculator.go:215-250 | an empty series gives the zero record; otherwise min ≤ P25 ≤ median ≤ P75 ≤ P95 ≤ P99 ≤ max, min ≤ mean ≤ max, variance ≥ 0, and min and max are values that bound every value |
| Statistics.StatisticsMedian | internal/calculator/calculator.go:220-227 | the summary's median is the textbook median of the series: the middle sorted value, or the mean of the two middle values |
| Statistics.StatisticsOrderIndependent | internal/calculator/calculator.go:215-250 | the summary depends only on the multiset of values |
| Statistics.AdjustedInterval | internal/calculator/calculator.go:259-277 | at full confidence the interval is [max(P25 − IQR/2, Min), min(P75 + IQR/2, P95)]; below it the interval keeps its centre, its width is scaled by confidence/0.95, and it stays inside the base interval |
| Statistics.CalculateRange | internal/calculator/calculator.go:253-284 | no values give the zero range; otherwise typical is the median, lower is clamped at 0, and upper is the adjusted upper bound |
| Statistics.RangeOrdered | internal/calculator/calculator.go:259-283 | at confidence ≥ 0.95 on non-negative data, lower ≤ typical ≤ upper ≤ P95 |
| Statistics.NarrowedRangeOrdered | internal/calculator/calculator.go:269-283 | below 0.95 on non-negative data, 0 ≤ lower ≤ upper ≤ P95 |
| Predictor.Forecast | internal/calculator/predictor.go:56-103 | each duration is the blocks left times the matching end of the range; the instants are now plus those durations; now ≤ optimistic ≤ pessimistic, and at full confidence the estimate lies between them |
| Predictor.PredictBlockTime | internal/calculator/predictor.go:27-104 | each failing query gives its own wrapped error, and when the queries a branch needs all succeed a prediction is returned; the prediction is complete exactly when the target is at or below the head, and then it carries the block's actual time; otherwise it carries the window statistics, at least one block left, and the projections |
| Predictor.Milestones | internal/calculator/predictor.go:133-149 | the i-th milestone is height head+i+1, i+1 blocks away, (i+1)·typical seconds from now; consecutive milestones are one typical block time apart |
| Predictor.PredictNextBlocks | internal/calculator/predictor.go:107-158 | a non-positive count is rejected before any request; each failing query gives its own wrapped error; when the count is positive and all three queries succeed the schedule is returned, with exactly count milestones projected from now |
| Client.NewCosmosSDKClient | internal/client/client.go:28-55 | an empty endpoint is rejected and only that; zero timeout, retries or delay get 30 s, 3 and 1 s, and every other setting is kept |
| Client.NewCosmosSDKClientIdempotent | internal/client/client.go:33-43 | applying the defaults twice changes nothing |
| Client.Collect | internal/client/client.go:101-149 | succeeds exactly when no height fails, and otherwise reports a failing height's wrapped error; the result holds only blocks fetched from the range |
| Client.CollectCounts | internal/client/client.go:113-124 | a collected range holds each block exactly as many times as heights returned it, so at most one block per height, and nil results contribute nothing |
| Client.NilBlocksCollectNothing | internal/client/client.go:122-124 | when every height comes back nil, the collection is empty and not an error |
| Client.SortByHeight | internal/client/client.go:151-158 | the nested exchange loop yields the same blocks in ascending height order |
| Client.ToBlockInfos | internal/client/client.go:160-176 | one BlockInfo per block with its fields copied; block time 0 for the first block, and for each later one the gap to the previous block |
| Client.BlockTimesTelescope | internal/client/client.go:170-173 | the block times of a converted list add up to the time from its first block to its last |
| Client.DeltasMatchBlockTimes | internal/client/client.go:170-173 | the calculator's recomputed series equals the client's positive block times after the first block |
| Client.GetBlockRange | internal/client/client.go:88-179 | start > end is rejected before any request; the call succeeds exactly when the range is valid and no height fails; the result holds the collected blocks in ascending height order with their gaps as block times |
| Client.AllNilRange | internal/client/client.go:88-179 | a valid range in which every block result is nil is returned as an empty list without an error |
| Config.ValidateConfig | internal/config/config.go:144-187 | no error exactly when no rule is broken; an error names a broken rule, and no rule checked earlier is broken |
| Config.DefaultConfig | internal/config/config.go:27-52 | the default configuration passes validation and carries the calculator's defaults, a 30 s timeout and a 1 s retry delay |
| Config.ValidatedIsNormalized | internal/config/config.go:157-174 | a validated configuration is one the calculator constructor keeps unchanged, and its window holds at least the minimum sample |
| Cli.NatToString | cmd/main.go:548-559 | `%d` of a natural number spells its value in decimal with no leading zero |
| Cli.ScanInt | cmd/main.go:270 | a scanned value is in the int64 range and the text has a digit; blank-only text is an error |
| Cli.ScanIntRoundTrip | cmd/main.go:270 | scanning what `%d` printed returns the number, whatever non-digit text follows |
| Cli.RoundToSeconds | cmd/main.go:543-545 | `%.0f` of the seconds is the nearest whole second, with ties to even |
| Cli.DescribeDuration | cmd/main.go:542-560 | rounded seconds under a minute; truncated minutes and seconds under an hour; truncated hours and minutes beyond. Each figure bounds the duration, and zero parts are dropped |
| Cli.FormatDuration | cmd/main.go:542-560 | the text leads with the duration in its largest unit, which scans back as that figure: rounded seconds under a minute ("N seconds", "-0 seconds" for a negative duration that rounds to zero), whole minutes under an hour ("Nm Ss" with the whole seconds left over, or "N minutes" when none are), whole hours beyond ("Hh Mm" with the whole minutes left over, or "H hours" when none are) |
| Cli.SelectPredictMode | cmd/main.go:265-311 | an unscannable argument is an error, and nothing else is; a positive --next wins; then a positive target from the argument or --height; otherwise, and exactly then, the next ten blocks |
| Cli.CommandCalculator | cmd/main.go:143 | a validated configuration reaches the calculator unchanged and normalised |
| Cli.RunCalculate | cmd/main.go:123-181 | an empty endpoint is rejected; both heights positive give exactly the calculator's result for that range, success or error; otherwise exactly its result for the window ending at the head, which holds min(sampleSize, head) blocks; every result is ordered with a sound range |
| Cli.RunAnalyze | cmd/main.go:183-232 | an empty endpoint is rejected; a head error is wrapped; a head below 1 is an invalid range; otherwise a range error is wrapped and a fetched window gives exactly the calculator's proposer analysis of its blocks; on success the window ends at the head and holds min(size, head) blocks, and the proposers reported are those with at least five positive block times in it |
| Cli.AnalyzeWindowSize | cmd/main.go:215 | the window size read from the "sample-size" key is positive, and equals the validated calculator sample size whenever something set the key |
| Cli.RunPredict | cmd/main.go:234-312 | an unscannable argument gives the invalid-target error; the predictor's count check never fires; a failed head query is reported wrapped; a target mode reports exactly the predictor's result for that height; the next-blocks mode reports the stats and current-block errors wrapped and otherwise the schedule of the selected count from the head at the typical block time; when the queries the selected mode needs succeed the command succeeds |

## Left out

- The sqrt of the standard deviation is left out. `BlockTimeStats` holds the population variance as `variance`, and `StdDev` is its square root.
- IEEE-754 rounding is not modelled. Arithmetic is exact over the reals. This includes the float-to-Duration truncation in the predictor, so predicted durations and instants are real seconds.
- int64 overflow of heights and durations is not modelled. It appears in `latest − sampleSize + 1`, in `n·typical` and in `time.Duration`. Only the scanner's range check on `%d` input is modelled.
- Concurrency is not modelled: the goroutine fan-out in `GetBlockRange`, the semaphore, the context cancellation and `Close`. `Client.Collect` reads the heights in order and reports the lowest failing height. The source reports whichever failure wins the race.
- The node RPC calls (`Status`, `Block`) are not modelled, and neither is `rpchttp.New`, which can fail. Each command sees a single `Calculator.Chain` snapshot, so the head does not move between the predictor's query and the calculator's.
- `time.Now()` is the parameter `now`.
- Reading configuration through viper, cobra, files and the environment is not modelled, and neither are `BuildConfig`'s overrides and the output renderers. The commands receive a configuration that has passed `Config.ValidateConfig`, plus their flags as parameters.
- The messages of errors are not modelled, only their kind and wrapping. The prefixes the commands add on top ("failed to calculate statistics", "failed to predict …") are not modelled either: a command passes the inner error through.
- Calculator.NewBlockTimeCalculator: the model returns the normalised configuration. It does not also write the changes back into the caller's struct, as the source does by mutating its argument.
- Client.NewCosmosSDKClient: the same holds here. A configuration that validates with `MaxRetries = 0` or `RetryDelay = 0` still has those settings replaced by 3 and 1 s.
- Calculator.AnalyzeProposerPatterns: Go's map iteration order is not observable in the result, so it is not modelled.
- Cli.ScanInt: only ASCII blanks are skipped. The source's scanner also skips Unicode spaces. Inputs of the form "0x…" or with underscores are read as the digits before the first non-digit.
- The `config` subcommand and `LoadFromFile`/`SaveToFile` are not modelled: they are I/O.
- `pkg/types/types.go` is not part of this model beyond its record shapes.
- Cli.RunAnalyze: the "sample-size" value is modelled as either the validated calculator sample size (when a flag, the config file or the environment set the key; `BuildConfig` copies it there, and validation rejects a value ≤ 0 before the window is computed) or the default of the flag bound to the key last. viper's binding rules are library behaviour, so they are not visible in the source; this reading of them is an assumption.

## Findings

| source | as written | input that shows it | evidently intended | confidence | as-written member | corrected member |
|---|---|---|---|---|---|---|
| internal/calculator/calculator.go:99 | `make([]float64, 0, len(blocks)-1)` gets capacity −1 when the client returns no blocks for a valid range, which panics | default calculator config, range 1..100, `GetBlockRange` returns an empty list (every `Block` result nil) | the insufficient-valid-block-times error with count 0 | not executed | Calculator.EmptyRangePanicsAsWritten | Calculator.EmptyBlockListRejected |

The rest of the model uses the corrected `Calculator.CalculateStatsForRange`.
`Calculator.StatsFromBlocksAsWritten` and
`Calculator.CalculateStatsForRangeAsWritten` keep the code as written.
`Client.AllNilRange` derives the input inside the model: when every block
result of a valid range is nil, `GetBlockRange` returns an empty list and no
error.

## Code and design notes

- The client's sort is a quadratic exchange sort, not a library sort. `Client.SortByHeight` models it loop for loop.
- `ValidateConfig` accepts `MaxRetries = 0` and `RetryDelay = 0`, but the client constructor then replaces both with defaults.
- The statistics count as sample size the number of positive block times before outlier removal, not the number of heights in the range.
- `calculate`, `analyze` and `predict` each declare a `--sample-size` flag (defaults 100, 500 and 100), and all three are bound to the one "sample-size" key, with predict's bound last. `runAnalyze` reads that key rather than its own flag, so when nothing sets the key its window is predict's default of 100 blocks, not 500 (`Cli.UnsetSampleSize`).
