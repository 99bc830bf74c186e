/** The block-time calculator (internal/calculator/calculator.go): config
    normalisation, the delta/validation pipeline over a fetched range, the
    latest-blocks window and per-proposer analysis. The chain client is an
    oracle: a snapshot of the answers it would give. */
module Calculator {
  import opened Errors
  import opened Types
  import opened Ordering
  import opened Outliers
  import opened Statistics

  /** The answers of a `BlockchainClient`: the head height, the block at a
      height, and the blocks of a height range. */
  datatype Chain = Chain(
    latestHeight: Result<int>,
    blockAt: int -> Result<BlockInfo>,
    blockRange: (int, int) -> Result<seq<BlockInfo>>)

  /** Minimum number of block times a proposer needs to be analysed. */
  const MinProposerBlocks: int := 5

  function DefaultConfig(): (c: CalculatorConfig)
    ensures Normalized(c)
  {
    CalculatorConfig(
      sampleSize := 100,
      outlierThreshold := 1.5,
      confidenceLevel := 0.95,
      minSampleSize := 30,
      trimPercent := 0.05,
      useMedianAbsolute := true)
  }

  /** The ranges every calculator's configuration lies in. */
  predicate Normalized(c: CalculatorConfig) {
    && c.sampleSize > 0
    && c.minSampleSize > 0
    && c.outlierThreshold > 0.0
    && 0.0 < c.confidenceLevel < 1.0
    && 0.0 <= c.trimPercent < 0.5
  }

  /** The configuration a new calculator runs with: the defaults for a nil
      config, otherwise each out-of-range setting replaced by its default
      and every other setting kept. */
  function NewBlockTimeCalculator(config: Option<CalculatorConfig>): (c: CalculatorConfig)
    ensures Normalized(c)
    ensures config.None? ==> c == DefaultConfig()
    ensures config.Some? ==>
      var given := config.value;
      && c.sampleSize == (if given.sampleSize > 0 then given.sampleSize else 100)
      && c.minSampleSize == (if given.minSampleSize > 0 then given.minSampleSize else 30)
      && c.outlierThreshold == (if given.outlierThreshold > 0.0 then given.outlierThreshold else 1.5)
      && c.confidenceLevel == (if 0.0 < given.confidenceLevel < 1.0 then given.confidenceLevel else 0.95)
      && c.trimPercent == (if 0.0 <= given.trimPercent < 0.5 then given.trimPercent else 0.05)
      && c.useMedianAbsolute == given.useMedianAbsolute
    ensures config.Some? && Normalized(config.value) ==> c == config.value
  {
    match config
    case None => DefaultConfig()
    case Some(given) =>
      var c := given;
      var c := if c.sampleSize <= 0 then c.(sampleSize := 100) else c;
      var c := if c.minSampleSize <= 0 then c.(minSampleSize := 30) else c;
      var c := if c.outlierThreshold <= 0.0 then c.(outlierThreshold := 1.5) else c;
      var c := if c.confidenceLevel <= 0.0 || c.confidenceLevel >= 1.0 then c.(confidenceLevel := 0.95) else c;
      var c := if c.trimPercent < 0.0 || c.trimPercent >= 0.5 then c.(trimPercent := 0.05) else c;
      c
  }

  /** Normalising twice changes nothing. */
  lemma NewBlockTimeCalculatorIdempotent(config: Option<CalculatorConfig>)
    ensures NewBlockTimeCalculator(Some(NewBlockTimeCalculator(config))) == NewBlockTimeCalculator(config)
  {
  }

  // ---------------------------------------------------------------------
  // Block times of a fetched range

  /** Every gap time[i+1] − time[i] between consecutive blocks, in seconds. */
  function Gaps(blocks: seq<BlockInfo>): (g: seq<real>)
    ensures |g| == (if |blocks| > 0 then |blocks| - 1 else 0)
    ensures forall i :: 0 <= i < |g| ==> g[i] == blocks[i + 1].time - blocks[i].time
  {
    if |blocks| <= 1 then []
    else
      var prefix := blocks[..|blocks| - 1];
      Gaps(prefix) + [blocks[|blocks| - 1].time - blocks[|blocks| - 2].time]
  }

  function Positive(x: real): bool { x > 0.0 }

  /** The block-time series: consecutive gaps, strictly positive ones only. */
  function Deltas(blocks: seq<BlockInfo>): seq<real> {
    if |blocks| <= 1 then []
    else
      var gap := blocks[|blocks| - 1].time - blocks[|blocks| - 2].time;
      Deltas(blocks[..|blocks| - 1]) + (if gap > 0.0 then [gap] else [])
  }

  /** The series is the gaps with the non-positive ones dropped silently:
      it keeps their order, and the dropped ones make up the difference. */
  lemma {:induction false} DeltasArePositiveGaps(blocks: seq<BlockInfo>)
    ensures Deltas(blocks) == Filter(Gaps(blocks), Positive)
    ensures |blocks| > 0 ==> |Deltas(blocks)| + CountRejected(Gaps(blocks), Positive) == |blocks| - 1
  {
    if |blocks| > 1 {
      var prefix := blocks[..|blocks| - 1];
      DeltasArePositiveGaps(prefix);
      var gap := blocks[|blocks| - 1].time - blocks[|blocks| - 2].time;
      FilterConcat(Gaps(prefix), [gap], Positive);
      assert Filter([gap], Positive) == (if gap > 0.0 then [gap] else []) by {
        assert [gap][1..] == [];
      }
    }
    assert |Filter(Gaps(blocks), Positive)| + CountRejected(Gaps(blocks), Positive) == |Gaps(blocks)|;
  }

  /** Every value of the series is strictly positive. */
  lemma DeltasPositive(blocks: seq<BlockInfo>)
    ensures forall i :: 0 <= i < |Deltas(blocks)| ==> Deltas(blocks)[i] > 0.0
  {
    DeltasArePositiveGaps(blocks);
    forall i | 0 <= i < |Deltas(blocks)| ensures Deltas(blocks)[i] > 0.0 {
      assert Deltas(blocks)[i] in Filter(Gaps(blocks), Positive);
    }
  }

  /** The order facts of a summary of non-negative block times. */
  predicate Ordered(s: BlockTimeStats) {
    && 0.0 <= s.min <= s.p25 <= s.median <= s.p75 <= s.p95 <= s.p99 <= s.max
    && s.min <= s.mean <= s.max
  }

  /** The estimated range is anchored at the median, starts at or above
      zero, ends at or below P95, and at full confidence brackets the
      median. */
  predicate RangeSound(s: BlockTimeStats, confidence: real) {
    && s.estimatedRange.typical == s.median
    && 0.0 <= s.estimatedRange.lower <= s.estimatedRange.upper <= s.p95
    && (confidence >= FullConfidence ==>
          s.estimatedRange.lower <= s.estimatedRange.typical <= s.estimatedRange.upper)
  }

  /** Whether `s` carries the descriptive statistics of `d`. */
  predicate DescribedBy(s: BlockTimeStats, d: BlockTimeStats) {
    && s.min == d.min && s.max == d.max && s.mean == d.mean && s.variance == d.variance
    && s.median == d.median && s.p25 == d.p25 && s.p75 == d.p75 && s.p95 == d.p95 && s.p99 == d.p99
  }

  /** The summary of one cleaned series, before the range is attached. */
  function Summary(cfg: CalculatorConfig, startHeight: int, endHeight: int, blocks: seq<BlockInfo>, times: seq<real>): BlockTimeStats
    requires Normalized(cfg) && |blocks| > 0
  {
    var cleaned := RemoveOutliers(cfg, times);
    CalculateStatistics(cleaned.values).(
      sampleSize := |times|,
      startHeight := startHeight,
      endHeight := endHeight,
      startTime := blocks[0].time,
      endTime := blocks[|blocks| - 1].time,
      outlierCount := cleaned.outliers,
      confidenceLevel := cfg.confidenceLevel)
  }

  /** The statistics of a fetched, height-ordered block list. */
  function StatsFromBlocks(cfg: CalculatorConfig, startHeight: int, endHeight: int, blocks: seq<BlockInfo>): (r: Result<BlockTimeStats>)
    requires Normalized(cfg)
    ensures |Deltas(blocks)| < cfg.minSampleSize ==>
      r == Err(InsufficientValidBlockTimes(|Deltas(blocks)|, cfg.minSampleSize))
    ensures |Deltas(blocks)| >= cfg.minSampleSize ==>
      && r.Ok? && |blocks| >= 2
      && r.value.sampleSize == |Deltas(blocks)|
      && r.value.startHeight == startHeight && r.value.endHeight == endHeight
      && r.value.startTime == blocks[0].time && r.value.endTime == blocks[|blocks| - 1].time
      && 0 <= r.value.outlierCount <= r.value.sampleSize
      && r.value.confidenceLevel == cfg.confidenceLevel
      && Ordered(r.value)
      && RangeSound(r.value, cfg.confidenceLevel)
    ensures r.Ok? ==>
      var cleaned := RemoveOutliers(cfg, Deltas(blocks));
      && DescribedBy(r.value, CalculateStatistics(cleaned.values))
      && r.value.outlierCount == cleaned.outliers
      && r.value.outlierCount + |cleaned.values| == r.value.sampleSize
      && r.value.estimatedRange == CalculateRange(cfg.confidenceLevel, cleaned.values, r.value)
      && (|cleaned.values| > 0 ==> r.value.min in Deltas(blocks) && r.value.max in Deltas(blocks))
  {
    var times := Deltas(blocks);
    if |times| < cfg.minSampleSize then Err(InsufficientValidBlockTimes(|times|, cfg.minSampleSize))
    else
      assert |blocks| >= 2;
      var cleaned := RemoveOutliers(cfg, times);
      var stats := Summary(cfg, startHeight, endHeight, blocks, times);
      SummaryFacts(cfg, startHeight, endHeight, blocks);
      SummaryDescribes(cfg, startHeight, endHeight, blocks);
      Ok(stats.(estimatedRange := CalculateRange(cfg.confidenceLevel, cleaned.values, stats)))
  }

  lemma SummaryFacts(cfg: CalculatorConfig, startHeight: int, endHeight: int, blocks: seq<BlockInfo>)
    requires Normalized(cfg) && |blocks| > 0
    ensures var times := Deltas(blocks);
      var cleaned := RemoveOutliers(cfg, times);
      var stats := Summary(cfg, startHeight, endHeight, blocks, times);
      var s := stats.(estimatedRange := CalculateRange(cfg.confidenceLevel, cleaned.values, stats));
      Ordered(s) && RangeSound(s, cfg.confidenceLevel) && 0 <= s.outlierCount <= s.sampleSize
  {
    var times := Deltas(blocks);
    var cleaned := RemoveOutliers(cfg, times);
    var base := CalculateStatistics(cleaned.values);
    var stats := Summary(cfg, startHeight, endHeight, blocks, times);
    CleanedPositive(blocks, cleaned.values);
    RangeFacts(cfg.confidenceLevel, cleaned.values);
    RangeReadsDescriptiveFields(cfg.confidenceLevel, cleaned.values, base, stats);
    var s := stats.(estimatedRange := CalculateRange(cfg.confidenceLevel, cleaned.values, stats));
    assert Ordered(s);
    assert RangeSound(s, cfg.confidenceLevel);
  }

  /** The summary of a fetched list is the statistics of its cleaned
      series, whose extremes are block times of the list. */
  lemma SummaryDescribes(cfg: CalculatorConfig, startHeight: int, endHeight: int, blocks: seq<BlockInfo>)
    requires Normalized(cfg) && |blocks| > 0
    ensures var times := Deltas(blocks);
      var cleaned := RemoveOutliers(cfg, times);
      var stats := Summary(cfg, startHeight, endHeight, blocks, times);
      var s := stats.(estimatedRange := CalculateRange(cfg.confidenceLevel, cleaned.values, stats));
      && DescribedBy(s, CalculateStatistics(cleaned.values))
      && s.outlierCount == cleaned.outliers
      && s.outlierCount + |cleaned.values| == s.sampleSize
      && s.estimatedRange == CalculateRange(cfg.confidenceLevel, cleaned.values, s)
      && (|cleaned.values| > 0 ==> s.min in times && s.max in times)
  {
    var times := Deltas(blocks);
    var cleaned := RemoveOutliers(cfg, times);
    var base := CalculateStatistics(cleaned.values);
    var stats := Summary(cfg, startHeight, endHeight, blocks, times);
    var s := stats.(estimatedRange := CalculateRange(cfg.confidenceLevel, cleaned.values, stats));
    RangeReadsDescriptiveFields(cfg.confidenceLevel, cleaned.values, stats, s);
    if |cleaned.values| > 0 {
      assert base.min in multiset(cleaned.values) && base.max in multiset(cleaned.values);
      assert base.min in multiset(times) && base.max in multiset(times);
    }
  }

  /** The range estimate reads only the descriptive fields of a summary. */
  lemma RangeReadsDescriptiveFields(confidence: real, times: seq<real>, a: BlockTimeStats, b: BlockTimeStats)
    requires a.min == b.min && a.p25 == b.p25 && a.median == b.median && a.p75 == b.p75 && a.p95 == b.p95
    ensures CalculateRange(confidence, times, a) == CalculateRange(confidence, times, b)
  {
    assert BaseInterval(a) == BaseInterval(b);
    assert AdjustedInterval(a, confidence) == AdjustedInterval(b, confidence);
  }

  /** Cleaning keeps only values of the series, so they stay positive. */
  lemma CleanedPositive(blocks: seq<BlockInfo>, cleaned: seq<real>)
    requires multiset(cleaned) <= multiset(Deltas(blocks))
    ensures forall i :: 0 <= i < |cleaned| ==> cleaned[i] >= 0.0
  {
    DeltasPositive(blocks);
    forall i | 0 <= i < |cleaned| ensures cleaned[i] >= 0.0 {
      assert cleaned[i] in multiset(Deltas(blocks));
    }
  }

  /** The range facts for the statistics of non-negative cleaned values,
      including the zero record of an empty cleaned set. */
  lemma RangeFacts(confidence: real, cleaned: seq<real>)
    requires forall i :: 0 <= i < |cleaned| ==> cleaned[i] >= 0.0
    requires 0.0 <= confidence
    ensures var stats := CalculateStatistics(cleaned);
      var r := CalculateRange(confidence, cleaned, stats);
      && 0.0 <= stats.min
      && (confidence >= FullConfidence ==> r.lower <= r.typical <= r.upper <= stats.p95)
      && r.lower <= r.upper <= stats.p95
  {
    if |cleaned| > 0 {
      BaseIntervalOrdered(cleaned);
      if confidence >= FullConfidence {
        RangeOrdered(confidence, cleaned);
      } else {
        NarrowedRangeOrdered(confidence, cleaned);
      }
    }
  }

  /** `CalculateStatsForRange`: validates the range, fetches it, and
      summarises its positive block times after outlier removal. */
  function CalculateStatsForRange(cfg: CalculatorConfig, chain: Chain, startHeight: int, endHeight: int): (r: Result<BlockTimeStats>)
    requires Normalized(cfg)
    ensures startHeight > endHeight ==> r == Err(InvalidRange(startHeight, endHeight))
    ensures startHeight <= endHeight && endHeight - startHeight + 1 < cfg.minSampleSize ==>
      r == Err(InsufficientSampleSize(endHeight - startHeight + 1, cfg.minSampleSize))
    ensures startHeight <= endHeight && endHeight - startHeight + 1 >= cfg.minSampleSize ==>
      match chain.blockRange(startHeight, endHeight)
      case Err(e) => r == Err(Wrapped(BlockRangeQuery, e))
      case Ok(blocks) => r == StatsFromBlocks(cfg, startHeight, endHeight, blocks)
    ensures r.Err? ==> !r.error.Panic?
    ensures r.Ok? ==>
      && r.value.sampleSize >= cfg.minSampleSize
      && r.value.startHeight == startHeight && r.value.endHeight == endHeight
      && r.value.confidenceLevel == cfg.confidenceLevel
      && Ordered(r.value)
      && RangeSound(r.value, cfg.confidenceLevel)
  {
    if startHeight > endHeight then Err(InvalidRange(startHeight, endHeight))
    else
      var sampleSize := endHeight - startHeight + 1;
      if sampleSize < cfg.minSampleSize then Err(InsufficientSampleSize(sampleSize, cfg.minSampleSize))
      else
        match chain.blockRange(startHeight, endHeight)
        case Err(e) => Err(Wrapped(BlockRangeQuery, e))
        case Ok(blocks) => StatsFromBlocks(cfg, startHeight, endHeight, blocks)
  }

  /** The two range checks come before any request: their errors do not
      depend on what the chain would answer. */
  lemma RangeChecksPrecedeFetch(cfg: CalculatorConfig, a: Chain, b: Chain, startHeight: int, endHeight: int)
    requires Normalized(cfg)
    requires startHeight > endHeight || endHeight - startHeight + 1 < cfg.minSampleSize
    ensures CalculateStatsForRange(cfg, a, startHeight, endHeight) == CalculateStatsForRange(cfg, b, startHeight, endHeight)
    ensures CalculateStatsForRange(cfg, a, startHeight, endHeight).Err?
  {
  }

  /** An empty block list for a valid range is reported as too few block
      times. */
  lemma EmptyBlockListRejected(cfg: CalculatorConfig, chain: Chain, startHeight: int, endHeight: int)
    requires Normalized(cfg)
    requires startHeight <= endHeight && endHeight - startHeight + 1 >= cfg.minSampleSize
    requires chain.blockRange(startHeight, endHeight) == Ok([])
    ensures CalculateStatsForRange(cfg, chain, startHeight, endHeight)
      == Err(InsufficientValidBlockTimes(0, cfg.minSampleSize))
  {
  }

  // ---------------------------------------------------------------------
  // The range as written: `make([]float64, 0, len(blocks)-1)`

  /** The pipeline as written: the buffer for the series is allocated with
      capacity len(blocks) − 1, which panics for an empty block list. */
  function StatsFromBlocksAsWritten(cfg: CalculatorConfig, startHeight: int, endHeight: int, blocks: seq<BlockInfo>): (r: Result<BlockTimeStats>)
    requires Normalized(cfg)
    ensures |blocks| == 0 <==> r == Err(Panic("makeslice: cap out of range"))
    ensures |blocks| > 0 ==> r == StatsFromBlocks(cfg, startHeight, endHeight, blocks)
  {
    if |blocks| - 1 < 0 then Err(Panic("makeslice: cap out of range"))
    else StatsFromBlocks(cfg, startHeight, endHeight, blocks)
  }

  /** The range pipeline as written differs from the corrected one exactly
      on a valid range whose fetch returns no blocks, where it panics. */
  function CalculateStatsForRangeAsWritten(cfg: CalculatorConfig, chain: Chain, startHeight: int, endHeight: int): (r: Result<BlockTimeStats>)
    requires Normalized(cfg)
    ensures r == (
      if startHeight <= endHeight && endHeight - startHeight + 1 >= cfg.minSampleSize
         && chain.blockRange(startHeight, endHeight) == Ok([])
      then Err(Panic("makeslice: cap out of range"))
      else CalculateStatsForRange(cfg, chain, startHeight, endHeight))
  {
    if startHeight > endHeight then Err(InvalidRange(startHeight, endHeight))
    else
      var sampleSize := endHeight - startHeight + 1;
      if sampleSize < cfg.minSampleSize then Err(InsufficientSampleSize(sampleSize, cfg.minSampleSize))
      else
        match chain.blockRange(startHeight, endHeight)
        case Err(e) => Err(Wrapped(BlockRangeQuery, e))
        case Ok(blocks) => StatsFromBlocksAsWritten(cfg, startHeight, endHeight, blocks)
  }

  /** A client that drops every block of a valid 100-block range (all
      results nil) makes the pipeline as written panic, where the intended
      outcome is the insufficient-block-times error. */
  lemma EmptyRangePanicsAsWritten()
    ensures var chain := Chain(Ok(100), (h: int) => Err(Upstream("unused")), (s: int, e: int) => Ok([]));
      && CalculateStatsForRangeAsWritten(DefaultConfig(), chain, 1, 100) == Err(Panic("makeslice: cap out of range"))
      && CalculateStatsForRange(DefaultConfig(), chain, 1, 100) == Err(InsufficientValidBlockTimes(0, 30))
  {
  }

  // ---------------------------------------------------------------------
  // Latest blocks

  /** First height of the window of `size` blocks ending at `latest`,
      never below height 1. */
  function WindowStart(latest: int, size: int): (start: int)
    ensures start >= 1
    ensures start == latest - size + 1 || start == 1
    ensures size >= 1 && latest >= 1 ==>
      latest - start + 1 == (if latest < size then latest else size)
  {
    var start := latest - size + 1;
    if start < 1 then 1 else start
  }

  /** `CalculateStats`: the statistics of the `sampleSize` blocks ending at
      the chain head. */
  function CalculateStats(cfg: CalculatorConfig, chain: Chain): (r: Result<BlockTimeStats>)
    requires Normalized(cfg)
    ensures chain.latestHeight.Err? ==> r == Err(Wrapped(LatestHeightQuery, chain.latestHeight.error))
    ensures chain.latestHeight.Ok? ==>
      var head := chain.latestHeight.value;
      r == CalculateStatsForRange(cfg, chain, WindowStart(head, cfg.sampleSize), head)
    ensures chain.latestHeight.Ok? && chain.latestHeight.value >= 1 ==> !(r.Err? && r.error.InvalidRange?)
    ensures r.Ok? ==>
      && r.value.confidenceLevel == cfg.confidenceLevel
      && Ordered(r.value)
      && RangeSound(r.value, cfg.confidenceLevel)
  {
    match chain.latestHeight
    case Err(e) => Err(Wrapped(LatestHeightQuery, e))
    case Ok(head) => CalculateStatsForRange(cfg, chain, WindowStart(head, cfg.sampleSize), head)
  }

  // ---------------------------------------------------------------------
  // Proposer analysis

  /** The positive block times of blocks[1..] proposed by `p`, in order. */
  function ProposerTimes(blocks: seq<BlockInfo>, p: string): seq<real> {
    if |blocks| <= 1 then []
    else
      var b := blocks[|blocks| - 1];
      ProposerTimes(blocks[..|blocks| - 1], p) + (if b.proposer == p && b.blockTime > 0.0 then [b.blockTime] else [])
  }

  /** The grouping loop: appends each positive block time of blocks[1..] to
      its proposer's list. Holds exactly the proposers with at least one
      such time, each with its times in block order. */
  function GroupByProposer(blocks: seq<BlockInfo>): (g: map<string, seq<real>>)
    ensures forall p :: p in g <==> |ProposerTimes(blocks, p)| > 0
    ensures forall p :: p in g ==> g[p] == ProposerTimes(blocks, p)
  {
    if |blocks| <= 1 then map[]
    else
      var g := GroupByProposer(blocks[..|blocks| - 1]);
      var b := blocks[|blocks| - 1];
      if b.blockTime > 0.0 then
        g[b.proposer := (if b.proposer in g then g[b.proposer] else []) + [b.blockTime]]
      else g
  }

  /** The statistics of one proposer's block times. */
  function ProposerStats(cfg: CalculatorConfig, times: seq<real>): BlockTimeStats
    requires Normalized(cfg)
  {
    var cleaned := RemoveOutliers(cfg, times);
    CalculateStatistics(cleaned.values).(outlierCount := cleaned.outliers, sampleSize := |times|)
  }

  /** `AnalyzeProposerPatterns`: statistics for every proposer with at
      least five positive block times, and for no other. */
  function AnalyzeProposerPatterns(cfg: CalculatorConfig, blocks: seq<BlockInfo>): (r: map<string, BlockTimeStats>)
    requires Normalized(cfg)
    ensures forall p :: p in r <==> |ProposerTimes(blocks, p)| >= MinProposerBlocks
    ensures forall p :: p in r ==>
      && r[p] == ProposerStats(cfg, ProposerTimes(blocks, p))
      && r[p].sampleSize == |ProposerTimes(blocks, p)|
      && 0 <= r[p].outlierCount <= r[p].sampleSize
  {
    var groups := GroupByProposer(blocks);
    map p | p in groups && |groups[p]| >= MinProposerBlocks :: ProposerStats(cfg, groups[p])
  }
}
