/** Forward projection of the estimated block time
    (internal/calculator/predictor.go). The wall clock is the parameter
    `now`, in seconds since the epoch; durations are real seconds. */
module Predictor {
  import opened Errors
  import opened Types
  import opened Calculator
  import opened Statistics
  import Percentiles

  datatype DurationEstimate = DurationEstimate(typical: real, min: real, max: real)

  /** When a target height will be (or was) produced. For a height already
      produced only the target, current height, completion flag and actual
      time are set; the forward fields keep their zero values. */
  datatype BlockPrediction = BlockPrediction(
    targetHeight: int,
    currentHeight: int,
    blocksLeft: int,
    currentTime: real,
    currentBlockAge: real,
    estimatedTime: real,
    optimisticTime: real,
    pessimisticTime: real,
    duration: DurationEstimate,
    stats: Option<BlockTimeStats>,
    confidenceLevel: real,
    isComplete: bool,
    actualTime: Option<real>)

  datatype BlockMilestone = BlockMilestone(height: int, blocksFromNow: int, estimatedTime: real, duration: real)

  datatype MultiBlockPrediction = MultiBlockPrediction(
    currentHeight: int,
    currentTime: real,
    currentBlockAge: real,
    predictions: seq<BlockMilestone>,
    stats: BlockTimeStats)

  lemma MulMonotone(k: real, a: real, b: real)
    requires k >= 0.0 && a <= b
    ensures k * a <= k * b
  {
    assert k * b - k * a == k * (b - a);
    Percentiles.MulNonNegative(k, b - a);
  }

  /** Scaling a sound range by a block count keeps its order. */
  lemma ScaledRangeOrdered(n: real, est: Range, full: bool)
    requires n >= 0.0 && 0.0 <= est.lower <= est.upper
    requires full ==> est.lower <= est.typical <= est.upper
    ensures 0.0 <= n * est.lower <= n * est.upper
    ensures full ==> n * est.lower <= n * est.typical <= n * est.upper
  {
    MulMonotone(n, 0.0, est.lower);
    MulMonotone(n, est.lower, est.upper);
    if full {
      MulMonotone(n, est.lower, est.typical);
      MulMonotone(n, est.typical, est.upper);
    }
  }

  /** The forward prediction for `left` blocks from a summary: each
      estimate is `left` times the matching end of the range, added to `now`. */
  function Forecast(targetHeight: int, currentHeight: int, now: real, age: real, stats: BlockTimeStats): (p: BlockPrediction)
    requires targetHeight > currentHeight
    requires RangeSound(stats, stats.confidenceLevel)
    ensures Projects(p, now, stats)
    ensures p.targetHeight == targetHeight && p.currentHeight == currentHeight
    ensures p.blocksLeft == targetHeight - currentHeight
    ensures !p.isComplete && p.actualTime.None? && p.stats == Some(stats)
  {
    var left := targetHeight - currentHeight;
    var n := left as real;
    var est := stats.estimatedRange;
    ScaledRangeOrdered(n, est, stats.confidenceLevel >= FullConfidence);
    BlockPrediction(
      targetHeight := targetHeight,
      currentHeight := currentHeight,
      blocksLeft := left,
      currentTime := now,
      currentBlockAge := age,
      estimatedTime := now + n * est.typical,
      optimisticTime := now + n * est.lower,
      pessimisticTime := now + n * est.upper,
      duration := DurationEstimate(n * est.typical, n * est.lower, n * est.upper),
      stats := Some(stats),
      confidenceLevel := stats.confidenceLevel,
      isComplete := false,
      actualTime := None)
  }

  /** What a forward prediction promises: the durations are the block count
      times the range, the instants are `now` plus those durations, the
      optimistic instant is never before `now` nor after the pessimistic one,
      and at full confidence the estimate lies between the two. */
  predicate Projects(p: BlockPrediction, now: real, stats: BlockTimeStats) {
    var est := stats.estimatedRange;
    var n := p.blocksLeft as real;
    && p.currentTime == now
    && p.confidenceLevel == stats.confidenceLevel
    && p.duration == DurationEstimate(n * est.typical, n * est.lower, n * est.upper)
    && p.estimatedTime == now + p.duration.typical
    && p.optimisticTime == now + p.duration.min
    && p.pessimisticTime == now + p.duration.max
    && now <= p.optimisticTime <= p.pessimisticTime
    && (stats.confidenceLevel >= FullConfidence ==> p.optimisticTime <= p.estimatedTime <= p.pessimisticTime)
  }

  /** A target already produced: only its actual time is reported. */
  function Completed(targetHeight: int, currentHeight: int, actual: real): BlockPrediction {
    BlockPrediction(targetHeight, currentHeight, 0, 0.0, 0.0, 0.0, 0.0, 0.0,
      DurationEstimate(0.0, 0.0, 0.0), None, 0.0, true, Some(actual))
  }

  /** `PredictBlockTime`. */
  function PredictBlockTime(cfg: CalculatorConfig, chain: Chain, targetHeight: int, now: real): (r: Result<BlockPrediction>)
    requires Normalized(cfg)
    ensures r.Err? ==> r.error.Wrapped?
    ensures chain.latestHeight.Err? ==> r == Err(Wrapped(LatestHeightQuery, chain.latestHeight.error))
    ensures chain.latestHeight.Ok? && targetHeight <= chain.latestHeight.value && chain.blockAt(targetHeight).Err? ==>
      r == Err(Wrapped(BlockQuery(targetHeight), chain.blockAt(targetHeight).error))
    ensures chain.latestHeight.Ok? && targetHeight > chain.latestHeight.value && CalculateStats(cfg, chain).Err? ==>
      r == Err(Wrapped(StatisticsQuery, CalculateStats(cfg, chain).error))
    ensures (chain.latestHeight.Ok? && targetHeight > chain.latestHeight.value && CalculateStats(cfg, chain).Ok?
      && chain.blockAt(chain.latestHeight.value).Err?) ==>
      r == Err(Wrapped(CurrentBlockQuery, chain.blockAt(chain.latestHeight.value).error))
    ensures chain.latestHeight.Ok? && targetHeight <= chain.latestHeight.value && chain.blockAt(targetHeight).Ok? ==>
      r.Ok?
    ensures (chain.latestHeight.Ok? && targetHeight > chain.latestHeight.value && CalculateStats(cfg, chain).Ok?
      && chain.blockAt(chain.latestHeight.value).Ok?) ==>
      r.Ok?
    ensures r.Ok? ==>
      && chain.latestHeight.Ok?
      && r.value.targetHeight == targetHeight
      && r.value.currentHeight == chain.latestHeight.value
      && (r.value.isComplete <==> targetHeight <= r.value.currentHeight)
    ensures r.Ok? && r.value.isComplete ==>
      && chain.blockAt(targetHeight).Ok?
      && r.value.blocksLeft == 0
      && r.value.actualTime == Some(chain.blockAt(targetHeight).value.time)
      && r.value.stats.None?
    ensures r.Ok? && !r.value.isComplete ==>
      && CalculateStats(cfg, chain).Ok?
      && r.value.stats == Some(CalculateStats(cfg, chain).value)
      && r.value.blocksLeft == targetHeight - r.value.currentHeight >= 1
      && r.value.actualTime.None?
      && Projects(r.value, now, CalculateStats(cfg, chain).value)
  {
    match chain.latestHeight
    case Err(e) => Err(Wrapped(LatestHeightQuery, e))
    case Ok(current) =>
      if targetHeight <= current then
        match chain.blockAt(targetHeight)
        case Err(e) => Err(Wrapped(BlockQuery(targetHeight), e))
        case Ok(block) => Ok(Completed(targetHeight, current, block.time))
      else
        match CalculateStats(cfg, chain)
        case Err(e) => Err(Wrapped(StatisticsQuery, e))
        case Ok(stats) =>
          match chain.blockAt(current)
          case Err(e) => Err(Wrapped(CurrentBlockQuery, e))
          case Ok(currentBlock) => Ok(Forecast(targetHeight, current, now, now - currentBlock.time, stats))
  }

  /** `ms` lists the next `count` heights after `currentHeight`, the i-th
      (from 0) being i+1 blocks away and projected i+1 typical block times
      after `now`. */
  predicate Schedule(ms: seq<BlockMilestone>, currentHeight: int, count: nat, typical: real, now: real) {
    && |ms| == count
    && forall i :: 0 <= i < count ==>
      && ms[i].height == currentHeight + i + 1
      && ms[i].blocksFromNow == i + 1
      && ms[i].duration == (i + 1) as real * typical
      && ms[i].estimatedTime == now + ms[i].duration
  }

  /** The milestone `k + 1` blocks after `currentHeight`. */
  function MilestoneAt(currentHeight: int, k: nat, typical: real, now: real): BlockMilestone {
    var seconds := (k + 1) as real * typical;
    BlockMilestone(currentHeight + k + 1, k + 1, now + seconds, seconds)
  }

  lemma NextMultiple(k: nat, typical: real)
    ensures (k + 1) as real * typical - k as real * typical == typical
  {
  }

  /** The milestones of the next `count` blocks, each projected from `now`
      on its own rather than chained off the previous one. */
  method Milestones(currentHeight: int, count: nat, typical: real, now: real) returns (ms: seq<BlockMilestone>)
    ensures Schedule(ms, currentHeight, count, typical, now)
    ensures forall i :: 0 < i < count ==>
      && ms[i].duration - ms[i - 1].duration == typical
      && ms[i].estimatedTime - ms[i - 1].estimatedTime == typical
  {
    ms := [];
    var i := 0;
    while i < count
      invariant 0 <= i <= count
      invariant |ms| == i
      invariant forall k :: 0 <= k < i ==> ms[k] == MilestoneAt(currentHeight, k, typical, now)
    {
      ms := ms + [MilestoneAt(currentHeight, i, typical, now)];
      i := i + 1;
    }
    forall i | 0 < i < count
      ensures ms[i].duration - ms[i - 1].duration == typical
      ensures ms[i].estimatedTime - ms[i - 1].estimatedTime == typical
    {
      NextMultiple(i, typical);
    }
  }

  /** `PredictNextBlocks`: rejects a non-positive count before any request,
      then projects the next `count` heights from the typical block time. */
  method PredictNextBlocks(cfg: CalculatorConfig, chain: Chain, count: int, now: real) returns (r: Result<MultiBlockPrediction>)
    requires Normalized(cfg)
    ensures count <= 0 ==> r == Err(NonPositiveCount)
    ensures count > 0 && r.Err? ==> r.error.Wrapped?
    ensures count > 0 && chain.latestHeight.Err? ==> r == Err(Wrapped(LatestHeightQuery, chain.latestHeight.error))
    ensures count > 0 && chain.latestHeight.Ok? && CalculateStats(cfg, chain).Err? ==>
      r == Err(Wrapped(StatisticsQuery, CalculateStats(cfg, chain).error))
    ensures (count > 0 && chain.latestHeight.Ok? && CalculateStats(cfg, chain).Ok?
      && chain.blockAt(chain.latestHeight.value).Err?) ==>
      r == Err(Wrapped(CurrentBlockQuery, chain.blockAt(chain.latestHeight.value).error))
    ensures (count > 0 && chain.latestHeight.Ok? && CalculateStats(cfg, chain).Ok?
      && chain.blockAt(chain.latestHeight.value).Ok?) ==>
      r.Ok?
    ensures r.Ok? ==>
      && count > 0 && chain.latestHeight.Ok? && CalculateStats(cfg, chain).Ok?
      && var typical := CalculateStats(cfg, chain).value.estimatedRange.typical;
      var m := r.value;
      && m.currentHeight == chain.latestHeight.value
      && m.currentTime == now
      && m.stats == CalculateStats(cfg, chain).value
      && Schedule(m.predictions, m.currentHeight, count, typical, now)
      && (forall i :: 0 < i < count ==>
            m.predictions[i].estimatedTime - m.predictions[i - 1].estimatedTime == typical)
  {
    if count <= 0 {
      return Err(NonPositiveCount);
    }
    if chain.latestHeight.Err? {
      return Err(Wrapped(LatestHeightQuery, chain.latestHeight.error));
    }
    var current := chain.latestHeight.value;
    var stats := CalculateStats(cfg, chain);
    if stats.Err? {
      return Err(Wrapped(StatisticsQuery, stats.error));
    }
    var currentBlock := chain.blockAt(current);
    if currentBlock.Err? {
      return Err(Wrapped(CurrentBlockQuery, currentBlock.error));
    }
    var ms := Milestones(current, count, stats.value.estimatedRange.typical, now);
    r := Ok(MultiBlockPrediction(current, now, now - currentBlock.value.time, ms, stats.value));
  }
}
