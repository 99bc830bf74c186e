/** The records of pkg/types: plain data, no behaviour. */
module Types {

  /** Nanoseconds per unit of Go's `time.Duration`. */
  const Second: int := 1_000_000_000
  const Minute: int := 60 * Second
  const Hour: int := 60 * Minute

  /** One block as the client reports it. `time` is in seconds since the
      epoch; `blockTime` is the gap to the previous block of the same range. */
  datatype BlockInfo = BlockInfo(
    height: int,
    time: real,
    hash: string,
    proposer: string,
    txCount: nat,
    blockTime: real)

  /** Estimated block-time interval, in seconds. */
  datatype Range = Range(lower: real, upper: real, typical: real)

  /** Descriptive statistics of a series of block times. `variance` is the
      population variance; the source reports its square root. */
  datatype BlockTimeStats = BlockTimeStats(
    sampleSize: int,
    startHeight: int,
    endHeight: int,
    startTime: real,
    endTime: real,
    mean: real,
    median: real,
    variance: real,
    min: real,
    max: real,
    p25: real,
    p75: real,
    p95: real,
    p99: real,
    outlierCount: int,
    estimatedRange: Range,
    confidenceLevel: real)

  /** The zero value `BlockTimeStats{}`. */
  function ZeroStats(): BlockTimeStats {
    BlockTimeStats(0, 0, 0, 0.0, 0.0, 0.0, 0.0, 0.0, 0.0, 0.0, 0.0, 0.0, 0.0, 0.0, 0, Range(0.0, 0.0, 0.0), 0.0)
  }

  /** Connection settings; durations are in nanoseconds. */
  datatype ChainConfig = ChainConfig(
    rpcEndpoint: string,
    grpcEndpoint: string,
    chainId: string,
    timeout: int,
    maxRetries: int,
    retryDelay: int)

  datatype CalculatorConfig = CalculatorConfig(
    sampleSize: int,
    outlierThreshold: real,
    confidenceLevel: real,
    minSampleSize: int,
    trimPercent: real,
    useMedianAbsolute: bool)
}
