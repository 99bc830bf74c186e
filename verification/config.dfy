/** The application configuration and its validation
    (internal/config/config.go). Loading from viper and from files is
    outside the model; only the defaults and the validation rules are. */
module Config {
  import opened Errors
  import opened Types
  import Calculator

  datatype OutputConfig = OutputConfig(format: string, verbose: bool, prettyPrint: bool, saveToFile: string)

  datatype Config = Config(chain: ChainConfig, calculator: CalculatorConfig, output: OutputConfig)

  /** The output formats the renderer knows. */
  const ValidFormats: set<string> := {"json", "text", "table"}

  /** One reason a configuration is rejected, one per rule. */
  datatype ConfigError =
    | NonPositiveTimeout
    | NegativeMaxRetries
    | NegativeRetryDelay
    | NonPositiveSampleSize
    | NonPositiveMinSampleSize
    | MinSampleSizeAboveSampleSize
    | NonPositiveOutlierThreshold
    | ConfidenceLevelOutOfRange
    | TrimPercentOutOfRange
    | UnknownOutputFormat(format: string)

  /** The order in which the rules are checked: chain settings first, then
      the calculator's, then the output format. */
  function Rank(e: ConfigError): nat {
    match e
    case NonPositiveTimeout => 0
    case NegativeMaxRetries => 1
    case NegativeRetryDelay => 2
    case NonPositiveSampleSize => 3
    case NonPositiveMinSampleSize => 4
    case MinSampleSizeAboveSampleSize => 5
    case NonPositiveOutlierThreshold => 6
    case ConfidenceLevelOutOfRange => 7
    case TrimPercentOutOfRange => 8
    case UnknownOutputFormat(_) => 9
  }

  /** Whether `cfg` breaks the rule that `e` reports. */
  predicate Violates(cfg: Config, e: ConfigError) {
    match e
    case NonPositiveTimeout => cfg.chain.timeout <= 0
    case NegativeMaxRetries => cfg.chain.maxRetries < 0
    case NegativeRetryDelay => cfg.chain.retryDelay < 0
    case NonPositiveSampleSize => cfg.calculator.sampleSize <= 0
    case NonPositiveMinSampleSize => cfg.calculator.minSampleSize <= 0
    case MinSampleSizeAboveSampleSize => cfg.calculator.minSampleSize > cfg.calculator.sampleSize
    case NonPositiveOutlierThreshold => cfg.calculator.outlierThreshold <= 0.0
    case ConfidenceLevelOutOfRange => !(0.0 < cfg.calculator.confidenceLevel < 1.0)
    case TrimPercentOutOfRange => !(0.0 <= cfg.calculator.trimPercent < 0.5)
    case UnknownOutputFormat(f) => f == cfg.output.format && f !in ValidFormats
  }

  /** `ValidateConfig`: reports the first rule `cfg` breaks, or nothing. */
  function ValidateConfig(cfg: Config): (r: Option<ConfigError>)
    ensures r.None? ==> forall e :: !Violates(cfg, e)
    ensures r.Some? ==> Violates(cfg, r.value)
    ensures r.Some? ==> forall e :: Rank(e) < Rank(r.value) ==> !Violates(cfg, e)
  {
    var chain := cfg.chain;
    var settings := cfg.calculator;
    if chain.timeout <= 0 then Some(NonPositiveTimeout)
    else if chain.maxRetries < 0 then Some(NegativeMaxRetries)
    else if chain.retryDelay < 0 then Some(NegativeRetryDelay)
    else if settings.sampleSize <= 0 then Some(NonPositiveSampleSize)
    else if settings.minSampleSize <= 0 then Some(NonPositiveMinSampleSize)
    else if settings.minSampleSize > settings.sampleSize then Some(MinSampleSizeAboveSampleSize)
    else if settings.outlierThreshold <= 0.0 then Some(NonPositiveOutlierThreshold)
    else if settings.confidenceLevel <= 0.0 || settings.confidenceLevel >= 1.0 then Some(ConfidenceLevelOutOfRange)
    else if settings.trimPercent < 0.0 || settings.trimPercent >= 0.5 then Some(TrimPercentOutOfRange)
    else if cfg.output.format !in ValidFormats then Some(UnknownOutputFormat(cfg.output.format))
    else None
  }

  /** `DefaultConfig`: a local node, the calculator's own defaults and text
      output. */
  function DefaultConfig(): (c: Config)
    ensures ValidateConfig(c).None?
    ensures c.calculator == Calculator.DefaultConfig()
    ensures c.chain.timeout == 30 * Second && c.chain.retryDelay == Second
  {
    Config(
      chain := ChainConfig(
        rpcEndpoint := "http://localhost:26657",
        grpcEndpoint := "localhost:9090",
        chainId := "cosmoshub-4",
        timeout := 30 * Second,
        maxRetries := 3,
        retryDelay := Second),
      calculator := CalculatorConfig(
        sampleSize := 100,
        outlierThreshold := 1.5,
        confidenceLevel := 0.95,
        minSampleSize := 30,
        trimPercent := 0.05,
        useMedianAbsolute := true),
      output := OutputConfig(format := "text", verbose := false, prettyPrint := true, saveToFile := ""))
  }

  /** A configuration that passes validation is one the calculator's
      constructor keeps as it is, with at least the minimum sample size in
      the window. */
  lemma ValidatedIsNormalized(cfg: Config)
    requires ValidateConfig(cfg).None?
    ensures Calculator.Normalized(cfg.calculator)
    ensures Calculator.NewBlockTimeCalculator(Some(cfg.calculator)) == cfg.calculator
    ensures cfg.calculator.minSampleSize <= cfg.calculator.sampleSize
  {
    assert !Violates(cfg, NonPositiveSampleSize);
    assert !Violates(cfg, NonPositiveMinSampleSize);
    assert !Violates(cfg, MinSampleSizeAboveSampleSize);
    assert !Violates(cfg, NonPositiveOutlierThreshold);
    assert !Violates(cfg, ConfidenceLevelOutOfRange);
    assert !Violates(cfg, TrimPercentOutOfRange);
  }
}
