/** The command-line layer (cmd/main.go): the duration text shown to the
    user, the integer scanning of the predict argument, and how each
    command picks what to compute. Flag parsing, output rendering and the
    process exit are outside the model; flags arrive as parameters. */
module Cli {
  import opened Errors
  import opened Types
  import Calculator
  import Config
  import Predictor

  const MinInt64: int := -0x8000_0000_0000_0000
  const MaxInt64: int := 0x7FFF_FFFF_FFFF_FFFF

  /** Blocks predicted when neither a count nor a target is given. */
  const DefaultNextBlocks: int := 10

  // ---------------------------------------------------------------------
  // Decimal text

  predicate IsDigit(c: char) {
    '0' <= c <= '9'
  }

  /** The white space the scanner skips before a number (a newline is not
      skipped: it ends the scan with an error). */
  predicate IsSpace(c: char) {
    c == ' ' || c == '\t' || c == '\r' || c == '\U{000B}' || c == '\U{000C}'
  }

  function DigitValue(c: char): (v: nat)
    requires IsDigit(c)
    ensures v < 10
  {
    c as int - '0' as int
  }

  function DigitChar(v: nat): (c: char)
    requires v < 10
    ensures IsDigit(c) && DigitValue(c) == v
  {
    (v + '0' as int) as char
  }

  predicate AllDigits(s: string) {
    forall i :: 0 <= i < |s| ==> IsDigit(s[i])
  }

  /** The number a run of decimal digits spells, most significant first. */
  function DigitsValue(s: string): nat
    requires AllDigits(s)
  {
    if |s| == 0 then 0
    else DigitsValue(s[..|s| - 1]) * 10 + DigitValue(s[|s| - 1])
  }

  /** `%d` of a non-negative number: its shortest decimal spelling. */
  function NatToString(n: nat): (s: string)
    ensures |s| >= 1 && AllDigits(s)
    ensures DigitsValue(s) == n
    ensures s[0] == '0' ==> |s| == 1
    decreases n
  {
    if n < 10 then [DigitChar(n)]
    else
      var front := NatToString(n / 10);
      var s := front + [DigitChar(n % 10)];
      assert s[..|s| - 1] == front;
      s
  }

  /** `%d` of any number. */
  function IntToString(n: int): string {
    if n < 0 then "-" + NatToString(-n) else NatToString(n)
  }

  /** The length of the run of digits `s` starts with. */
  function DigitRun(s: string): (k: nat)
    ensures k <= |s|
    ensures AllDigits(s[..k])
    ensures k < |s| ==> !IsDigit(s[k])
  {
    if |s| == 0 || !IsDigit(s[0]) then 0
    else
      var k := 1 + DigitRun(s[1..]);
      assert forall i :: 1 <= i < k ==> s[..k][i] == s[1..][..k - 1][i - 1];
      k
  }

  function Signed(negative: bool, magnitude: nat): int {
    if negative then -(magnitude as int) else magnitude
  }

  /** The position of some digit of a text that has one. */
  ghost function DigitAt(s: string): (i: nat)
    requires exists i :: 0 <= i < |s| && IsDigit(s[i])
    ensures i < |s| && IsDigit(s[i])
  {
    var i :| 0 <= i < |s| && IsDigit(s[i]); i
  }

  /** Text made of skipped blanks only. */
  predicate AllBlank(s: string) {
    forall i :: 0 <= i < |s| ==> IsSpace(s[i])
  }

  /** The digits of a number once its sign is read. */
  function ScanDigits(negative: bool, body: string): (r: Option<int>)
    ensures r.Some? ==> MinInt64 <= r.value <= MaxInt64
    ensures r.Some? ==> |body| > 0 && IsDigit(body[0])
  {
    var k := DigitRun(body);
    if k == 0 then None
    else
      var value := Signed(negative, DigitsValue(body[..k]));
      if MinInt64 <= value <= MaxInt64 then Some(value) else None
  }

  /** The sign and digits of a number once the leading blanks are gone. */
  function ScanSigned(s: string): (r: Option<int>)
    ensures r.Some? ==> MinInt64 <= r.value <= MaxInt64
    ensures r.Some? ==> exists i :: 0 <= i < |s| && IsDigit(s[i])
  {
    if |s| > 0 && s[0] == '-' then ScanDigits(true, s[1..])
    else if |s| > 0 && s[0] == '+' then ScanDigits(false, s[1..])
    else ScanDigits(false, s)
  }

  /** `fmt.Sscanf(arg, "%d", &n)`: blanks are skipped, a sign is optional,
      at least one digit must follow, text after the digits is ignored and
      a value outside the 64-bit range is an error. */
  function ScanInt(s: string): (r: Option<int>)
    ensures r.Some? ==> MinInt64 <= r.value <= MaxInt64
    ensures r.Some? ==> exists i :: 0 <= i < |s| && IsDigit(s[i])
    ensures AllBlank(s) ==> r.None?
  {
    if |s| == 0 || s[0] == '\n' then None
    else if IsSpace(s[0]) then
      var r := ScanInt(s[1..]);
      assert r.Some? ==> IsDigit(s[1..][DigitAt(s[1..])]);
      r
    else ScanSigned(s)
  }

  lemma {:induction false} DigitRunOfDigits(digits: string, rest: string)
    requires AllDigits(digits)
    requires |rest| == 0 || !IsDigit(rest[0])
    ensures DigitRun(digits + rest) == |digits|
  {
    var s := digits + rest;
    if |digits| == 0 {
      assert s == rest;
    } else {
      assert s[0] == digits[0] && IsDigit(s[0]);
      assert s[1..] == digits[1..] + rest;
      assert AllDigits(digits[1..]) by {
        forall i | 0 <= i < |digits| - 1 ensures IsDigit(digits[1..][i]) {
          assert digits[1..][i] == digits[i + 1];
        }
      }
      DigitRunOfDigits(digits[1..], rest);
      assert DigitRun(s) == 1 + DigitRun(s[1..]);
    }
  }

  lemma ScanDigitsOf(negative: bool, digits: string, rest: string)
    requires |digits| > 0 && AllDigits(digits)
    requires |rest| == 0 || !IsDigit(rest[0])
    requires MinInt64 <= Signed(negative, DigitsValue(digits)) <= MaxInt64
    ensures ScanDigits(negative, digits + rest) == Some(Signed(negative, DigitsValue(digits)))
  {
    DigitRunOfDigits(digits, rest);
    assert (digits + rest)[..|digits|] == digits;
  }

  lemma ScanAfterMinus(digits: string, rest: string)
    ensures ScanInt("-" + digits + rest) == ScanDigits(true, digits + rest)
  {
    var s := "-" + digits + rest;
    assert s[0] == '-' && s[1..] == digits + rest;
  }

  lemma ScanAfterDigit(s: string)
    requires |s| > 0 && IsDigit(s[0])
    ensures ScanInt(s) == ScanDigits(false, s)
  {
  }

  lemma ScanNegative(digits: string, rest: string)
    requires |digits| > 0 && AllDigits(digits)
    requires |rest| == 0 || !IsDigit(rest[0])
    requires MinInt64 <= -(DigitsValue(digits) as int)
    ensures ScanInt("-" + digits + rest) == Some(-(DigitsValue(digits) as int))
  {
    ScanAfterMinus(digits, rest);
    ScanDigitsOf(true, digits, rest);
  }

  lemma ScanNonNegative(digits: string, rest: string)
    requires |digits| > 0 && AllDigits(digits)
    requires |rest| == 0 || !IsDigit(rest[0])
    requires DigitsValue(digits) <= MaxInt64
    ensures ScanInt(digits + rest) == Some(DigitsValue(digits))
  {
    ScanAfterDigit(digits + rest);
    ScanDigitsOf(false, digits, rest);
  }

  /** Scanning what `%d` printed gives the number back, whatever non-digit
      text follows it. */
  lemma ScanIntRoundTrip(n: int, rest: string)
    requires MinInt64 <= n <= MaxInt64
    requires |rest| == 0 || !IsDigit(rest[0])
    ensures ScanInt(IntToString(n) + rest) == Some(n)
  {
    if n < 0 {
      ScanNegative(NatToString(-n), rest);
    } else {
      ScanNonNegative(NatToString(n), rest);
    }
  }

  // ---------------------------------------------------------------------
  // formatDuration

  /** `%.0f` of d/10^9: the nearest whole number of seconds, ties to even. */
  function RoundToSeconds(d: int): (q: int)
    ensures 2 * (d - q * Second) <= Second && 2 * (q * Second - d) <= Second
    ensures (2 * (d - q * Second) == Second || 2 * (q * Second - d) == Second) ==> q % 2 == 0
  {
    var whole := d / Second;
    var part := d % Second;
    if 2 * part < Second then whole
    else if 2 * part > Second then whole + 1
    else if whole % 2 == 0 then whole
    else whole + 1
  }

  /** The figures a duration is shown with. A negative duration that rounds
      to zero keeps its sign in the text. */
  datatype DurationText =
    | WholeSeconds(seconds: int, negativeZero: bool)
    | MinutesAndSeconds(minutes: int, seconds: int)
    | WholeMinutes(minutes: int)
    | HoursAndMinutes(hours: int, minutes: int)
    | WholeHours(hours: int)

  /** Under an hour: whole minutes, then the whole seconds left over. */
  lemma MinutesAndSecondsOf(d: int)
    requires Minute <= d < Hour
    ensures 1 <= d / Minute < 60 && 0 <= (d / Second) % 60 < 60
    ensures d / Minute * Minute + (d / Second) % 60 * Second <= d
    ensures d < d / Minute * Minute + ((d / Second) % 60 + 1) * Second
  {
    var q := d / Second;
    assert q * Second <= d < (q + 1) * Second;
    assert d / Minute == q / 60;
  }

  /** From an hour on: whole hours, then the whole minutes left over. */
  lemma HoursAndMinutesOf(d: int)
    requires Hour <= d
    ensures 1 <= d / Hour && 0 <= (d / Minute) % 60 < 60
    ensures d / Hour * Hour + (d / Minute) % 60 * Minute <= d
    ensures d < d / Hour * Hour + ((d / Minute) % 60 + 1) * Minute
  {
    var q := d / Minute;
    assert q * Minute <= d < (q + 1) * Minute;
    assert d / Hour == q / 60;
  }

  /** The unit and figures `formatDuration` picks for `d` nanoseconds:
      rounded seconds under a minute, truncated minutes and seconds under
      an hour, truncated hours and minutes beyond; a zero second or minute
      part is dropped. */
  function DescribeDuration(d: int): (t: DurationText)
    ensures t.WholeSeconds? <==> d < Minute
    ensures (t.MinutesAndSeconds? || t.WholeMinutes?) <==> Minute <= d < Hour
    ensures t.WholeSeconds? ==> t.seconds == RoundToSeconds(d) && (t.negativeZero <==> d < 0 && t.seconds == 0)
    ensures t.MinutesAndSeconds? ==>
      && 1 <= t.minutes < 60 && 1 <= t.seconds < 60
      && t.minutes * Minute + t.seconds * Second <= d < t.minutes * Minute + (t.seconds + 1) * Second
    ensures t.WholeMinutes? ==>
      1 <= t.minutes < 60 && t.minutes * Minute <= d < t.minutes * Minute + Second
    ensures t.HoursAndMinutes? ==>
      && 1 <= t.hours && 1 <= t.minutes < 60
      && t.hours * Hour + t.minutes * Minute <= d < t.hours * Hour + (t.minutes + 1) * Minute
    ensures t.WholeHours? ==>
      1 <= t.hours && t.hours * Hour <= d < t.hours * Hour + Minute
  {
    if d < Minute then
      var seconds := RoundToSeconds(d);
      WholeSeconds(seconds, d < 0 && seconds == 0)
    else if d < Hour then
      MinutesAndSecondsOf(d);
      var minutes := d / Minute;
      var seconds := (d / Second) % 60;
      if seconds > 0 then MinutesAndSeconds(minutes, seconds) else WholeMinutes(minutes)
    else
      HoursAndMinutesOf(d);
      var hours := d / Hour;
      var minutes := (d / Minute) % 60;
      if minutes > 0 then HoursAndMinutes(hours, minutes) else WholeHours(hours)
  }

  function Render(t: DurationText): string {
    match t
    case WholeSeconds(seconds, negativeZero) =>
      if negativeZero then "-" + NatToString(0) + " seconds" else IntToString(seconds) + " seconds"
    case MinutesAndSeconds(minutes, seconds) => IntToString(minutes) + ("m " + IntToString(seconds) + "s")
    case WholeMinutes(minutes) => IntToString(minutes) + " minutes"
    case HoursAndMinutes(hours, minutes) => IntToString(hours) + ("h " + IntToString(minutes) + "m")
    case WholeHours(hours) => IntToString(hours) + " hours"
  }


  /** The first figure of a rendered duration. */
  function LeadingFigure(t: DurationText): int {
    match t
    case WholeSeconds(seconds, negativeZero) => if negativeZero then 0 else seconds
    case MinutesAndSeconds(minutes, _) => minutes
    case WholeMinutes(minutes) => minutes
    case HoursAndMinutes(hours, _) => hours
    case WholeHours(hours) => hours
  }

  lemma ScanRendered(t: DurationText)
    requires MinInt64 <= LeadingFigure(t) <= MaxInt64
    ensures ScanInt(Render(t)) == Some(LeadingFigure(t))
  {
    match t
    case WholeSeconds(seconds, negativeZero) =>
      if negativeZero {
        ScanNegative(NatToString(0), " seconds");
      } else {
        ScanIntRoundTrip(seconds, " seconds");
      }
    case MinutesAndSeconds(minutes, seconds) =>
      ScanIntRoundTrip(minutes, "m " + IntToString(seconds) + "s");
    case WholeMinutes(minutes) =>
      ScanIntRoundTrip(minutes, " minutes");
    case HoursAndMinutes(hours, minutes) =>
      ScanIntRoundTrip(hours, "h " + IntToString(minutes) + "m");
    case WholeHours(hours) =>
      ScanIntRoundTrip(hours, " hours");
  }

  /** The text of each form `formatDuration` prints, in terms of the
      duration itself. */
  lemma RenderedText(d: int)
    ensures d < Minute && d < 0 && RoundToSeconds(d) == 0 ==> Render(DescribeDuration(d)) == "-0 seconds"
    ensures d < Minute && !(d < 0 && RoundToSeconds(d) == 0) ==> Render(DescribeDuration(d)) == IntToString(RoundToSeconds(d)) + " seconds"
    ensures Minute <= d < Hour && (d / Second) % 60 > 0 ==>
      Render(DescribeDuration(d)) == IntToString(d / Minute) + "m " + IntToString((d / Second) % 60) + "s"
    ensures Minute <= d < Hour && (d / Second) % 60 == 0 ==> Render(DescribeDuration(d)) == IntToString(d / Minute) + " minutes"
    ensures Hour <= d && (d / Minute) % 60 > 0 ==>
      Render(DescribeDuration(d)) == IntToString(d / Hour) + "h " + IntToString((d / Minute) % 60) + "m"
    ensures Hour <= d && (d / Minute) % 60 == 0 ==> Render(DescribeDuration(d)) == IntToString(d / Hour) + " hours"
  {
    if d < Minute {
      SecondsText(d);
    } else if d < Hour {
      MinutesText(d);
    } else {
      HoursText(d);
    }
  }

  lemma SecondsText(d: int)
    requires d < Minute
    ensures d < 0 && RoundToSeconds(d) == 0 ==> Render(DescribeDuration(d)) == "-0 seconds"
    ensures !(d < 0 && RoundToSeconds(d) == 0) ==> Render(DescribeDuration(d)) == IntToString(RoundToSeconds(d)) + " seconds"
  {
    var seconds := RoundToSeconds(d);
    assert DescribeDuration(d) == WholeSeconds(seconds, d < 0 && seconds == 0);
    assert NatToString(0) == "0";
  }

  lemma MinutesText(d: int)
    requires Minute <= d < Hour
    ensures (d / Second) % 60 > 0 ==>
      Render(DescribeDuration(d)) == IntToString(d / Minute) + "m " + IntToString((d / Second) % 60) + "s"
    ensures (d / Second) % 60 == 0 ==> Render(DescribeDuration(d)) == IntToString(d / Minute) + " minutes"
  {
    var minutes, seconds := d / Minute, (d / Second) % 60;
    assert DescribeDuration(d) == if seconds > 0 then MinutesAndSeconds(minutes, seconds) else WholeMinutes(minutes);
  }

  lemma HoursText(d: int)
    requires Hour <= d
    ensures (d / Minute) % 60 > 0 ==>
      Render(DescribeDuration(d)) == IntToString(d / Hour) + "h " + IntToString((d / Minute) % 60) + "m"
    ensures (d / Minute) % 60 == 0 ==> Render(DescribeDuration(d)) == IntToString(d / Hour) + " hours"
  {
    var hours, minutes := d / Hour, (d / Minute) % 60;
    assert DescribeDuration(d) == if minutes > 0 then HoursAndMinutes(hours, minutes) else WholeHours(hours);
  }

  /** `formatDuration`. The number the text leads with is the duration in
      its largest unit: rounded seconds under a minute, whole minutes under
      an hour, whole hours beyond. The second figure is the whole seconds
      or minutes left over, and is left out with its unit when it is zero. */
  function FormatDuration(d: int): (s: string)
    ensures MinInt64 <= d <= MaxInt64 ==> ScanInt(s) == Some(
      if d < Minute then RoundToSeconds(d)
      else if d < Hour then d / Minute
      else d / Hour)
    ensures d < Minute && d < 0 && RoundToSeconds(d) == 0 ==> s == "-0 seconds"
    ensures d < Minute && !(d < 0 && RoundToSeconds(d) == 0) ==> s == IntToString(RoundToSeconds(d)) + " seconds"
    ensures Minute <= d < Hour && (d / Second) % 60 > 0 ==>
      s == IntToString(d / Minute) + "m " + IntToString((d / Second) % 60) + "s"
    ensures Minute <= d < Hour && (d / Second) % 60 == 0 ==> s == IntToString(d / Minute) + " minutes"
    ensures Hour <= d && (d / Minute) % 60 > 0 ==>
      s == IntToString(d / Hour) + "h " + IntToString((d / Minute) % 60) + "m"
    ensures Hour <= d && (d / Minute) % 60 == 0 ==> s == IntToString(d / Hour) + " hours"
  {
    var t := DescribeDuration(d);
    RenderedText(d);
    if !(MinInt64 <= d <= MaxInt64) then Render(t)
    else if d < Minute then
      ScanRendered(t);
      Render(t)
    else if d < Hour then
      MinutesAndSecondsOf(d);
      ScanRendered(t);
      Render(t)
    else
      HoursAndMinutesOf(d);
      ScanRendered(t);
      Render(t)
  }

  // ---------------------------------------------------------------------
  // Commands. Each command receives the configuration BuildConfig produced,
  // which has passed validation, and the chain the client talks to.

  /** What `predict` computes. */
  datatype PredictMode = NextBlocks(count: int) | TargetHeight(height: int)

  /** The choice `runPredict` makes: an argument replaces the --height flag
      (and must scan as an integer), a positive --next wins over any target,
      a positive target comes next, and otherwise the next ten blocks. */
  function SelectPredictMode(args: seq<string>, heightFlag: int, nextFlag: int): (r: Result<PredictMode>)
    ensures r.Err? <==> |args| > 0 && ScanInt(args[0]).None?
    ensures r.Err? ==> r.error == InvalidTargetHeight(args[0])
    ensures r.Ok? && r.value.NextBlocks? ==> r.value.count > 0
    ensures r.Ok? && r.value.TargetHeight? ==> r.value.height > 0 && nextFlag <= 0
    ensures r.Ok? && nextFlag > 0 ==> r.value == NextBlocks(nextFlag)
    ensures r.Ok? && nextFlag <= 0 && |args| > 0 && ScanInt(args[0]).value > 0 ==>
      r.value == TargetHeight(ScanInt(args[0]).value)
    ensures r.Ok? && nextFlag <= 0 && |args| == 0 && heightFlag > 0 ==> r.value == TargetHeight(heightFlag)
    ensures r.Ok? && r.value == NextBlocks(DefaultNextBlocks) && nextFlag != DefaultNextBlocks ==>
      (if |args| > 0 then ScanInt(args[0]).value else heightFlag) <= 0
    ensures (nextFlag <= 0 && (|args| > 0 ==> ScanInt(args[0]).Some?)
      && (if |args| > 0 then ScanInt(args[0]).value else heightFlag) <= 0) ==>
      r == Ok(NextBlocks(DefaultNextBlocks))
  {
    var target :=
      if |args| > 0 then ScanInt(args[0]) else Some(heightFlag);
    if target.None? then Err(InvalidTargetHeight(args[0]))
    else if nextFlag > 0 then Ok(NextBlocks(nextFlag))
    else if target.value > 0 then Ok(TargetHeight(target.value))
    else Ok(NextBlocks(DefaultNextBlocks))
  }

  /** The calculator every command builds from a validated configuration. */
  function CommandCalculator(cfg: Config.Config): (c: CalculatorConfig)
    requires Config.ValidateConfig(cfg).None?
    ensures c == cfg.calculator && Calculator.Normalized(c)
  {
    Config.ValidatedIsNormalized(cfg);
    Calculator.NewBlockTimeCalculator(Some(cfg.calculator))
  }

  /** `runCalculate`: an explicit range only when both --start-height and
      --end-height are positive, otherwise the window ending at the head. */
  function RunCalculate(cfg: Config.Config, chain: Calculator.Chain, startFlag: int, endFlag: int): (r: Result<BlockTimeStats>)
    requires Config.ValidateConfig(cfg).None?
    ensures cfg.chain.rpcEndpoint == "" ==> r == Err(MissingEndpoint)
    ensures r.Ok? ==>
      && r.value.confidenceLevel == cfg.calculator.confidenceLevel
      && Calculator.Ordered(r.value)
      && Calculator.RangeSound(r.value, cfg.calculator.confidenceLevel)
    ensures r.Ok? && startFlag > 0 && endFlag > 0 ==>
      r.value.startHeight == startFlag && r.value.endHeight == endFlag
    ensures r.Ok? && !(startFlag > 0 && endFlag > 0) ==>
      && chain.latestHeight.Ok?
      && r.value.endHeight == chain.latestHeight.value
      && r.value.endHeight - r.value.startHeight + 1 ==
         (if chain.latestHeight.value < cfg.calculator.sampleSize then chain.latestHeight.value else cfg.calculator.sampleSize)
    ensures cfg.chain.rpcEndpoint != "" && startFlag > 0 && endFlag > 0 ==>
      r == Calculator.CalculateStatsForRange(cfg.calculator, chain, startFlag, endFlag)
    ensures cfg.chain.rpcEndpoint != "" && !(startFlag > 0 && endFlag > 0) ==>
      r == Calculator.CalculateStats(cfg.calculator, chain)
  {
    if cfg.chain.rpcEndpoint == "" then Err(MissingEndpoint)
    else
      var calculator := CommandCalculator(cfg);
      if startFlag > 0 && endFlag > 0 then Calculator.CalculateStatsForRange(calculator, chain, startFlag, endFlag)
      else
        var r := Calculator.CalculateStats(calculator, chain);
        assert r.Ok? ==> chain.latestHeight.Ok? && chain.latestHeight.value >= 1;
        r
  }

  /** The value the "sample-size" key reports when nothing set it: the
      default of the flag bound to the key last, predict's. The three
      commands each declare a --sample-size flag and all are bound to the
      same key, so analyze's own flag (default 500) is not the one read. */
  const UnsetSampleSize: int := 100

  /** The window size `runAnalyze` reads from the "sample-size" key. When
      something set the key, BuildConfig has copied the same value into the
      calculator settings, which validation keeps positive. */
  function AnalyzeWindowSize(cfg: Config.Config, sampleSizeSet: bool): (n: int)
    requires Config.ValidateConfig(cfg).None?
    ensures n > 0
    ensures sampleSizeSet ==> n == cfg.calculator.sampleSize
  {
    Config.ValidatedIsNormalized(cfg);
    if sampleSizeSet then cfg.calculator.sampleSize else UnsetSampleSize
  }

  /** `runAnalyze`: the proposer breakdown of the window of blocks ending
      at the head. */
  function RunAnalyze(cfg: Config.Config, chain: Calculator.Chain, sampleSizeSet: bool): (r: Result<map<string, BlockTimeStats>>)
    requires Config.ValidateConfig(cfg).None?
    ensures cfg.chain.rpcEndpoint == "" ==> r == Err(MissingEndpoint)
    ensures cfg.chain.rpcEndpoint != "" && chain.latestHeight.Err? ==>
      r == Err(Wrapped(LatestHeightQuery, chain.latestHeight.error))
    ensures cfg.chain.rpcEndpoint != "" && chain.latestHeight.Ok? && chain.latestHeight.value < 1 ==>
      r == Err(Wrapped(BlockRangeQuery, InvalidRange(1, chain.latestHeight.value)))
    ensures cfg.chain.rpcEndpoint != "" && chain.latestHeight.Ok? && chain.latestHeight.value >= 1 ==>
      var head := chain.latestHeight.value;
      var start := Calculator.WindowStart(head, AnalyzeWindowSize(cfg, sampleSizeSet));
      match chain.blockRange(start, head)
      case Err(e) => r == Err(Wrapped(BlockRangeQuery, e))
      case Ok(blocks) => r == Ok(Calculator.AnalyzeProposerPatterns(cfg.calculator, blocks))
    ensures r.Ok? ==>
      && chain.latestHeight.Ok?
      && var head := chain.latestHeight.value;
      var size := AnalyzeWindowSize(cfg, sampleSizeSet);
      var start := Calculator.WindowStart(head, size);
      && 1 <= start <= head
      && head - start + 1 == (if head < size then head else size)
      && chain.blockRange(start, head).Ok?
      && var blocks := chain.blockRange(start, head).value;
      && (forall p :: p in r.value <==> |Calculator.ProposerTimes(blocks, p)| >= Calculator.MinProposerBlocks)
      && (forall p :: p in r.value ==> r.value[p].sampleSize == |Calculator.ProposerTimes(blocks, p)|)
  {
    if cfg.chain.rpcEndpoint == "" then Err(MissingEndpoint)
    else
      var calculator := CommandCalculator(cfg);
      match chain.latestHeight
      case Err(e) => Err(Wrapped(LatestHeightQuery, e))
      case Ok(head) =>
        var start := Calculator.WindowStart(head, AnalyzeWindowSize(cfg, sampleSizeSet));
        if start > head then Err(Wrapped(BlockRangeQuery, InvalidRange(start, head)))
        else
          match chain.blockRange(start, head)
          case Err(e) => Err(Wrapped(BlockRangeQuery, e))
          case Ok(blocks) => Ok(Calculator.AnalyzeProposerPatterns(calculator, blocks))
  }

  /** What `predict` reports. */
  datatype PredictOutput =
    | Single(prediction: Predictor.BlockPrediction)
    | Multiple(schedule: Predictor.MultiBlockPrediction)

  /** `runPredict`. The count it hands the predictor is always positive, so
      the predictor's count check never fires from the command line. */
  method RunPredict(cfg: Config.Config, chain: Calculator.Chain, args: seq<string>, heightFlag: int, nextFlag: int, now: real)
    returns (r: Result<PredictOutput>)
    requires Config.ValidateConfig(cfg).None?
    ensures cfg.chain.rpcEndpoint == "" ==> r == Err(MissingEndpoint)
    ensures cfg.chain.rpcEndpoint != "" && |args| > 0 && ScanInt(args[0]).None? ==>
      r == Err(InvalidTargetHeight(args[0]))
    ensures r.Err? ==> r.error != NonPositiveCount
    ensures (cfg.chain.rpcEndpoint != "" && SelectPredictMode(args, heightFlag, nextFlag).Ok? && chain.latestHeight.Ok?
      && var mode, head := SelectPredictMode(args, heightFlag, nextFlag).value, chain.latestHeight.value;
      if mode.TargetHeight? && mode.height <= head then chain.blockAt(mode.height).Ok?
      else Calculator.CalculateStats(CommandCalculator(cfg), chain).Ok? && chain.blockAt(head).Ok?) ==>
      r.Ok?
    ensures r.Ok? ==> SelectPredictMode(args, heightFlag, nextFlag).Ok?
    ensures r.Ok? && r.value.Multiple? ==>
      && SelectPredictMode(args, heightFlag, nextFlag).value.NextBlocks?
      && |r.value.schedule.predictions| == SelectPredictMode(args, heightFlag, nextFlag).value.count
    ensures r.Ok? && r.value.Single? ==>
      SelectPredictMode(args, heightFlag, nextFlag) == Ok(TargetHeight(r.value.prediction.targetHeight))
    ensures cfg.chain.rpcEndpoint != "" && SelectPredictMode(args, heightFlag, nextFlag).Ok? && chain.latestHeight.Err? ==>
      r == Err(Wrapped(LatestHeightQuery, chain.latestHeight.error))
    ensures (cfg.chain.rpcEndpoint != "" && SelectPredictMode(args, heightFlag, nextFlag).Ok?
      && SelectPredictMode(args, heightFlag, nextFlag).value.TargetHeight?) ==>
      r == match Predictor.PredictBlockTime(cfg.calculator, chain, SelectPredictMode(args, heightFlag, nextFlag).value.height, now)
        case Ok(p) => Ok(Single(p))
        case Err(e) => Err(e)
    ensures (cfg.chain.rpcEndpoint != "" && SelectPredictMode(args, heightFlag, nextFlag).Ok?
      && SelectPredictMode(args, heightFlag, nextFlag).value.NextBlocks? && chain.latestHeight.Ok?
      && Calculator.CalculateStats(cfg.calculator, chain).Err?) ==>
      r == Err(Wrapped(StatisticsQuery, Calculator.CalculateStats(cfg.calculator, chain).error))
    ensures (cfg.chain.rpcEndpoint != "" && SelectPredictMode(args, heightFlag, nextFlag).Ok?
      && SelectPredictMode(args, heightFlag, nextFlag).value.NextBlocks? && chain.latestHeight.Ok?
      && Calculator.CalculateStats(cfg.calculator, chain).Ok? && chain.blockAt(chain.latestHeight.value).Err?) ==>
      r == Err(Wrapped(CurrentBlockQuery, chain.blockAt(chain.latestHeight.value).error))
    ensures r.Ok? && r.value.Multiple? ==>
      && chain.latestHeight.Ok?
      && Calculator.CalculateStats(cfg.calculator, chain).Ok?
      && var stats, m := Calculator.CalculateStats(cfg.calculator, chain).value, r.value.schedule;
      && m.currentHeight == chain.latestHeight.value
      && m.currentTime == now
      && m.stats == stats
      && Predictor.Schedule(m.predictions, chain.latestHeight.value,
           SelectPredictMode(args, heightFlag, nextFlag).value.count, stats.estimatedRange.typical, now)
  {
    if cfg.chain.rpcEndpoint == "" {
      return Err(MissingEndpoint);
    }
    var calculator := CommandCalculator(cfg);
    var mode := SelectPredictMode(args, heightFlag, nextFlag);
    if mode.Err? {
      return Err(mode.error);
    }
    match mode.value {
      case NextBlocks(count) =>
        var schedule := Predictor.PredictNextBlocks(calculator, chain, count, now);
        if schedule.Err? {
          return Err(schedule.error);
        }
        r := Ok(Multiple(schedule.value));
      case TargetHeight(height) =>
        var prediction := Predictor.PredictBlockTime(calculator, chain, height, now);
        if prediction.Err? {
          return Err(prediction.error);
        }
        r := Ok(Single(prediction.value));
    }
  }
}
