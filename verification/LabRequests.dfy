/** parseBacktestRecommendRequest and parseBacktestReplayRequest in apps/web/src/lib/backtest-lab.ts. A JSON
    object is a record of the properties the parsers read; a property that is absent is None. */
module LabRequests {
  import opened DraftCapital
  import opened Wrappers

  /** Other stands for an array or an object where a scalar is read. */
  datatype Value = Null | Num(num: real) | Text(text: string) | Flag(flag: bool) | Other

  type Property = Option<Value>

  datatype ConfigRecord = ConfigRecord(
    budgetUsd: Property, maxDeployableUsd: Property, reserveQuoteAmount: Property, entryMode: Property,
    lowPrice: Property, highPrice: Property, levelCount: Property, gridType: Property, strategyMode: Property,
    rangeControlMode: Property, minOrderMode: Property, minOrderQuoteAmount: Property, maxSlippageBps: Property,
    executionFeeBps: Property, cooldownMs: Property, maxOrdersPerHour: Property, maxDrawdownPct: Property,
    maxConsecutiveFailures: Property, levelLockMs: Property, priceConfirmationWindowMs: Property,
    recenterMode: Property, recenterModel: Property, autoRecenterMinIntervalMs: Property,
    autoRecenterMaxPerDay: Property, outOfRangePause: Property)

  /** config and executionCosts are None when the property is absent, Some(None) when it is not an object. */
  datatype Body = Body(
    pair: Property, budgetUsd: Property, maxDeployableUsd: Property, reserveQuoteAmount: Property, entryMode: Property,
    lookbackDays: Property, resolution: Property, rangeMethod: Property, strategyMode: Property,
    config: Option<Option<ConfigRecord>>, executionCosts: Option<Option<Property>>)

  /** The parsed configuration; the properties TypeScript marks optional are options. */
  datatype Config = Config(
    budgetUsd: real, maxDeployableUsd: real, reserveQuoteAmount: real, entryMode: string,
    lowPrice: real, highPrice: real, levelCount: real, gridType: string, strategyMode: string,
    rangeControlMode: Option<string>, minOrderMode: string, minOrderQuoteAmount: real, maxSlippageBps: real,
    executionFeeBps: Option<real>, cooldownMs: real, maxOrdersPerHour: real, maxDrawdownPct: real,
    maxConsecutiveFailures: real, levelLockMs: real, priceConfirmationWindowMs: real,
    recenterMode: Option<string>, recenterModel: Option<string>, autoRecenterMinIntervalMs: Option<real>,
    autoRecenterMaxPerDay: Option<real>, outOfRangePause: bool)

  datatype Replay = Replay(
    pair: string, budgetUsd: real, maxDeployableUsd: real, reserveQuoteAmount: real, entryMode: string,
    lookbackDays: real, resolution: string, rangeMethod: string, strategyMode: Option<string>, config: Config,
    costMode: string)

  const AUTO_RECENTER := "auto_recenter"
  const MANUAL_RECENTER := "manual_recenter"
  const WORKER_FLAT := "worker_flat"
  const CANDLE_DEFENSE := "candle_defense"
  const NORMAL := "normal"
  const STATIC := "static"
  const ADAPTIVE := "adaptive"
  const SIX_HOURS := 21_600_000.0

  const GRID_TYPES := ["arithmetic", "geometric"]
  const STRATEGIES := ["accumulate_usdc", "balanced", "accumulate_base"]
  const MIN_ORDER_MODES := ["auto", "manual"]
  const RECENTER_MODES := [MANUAL_RECENTER, AUTO_RECENTER]
  const RECENTER_MODELS := [WORKER_FLAT, CANDLE_DEFENSE]
  const RANGE_MODES := [STATIC, ADAPTIVE]
  const ENTRY_MODES := [NORMAL, "sell_only"]
  const PAIRS := ["SOL", "BTC", "HYPE"]
  const RESOLUTIONS := ["5m", "30m", "1h", "4h"]
  const RANGE_METHODS := ["rebounds", "distribution"]
  const COST_MODES := ["calibrated", "fixed", "stress"]
  const LOOKBACKS := [7.0, 14.0, 30.0, 60.0, 90.0, 180.0]

  // ---------------------------------------------------------------- the small readers

  predicate IsNum(v: Property) { v.Some? && v.value.Num? }

  predicate IsOneOf(v: Property, allowed: seq<string>) { v.Some? && v.value.Text? && v.value.text in allowed }

  predicate IsFlag(v: Property) { v.Some? && v.value.Flag? }

  predicate Missing(v: Property) { v.None? || v.value.Null? }

  predicate Whole(x: real) { x == x.Floor as real }

  predicate IsPositive(v: Property) { IsNum(v) && v.value.num > 0.0 }

  predicate IsPositiveWhole(v: Property) { IsPositive(v) && Whole(v.value.num) }

  function NumOr(v: Property, fallback: real): real
    requires Missing(v) || IsNum(v)
  {
    if Missing(v) then fallback else v.value.num
  }

  function TextOr(v: Property, fallback: string): string
    requires v.None? || v.value.Text?
  {
    if v.None? then fallback else v.value.text
  }

  predicate IsOptionalWhole(v: Property) { Missing(v) || (IsNum(v) && Whole(v.value.num) && v.value.num >= 0.0) }

  // ---------------------------------------------------------------- the recommend half

  function MaxLookback(resolution: string): real {
    if resolution == "5m" then 14.0 else if resolution == "30m" then 30.0 else 180.0
  }

  function SharedReserve(b: Body): real
    requires Missing(b.reserveQuoteAmount) || IsNum(b.reserveQuoteAmount)
  {
    Max0(NumOr(b.reserveQuoteAmount, 0.0))
  }

  function SharedDeployable(b: Body): real
    requires IsNum(b.budgetUsd) && (Missing(b.reserveQuoteAmount) || IsNum(b.reserveQuoteAmount))
    requires Missing(b.maxDeployableUsd) || IsNum(b.maxDeployableUsd)
  {
    Max0(NumOr(b.maxDeployableUsd, b.budgetUsd.value.num - SharedReserve(b)))
  }

  predicate RecommendOk(b: Body) {
    && IsNum(b.lookbackDays) && b.lookbackDays.value.num in LOOKBACKS
    && IsOneOf(b.resolution, RESOLUTIONS) && b.lookbackDays.value.num <= MaxLookback(b.resolution.value.text)
    && IsPositive(b.budgetUsd)
    && (Missing(b.reserveQuoteAmount) || IsNum(b.reserveQuoteAmount))
    && (Missing(b.maxDeployableUsd) || IsNum(b.maxDeployableUsd))
    && SharedReserve(b) <= b.budgetUsd.value.num && SharedDeployable(b) <= b.budgetUsd.value.num - SharedReserve(b)
    && IsOneOf(b.pair, PAIRS)
    && (b.entryMode.None? || IsOneOf(b.entryMode, ENTRY_MODES))
    && (b.rangeMethod.None? || IsOneOf(b.rangeMethod, RANGE_METHODS))
    && (b.strategyMode.None? || IsOneOf(b.strategyMode, STRATEGIES))
  }

  // ---------------------------------------------------------------- the config half

  function DefaultRecenterModel(recenterMode: string, rangeControlMode: string): string {
    if recenterMode == AUTO_RECENTER && rangeControlMode == STATIC then WORKER_FLAT else CANDLE_DEFENSE
  }

  predicate ConfigOk(c: ConfigRecord) {
    && (c.rangeControlMode.None? || IsOneOf(c.rangeControlMode, RANGE_MODES))
    && (c.recenterMode.None? || IsOneOf(c.recenterMode, RECENTER_MODES))
    && IsPositive(c.budgetUsd)
    && (Missing(c.maxDeployableUsd) || IsNum(c.maxDeployableUsd))
    && (Missing(c.reserveQuoteAmount) || IsNum(c.reserveQuoteAmount))
    && (c.entryMode.None? || IsOneOf(c.entryMode, ENTRY_MODES))
    && IsPositive(c.lowPrice) && IsPositive(c.highPrice) && IsPositiveWhole(c.levelCount)
    && IsOneOf(c.gridType, GRID_TYPES) && IsOneOf(c.strategyMode, STRATEGIES) && IsOneOf(c.minOrderMode, MIN_ORDER_MODES)
    && IsPositive(c.minOrderQuoteAmount) && IsNum(c.maxSlippageBps)
    && (Missing(c.executionFeeBps) || IsNum(c.executionFeeBps))
    && IsNum(c.cooldownMs) && IsPositiveWhole(c.maxOrdersPerHour) && IsNum(c.maxDrawdownPct)
    && IsPositiveWhole(c.maxConsecutiveFailures) && IsNum(c.levelLockMs) && IsNum(c.priceConfirmationWindowMs)
    && (c.recenterModel.None? || IsOneOf(c.recenterModel, RECENTER_MODELS))
    && IsOptionalWhole(c.autoRecenterMinIntervalMs) && IsOptionalWhole(c.autoRecenterMaxPerDay)
    && IsFlag(c.outOfRangePause)
  }

  function ConfigOf(c: ConfigRecord, deployable: real, reserve: real, entryMode: string): Config
    requires ConfigOk(c)
  {
    var rangeControl := TextOr(c.rangeControlMode, STATIC);
    var recenter := TextOr(c.recenterMode, MANUAL_RECENTER);
    Config(c.budgetUsd.value.num, Max0(NumOr(c.maxDeployableUsd, deployable)), Max0(NumOr(c.reserveQuoteAmount, reserve)),
           TextOr(c.entryMode, entryMode), c.lowPrice.value.num, c.highPrice.value.num, c.levelCount.value.num,
           c.gridType.value.text, c.strategyMode.value.text, Some(rangeControl), c.minOrderMode.value.text,
           c.minOrderQuoteAmount.value.num, Max0(c.maxSlippageBps.value.num), Some(Max0(NumOr(c.executionFeeBps, 10.0))),
           Max0(c.cooldownMs.value.num), c.maxOrdersPerHour.value.num, Max0(c.maxDrawdownPct.value.num),
           c.maxConsecutiveFailures.value.num, Max0(c.levelLockMs.value.num), Max0(c.priceConfirmationWindowMs.value.num),
           Some(recenter), Some(TextOr(c.recenterModel, DefaultRecenterModel(recenter, rangeControl))),
           Some(NumOr(c.autoRecenterMinIntervalMs, SIX_HOURS)), Some(NumOr(c.autoRecenterMaxPerDay, 2.0)),
           c.outOfRangePause.value.flag)
  }

  predicate FitsBudget(c: Config) {
    c.reserveQuoteAmount <= c.budgetUsd && c.maxDeployableUsd <= c.budgetUsd - c.reserveQuoteAmount
  }

  // ---------------------------------------------------------------- the parser

  predicate CostsOk(costs: Option<Option<Property>>) {
    costs.None? || (costs.value.Some? && IsOneOf(costs.value.value, COST_MODES))
  }

  function ReplayOf(b: Body): Replay
    requires RecommendOk(b) && b.config.Some? && b.config.value.Some? && ConfigOk(b.config.value.value) && CostsOk(b.executionCosts)
  {
    var entryMode := TextOr(b.entryMode, NORMAL);
    Replay(b.pair.value.text, b.budgetUsd.value.num, SharedDeployable(b), SharedReserve(b), entryMode,
           b.lookbackDays.value.num, b.resolution.value.text, TextOr(b.rangeMethod, "rebounds"),
           if b.strategyMode.None? then None else Some(b.strategyMode.value.text),
           ConfigOf(b.config.value.value, SharedDeployable(b), SharedReserve(b), entryMode),
           if b.executionCosts.None? then "calibrated" else b.executionCosts.value.value.value.text)
  }

  /** None for any of the thrown errors. */
  function ParseReplay(b: Body): Option<Replay> {
    if RecommendOk(b) && b.config.Some? && b.config.value.Some? && ConfigOk(b.config.value.value) && CostsOk(b.executionCosts)
       && FitsBudget(ReplayOf(b).config)
    then Some(ReplayOf(b)) else None
  }

  // ---------------------------------------------------------------- writing a request back

  function NumProp(x: real): Property { Some(Num(x)) }
  function TextProp(s: string): Property { Some(Text(s)) }
  function OptNum(x: Option<real>): Property { if x.None? then None else NumProp(x.value) }
  function OptText(s: Option<string>): Property { if s.None? then None else TextProp(s.value) }

  /** JSON.stringify leaves undefined properties out. */
  function WriteConfig(c: Config): ConfigRecord {
    ConfigRecord(
      NumProp(c.budgetUsd), NumProp(c.maxDeployableUsd), NumProp(c.reserveQuoteAmount), TextProp(c.entryMode),
      NumProp(c.lowPrice), NumProp(c.highPrice), NumProp(c.levelCount), TextProp(c.gridType), TextProp(c.strategyMode),
      OptText(c.rangeControlMode), TextProp(c.minOrderMode), NumProp(c.minOrderQuoteAmount), NumProp(c.maxSlippageBps),
      OptNum(c.executionFeeBps), NumProp(c.cooldownMs), NumProp(c.maxOrdersPerHour), NumProp(c.maxDrawdownPct),
      NumProp(c.maxConsecutiveFailures), NumProp(c.levelLockMs), NumProp(c.priceConfirmationWindowMs),
      OptText(c.recenterMode), OptText(c.recenterModel), OptNum(c.autoRecenterMinIntervalMs),
      OptNum(c.autoRecenterMaxPerDay), Some(Flag(c.outOfRangePause)))
  }

  function WriteReplay(r: Replay): Body {
    Body(TextProp(r.pair), NumProp(r.budgetUsd), NumProp(r.maxDeployableUsd), NumProp(r.reserveQuoteAmount), TextProp(r.entryMode),
         NumProp(r.lookbackDays), TextProp(r.resolution), TextProp(r.rangeMethod), OptText(r.strategyMode),
         Some(Some(WriteConfig(r.config))), Some(Some(TextProp(r.costMode))))
  }

  // ---------------------------------------------------------------- a projection

  /** The configurations the parser can produce. */
  ghost predicate ValidConfig(c: Config) {
    && c.budgetUsd > 0.0 && c.maxDeployableUsd >= 0.0 && c.reserveQuoteAmount >= 0.0 && FitsBudget(c)
    && c.entryMode in ENTRY_MODES && c.lowPrice > 0.0 && c.highPrice > 0.0 && c.levelCount > 0.0 && Whole(c.levelCount)
    && c.gridType in GRID_TYPES && c.strategyMode in STRATEGIES && c.minOrderMode in MIN_ORDER_MODES
    && c.rangeControlMode.Some? && c.rangeControlMode.value in RANGE_MODES
    && c.minOrderQuoteAmount > 0.0 && c.maxSlippageBps >= 0.0 && c.executionFeeBps.Some? && c.executionFeeBps.value >= 0.0
    && c.cooldownMs >= 0.0 && c.maxOrdersPerHour > 0.0 && Whole(c.maxOrdersPerHour) && c.maxDrawdownPct >= 0.0
    && c.maxConsecutiveFailures > 0.0 && Whole(c.maxConsecutiveFailures) && c.levelLockMs >= 0.0
    && c.priceConfirmationWindowMs >= 0.0
    && c.recenterMode.Some? && c.recenterMode.value in RECENTER_MODES
    && c.recenterModel.Some? && c.recenterModel.value in RECENTER_MODELS
    && c.autoRecenterMinIntervalMs.Some? && Whole(c.autoRecenterMinIntervalMs.value) && c.autoRecenterMinIntervalMs.value >= 0.0
    && c.autoRecenterMaxPerDay.Some? && Whole(c.autoRecenterMaxPerDay.value) && c.autoRecenterMaxPerDay.value >= 0.0
  }

  ghost predicate ValidReplay(r: Replay) {
    && r.lookbackDays in LOOKBACKS && r.resolution in RESOLUTIONS && r.lookbackDays <= MaxLookback(r.resolution)
    && r.budgetUsd > 0.0 && 0.0 <= r.reserveQuoteAmount <= r.budgetUsd
    && 0.0 <= r.maxDeployableUsd <= r.budgetUsd - r.reserveQuoteAmount
    && r.pair in PAIRS && r.entryMode in ENTRY_MODES && r.rangeMethod in RANGE_METHODS
    && (r.strategyMode.Some? ==> r.strategyMode.value in STRATEGIES)
    && ValidConfig(r.config) && r.costMode in COST_MODES
  }

  /** The enumerations of a request, and the longest lookback for each resolution. */
  lemma RequestWords(r: Replay)
    requires ValidReplay(r)
    ensures r.pair in {"SOL", "BTC", "HYPE"} && r.resolution in {"5m", "30m", "1h", "4h"} && r.entryMode in {"normal", "sell_only"}
    ensures r.rangeMethod in {"rebounds", "distribution"} && r.costMode in {"calibrated", "fixed", "stress"}
    ensures r.lookbackDays in {7.0, 14.0, 30.0, 60.0, 90.0, 180.0}
    ensures r.lookbackDays <= if r.resolution == "5m" then 14.0 else if r.resolution == "30m" then 30.0 else 180.0
  {
    hide ValidConfig;
  }

  /** None of them is missing. */
  lemma EveryWordAllowed()
    ensures forall w :: w in {"SOL", "BTC", "HYPE"} ==> w in PAIRS
    ensures forall w :: w in {"5m", "30m", "1h", "4h"} ==> w in RESOLUTIONS
    ensures forall w :: w in {"rebounds", "distribution"} ==> w in RANGE_METHODS
    ensures forall w :: w in {"calibrated", "fixed", "stress"} ==> w in COST_MODES
    ensures forall d :: d in {7.0, 14.0, 30.0, 60.0, 90.0, 180.0} ==> d in LOOKBACKS
  {
    assert PAIRS[0] == "SOL" && PAIRS[1] == "BTC" && PAIRS[2] == "HYPE";
    assert RESOLUTIONS[0] == "5m" && RESOLUTIONS[1] == "30m" && RESOLUTIONS[2] == "1h" && RESOLUTIONS[3] == "4h";
    assert RANGE_METHODS[0] == "rebounds" && RANGE_METHODS[1] == "distribution";
    assert COST_MODES[0] == "calibrated" && COST_MODES[1] == "fixed" && COST_MODES[2] == "stress";
    assert LOOKBACKS[0] == 7.0 && LOOKBACKS[1] == 14.0 && LOOKBACKS[2] == 30.0;
    assert LOOKBACKS[3] == 60.0 && LOOKBACKS[4] == 90.0 && LOOKBACKS[5] == 180.0;
  }

  lemma DefaultsAreAllowed()
    ensures NORMAL in ENTRY_MODES && STATIC in RANGE_MODES && MANUAL_RECENTER in RECENTER_MODES
    ensures WORKER_FLAT in RECENTER_MODELS && CANDLE_DEFENSE in RECENTER_MODELS
    ensures "rebounds" in RANGE_METHODS && "calibrated" in COST_MODES
    ensures Whole(SIX_HOURS) && SIX_HOURS >= 0.0 && Whole(2.0)
  {
    assert ENTRY_MODES[0] == NORMAL && RANGE_MODES[0] == STATIC && RECENTER_MODES[0] == MANUAL_RECENTER;
    assert RECENTER_MODELS[0] == WORKER_FLAT && RECENTER_MODELS[1] == CANDLE_DEFENSE;
    assert RANGE_METHODS[0] == "rebounds" && COST_MODES[0] == "calibrated";
  }

  /** Whatever the body, an accepted request is valid. */
  lemma ParsedIsValid(b: Body)
    requires ParseReplay(b).Some?
    ensures ValidReplay(ParseReplay(b).value)
  {
    DefaultsAreAllowed();
    hide ENTRY_MODES, RANGE_MODES, RECENTER_MODES, RECENTER_MODELS, RANGE_METHODS, COST_MODES, STRATEGIES, GRID_TYPES,
      MIN_ORDER_MODES, PAIRS, RESOLUTIONS, LOOKBACKS, NORMAL, STATIC, MANUAL_RECENTER, WORKER_FLAT, CANDLE_DEFENSE,
      AUTO_RECENTER, MaxLookback, Whole, SIX_HOURS;
  }

  /** Writing a valid request and parsing it gives the request back. */
  lemma ValidReadsBack(r: Replay)
    requires ValidReplay(r)
    ensures ParseReplay(WriteReplay(r)) == Some(r)
  {
    hide ENTRY_MODES, RANGE_MODES, RECENTER_MODES, RECENTER_MODELS, RANGE_METHODS, COST_MODES, STRATEGIES, GRID_TYPES,
      MIN_ORDER_MODES, PAIRS, RESOLUTIONS, LOOKBACKS, NORMAL, STATIC, MANUAL_RECENTER, WORKER_FLAT, CANDLE_DEFENSE,
      AUTO_RECENTER, MaxLookback, Whole, SIX_HOURS;
  }

  /** The parser is a projection: its output, written back, is accepted and unchanged. And its outputs are
      exactly the requests that read back as themselves. */
  lemma ReplayProjection(b: Body, r: Replay)
    ensures ParseReplay(b).Some? ==> ParseReplay(WriteReplay(ParseReplay(b).value)) == ParseReplay(b)
    ensures ParseReplay(WriteReplay(r)) == Some(r) <==> ValidReplay(r)
  {
    hide *;
    if ParseReplay(b).Some? {
      ParsedIsValid(b);
      ValidReadsBack(ParseReplay(b).value);
    }
    if ValidReplay(r) { ValidReadsBack(r); }
    if ParseReplay(WriteReplay(r)).Some? { ParsedIsValid(WriteReplay(r)); }
  }

  // ---------------------------------------------------------------- what is read

  ghost function NumberIn(p: Property, fallback: real): real {
    match p
    case Some(Num(x)) => x
    case _ => fallback
  }

  ghost function WordIn(p: Property, fallback: string): string {
    match p
    case Some(Text(s)) => s
    case _ => fallback
  }

  ghost function NotBelowZero(x: real): real { if x < 0.0 then 0.0 else x }

  /** The shared half of an accepted request, property by property, with the defaults of absent ones. */
  ghost predicate ReadsShared(r: Replay, b: Body) {
    && b.pair == Some(Text(r.pair)) && b.budgetUsd == Some(Num(r.budgetUsd)) && b.lookbackDays == Some(Num(r.lookbackDays))
    && b.resolution == Some(Text(r.resolution))
    && r.reserveQuoteAmount == NotBelowZero(NumberIn(b.reserveQuoteAmount, 0.0))
    && r.maxDeployableUsd == NotBelowZero(NumberIn(b.maxDeployableUsd, r.budgetUsd - r.reserveQuoteAmount))
    && r.entryMode == WordIn(b.entryMode, "normal") && r.rangeMethod == WordIn(b.rangeMethod, "rebounds")
    && (r.strategyMode.None? <==> b.strategyMode.None?) && (r.strategyMode.Some? ==> b.strategyMode == Some(Text(r.strategyMode.value)))
    && r.costMode == (if b.executionCosts.None? then "calibrated" else WordIn(b.executionCosts.value.UnwrapOr(None), ""))
  }

  /** The configuration of an accepted request, property by property; its capital and entry mode default to those of
      the request. */
  ghost predicate ReadsConfig(c: Config, p: ConfigRecord, r: Replay) {
    && p.budgetUsd == Some(Num(c.budgetUsd)) && c.maxDeployableUsd == NotBelowZero(NumberIn(p.maxDeployableUsd, r.maxDeployableUsd))
    && c.reserveQuoteAmount == NotBelowZero(NumberIn(p.reserveQuoteAmount, r.reserveQuoteAmount))
    && c.entryMode == WordIn(p.entryMode, r.entryMode)
    && p.lowPrice == Some(Num(c.lowPrice)) && p.highPrice == Some(Num(c.highPrice)) && p.levelCount == Some(Num(c.levelCount))
    && p.gridType == Some(Text(c.gridType)) && p.strategyMode == Some(Text(c.strategyMode))
    && p.minOrderMode == Some(Text(c.minOrderMode)) && p.minOrderQuoteAmount == Some(Num(c.minOrderQuoteAmount))
    && c.maxSlippageBps == NotBelowZero(NumberIn(p.maxSlippageBps, 0.0))
    && c.executionFeeBps == Some(NotBelowZero(NumberIn(p.executionFeeBps, 10.0)))
    && c.cooldownMs == NotBelowZero(NumberIn(p.cooldownMs, 0.0)) && p.maxOrdersPerHour == Some(Num(c.maxOrdersPerHour))
    && c.maxDrawdownPct == NotBelowZero(NumberIn(p.maxDrawdownPct, 0.0))
    && p.maxConsecutiveFailures == Some(Num(c.maxConsecutiveFailures))
    && c.levelLockMs == NotBelowZero(NumberIn(p.levelLockMs, 0.0))
    && c.priceConfirmationWindowMs == NotBelowZero(NumberIn(p.priceConfirmationWindowMs, 0.0))
    && c.rangeControlMode == Some(WordIn(p.rangeControlMode, "static"))
    && c.recenterMode == Some(WordIn(p.recenterMode, "manual_recenter"))
    && c.recenterModel == Some(WordIn(p.recenterModel,
         if c.recenterMode == Some("auto_recenter") && c.rangeControlMode == Some("static") then "worker_flat" else "candle_defense"))
    && c.autoRecenterMinIntervalMs == Some(NumberIn(p.autoRecenterMinIntervalMs, 21_600_000.0))
    && c.autoRecenterMaxPerDay == Some(NumberIn(p.autoRecenterMaxPerDay, 2.0))
    && p.outOfRangePause == Some(Flag(c.outOfRangePause))
  }

  lemma ConfigReads(p: ConfigRecord, r: Replay)
    requires ConfigOk(p)
    ensures ReadsConfig(ConfigOf(p, r.maxDeployableUsd, r.reserveQuoteAmount, r.entryMode), p, r)
  {
    hide ENTRY_MODES, RANGE_MODES, RECENTER_MODES, RECENTER_MODELS, STRATEGIES, GRID_TYPES, MIN_ORDER_MODES, Whole;
  }

  lemma SharedReads(b: Body)
    requires ParseReplay(b).Some?
    ensures ReadsShared(ParseReplay(b).value, b)
  {
    hide ENTRY_MODES, RANGE_METHODS, COST_MODES, STRATEGIES, PAIRS, RESOLUTIONS, LOOKBACKS, MaxLookback, ConfigOk, ConfigOf, FitsBudget;
  }

  /** An accepted request holds what the body says, and 5m and 30m runs are capped at 14 and 30 days. */
  lemma ParsedReads(b: Body)
    requires ParseReplay(b).Some?
    ensures var r := ParseReplay(b).value;
      && ReadsShared(r, b) && b.config.Some? && b.config.value.Some? && ReadsConfig(r.config, b.config.value.value, r)
      && (r.resolution == "5m" ==> r.lookbackDays <= 14.0) && (r.resolution == "30m" ==> r.lookbackDays <= 30.0)
  {
    SharedReads(b);
    ParsedConfig(b);
    ConfigReads(b.config.value.value, ParseReplay(b).value);
    ParsedIsValid(b);
    hide ParseReplay, ReadsShared, ReadsConfig, ValidConfig, ENTRY_MODES, RANGE_METHODS, COST_MODES, STRATEGIES, PAIRS, RESOLUTIONS, LOOKBACKS;
  }

  lemma ParsedConfig(b: Body)
    requires ParseReplay(b).Some?
    ensures b.config.Some? && b.config.value.Some? && ConfigOk(b.config.value.value)
    ensures var r := ParseReplay(b).value;
      r.config == ConfigOf(b.config.value.value, r.maxDeployableUsd, r.reserveQuoteAmount, r.entryMode)
  {
    hide ConfigOk, ConfigOf, FitsBudget, ENTRY_MODES, RANGE_METHODS, COST_MODES, STRATEGIES, PAIRS, RESOLUTIONS, LOOKBACKS;
  }
}
