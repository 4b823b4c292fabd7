/** apps/web/src/lib/lab-draft-transfer.ts: a Lab configuration is written to storage, read back and turned
    into a bot draft. JSON text is taken as the record it stands for. */
module LabTransfer {
  import opened DraftCapital
  import opened LabRequests
  import opened Wrappers

  const MODES := ["paper", "live"]
  const PRESETS := ["SOL_USDC", "BTC_USDC", "HYPE_USDC"]

  datatype Transfer = Transfer(createdAt: string, botLabel: string, pairPresetId: string, mode: string, config: Config)

  /** config is None when it is absent or not an object. */
  datatype TransferRecord = TransferRecord(version: Property, source: Property, createdAt: Property, botLabel: Property,
                                           pairPresetId: Property, mode: Property, config: Option<ConfigRecord>)

  datatype Draft = Draft(
    presetId: string, name: string, strategyMode: string, mode: string, entryMode: string, gridType: string,
    capital: Capital, lowPrice: real, highPrice: real, levelCount: real, minOrderQuoteAmount: real, maxSlippageBps: real,
    cooldownMs: real, maxOrdersPerHour: real, maxDrawdownPct: real, maxConsecutiveFailures: real, levelLockMs: real,
    priceConfirmationWindowMs: real, recenterMode: Option<string>, autoRecenterMinIntervalMs: real,
    autoRecenterMaxPerDay: real, outOfRangePause: bool)

  datatype BuildResult = BuildResult(draft: Draft, minOrderMode: string, forcedManualRecenter: bool)

  // ---------------------------------------------------------------- reading

  predicate IsText(v: Property) { v.Some? && v.value.Text? }

  predicate TransferConfigOk(c: ConfigRecord) {
    && IsNum(c.budgetUsd) && IsNum(c.lowPrice) && IsNum(c.highPrice) && IsNum(c.levelCount)
    && IsOneOf(c.gridType, GRID_TYPES) && IsOneOf(c.strategyMode, STRATEGIES) && IsOneOf(c.minOrderMode, MIN_ORDER_MODES)
    && IsNum(c.minOrderQuoteAmount) && IsNum(c.maxSlippageBps) && IsNum(c.cooldownMs) && IsNum(c.maxOrdersPerHour)
    && IsNum(c.maxDrawdownPct) && IsNum(c.maxConsecutiveFailures) && IsNum(c.levelLockMs)
    && IsNum(c.priceConfirmationWindowMs) && IsFlag(c.outOfRangePause)
    && (c.recenterModel.None? || IsOneOf(c.recenterModel, RECENTER_MODELS))
  }

  function NumElse(v: Property, fallback: real): real { if IsNum(v) then v.value.num else fallback }

  function OneOfElse(v: Property, allowed: seq<string>, fallback: string): string {
    if IsOneOf(v, allowed) then v.value.text else fallback
  }

  function ParseConfig(c: ConfigRecord): Option<Config> {
    if !TransferConfigOk(c) then None else
    Some(Config(
      c.budgetUsd.value.num, NumElse(c.maxDeployableUsd, c.budgetUsd.value.num), NumElse(c.reserveQuoteAmount, 0.0),
      OneOfElse(c.entryMode, ENTRY_MODES, NORMAL), c.lowPrice.value.num, c.highPrice.value.num, c.levelCount.value.num,
      c.gridType.value.text, c.strategyMode.value.text,
      Some(if c.rangeControlMode == Some(Text(ADAPTIVE)) then ADAPTIVE else STATIC), c.minOrderMode.value.text,
      c.minOrderQuoteAmount.value.num, c.maxSlippageBps.value.num, Some(NumElse(c.executionFeeBps, 10.0)),
      c.cooldownMs.value.num, c.maxOrdersPerHour.value.num, c.maxDrawdownPct.value.num, c.maxConsecutiveFailures.value.num,
      c.levelLockMs.value.num, c.priceConfirmationWindowMs.value.num,
      Some(OneOfElse(c.recenterMode, RECENTER_MODES, MANUAL_RECENTER)),
      Some(OneOfElse(c.recenterModel, RECENTER_MODELS, CANDLE_DEFENSE)),
      if IsNum(c.autoRecenterMinIntervalMs) then Some(c.autoRecenterMinIntervalMs.value.num) else None,
      if IsNum(c.autoRecenterMaxPerDay) then Some(c.autoRecenterMaxPerDay.value.num) else None,
      c.outOfRangePause.value.flag))
  }

  /** raw is None for no text, text that is not JSON, and JSON that is not an object; now is the clock. */
  function ParseTransfer(raw: Option<TransferRecord>, now: string): Option<Transfer> {
    if raw.None? then None else
    var r := raw.value;
    if r.version != Some(Num(1.0)) || r.source != Some(Text("backtest-lab")) || r.config.None? then None else
    var config := ParseConfig(r.config.value);
    if config.None? || !IsOneOf(r.pairPresetId, PRESETS) || !IsOneOf(r.mode, MODES) || !IsText(r.botLabel) then None
    else Some(Transfer(if IsText(r.createdAt) then r.createdAt.value.text else now, r.botLabel.value.text,
                       r.pairPresetId.value.text, r.mode.value.text, config.value))
  }

  ghost predicate OneOf(p: Property, word: string, allowed: set<string>) {
    p == Some(Text(word)) && word in allowed
  }

  /** The word of the property if it is one of those allowed, else the fallback. */
  ghost predicate OneOfOr(p: Property, word: string, allowed: set<string>, fallback: string) {
    if exists w :: OneOf(p, w, allowed) then OneOf(p, word, allowed) else word == fallback
  }

  /** c is what a stored configuration is read as, property by property: required numbers and words, optional ones with
      their fallbacks. */
  ghost predicate ReadsStored(c: Config, p: ConfigRecord) {
    && p.budgetUsd == Some(Num(c.budgetUsd)) && c.maxDeployableUsd == NumberIn(p.maxDeployableUsd, c.budgetUsd)
    && c.reserveQuoteAmount == NumberIn(p.reserveQuoteAmount, 0.0)
    && OneOfOr(p.entryMode, c.entryMode, {"normal", "sell_only"}, "normal")
    && p.lowPrice == Some(Num(c.lowPrice)) && p.highPrice == Some(Num(c.highPrice)) && p.levelCount == Some(Num(c.levelCount))
    && OneOf(p.gridType, c.gridType, {"arithmetic", "geometric"})
    && OneOf(p.strategyMode, c.strategyMode, {"accumulate_usdc", "balanced", "accumulate_base"})
    && OneOf(p.minOrderMode, c.minOrderMode, {"auto", "manual"})
    && c.rangeControlMode == Some(if p.rangeControlMode == Some(Text("adaptive")) then "adaptive" else "static")
    && p.minOrderQuoteAmount == Some(Num(c.minOrderQuoteAmount)) && p.maxSlippageBps == Some(Num(c.maxSlippageBps))
    && c.executionFeeBps == Some(NumberIn(p.executionFeeBps, 10.0)) && p.cooldownMs == Some(Num(c.cooldownMs))
    && p.maxOrdersPerHour == Some(Num(c.maxOrdersPerHour)) && p.maxDrawdownPct == Some(Num(c.maxDrawdownPct))
    && p.maxConsecutiveFailures == Some(Num(c.maxConsecutiveFailures)) && p.levelLockMs == Some(Num(c.levelLockMs))
    && p.priceConfirmationWindowMs == Some(Num(c.priceConfirmationWindowMs))
    && c.recenterMode.Some? && OneOfOr(p.recenterMode, c.recenterMode.value, {"manual_recenter", "auto_recenter"}, "manual_recenter")
    && c.recenterModel.Some?
    && (if p.recenterModel.None? then c.recenterModel == Some("candle_defense")
        else OneOf(p.recenterModel, c.recenterModel.value, {"worker_flat", "candle_defense"}))
    && (if IsNum(p.autoRecenterMinIntervalMs) then c.autoRecenterMinIntervalMs.Some?
          && p.autoRecenterMinIntervalMs == Some(Num(c.autoRecenterMinIntervalMs.value)) else c.autoRecenterMinIntervalMs.None?)
    && (if IsNum(p.autoRecenterMaxPerDay) then c.autoRecenterMaxPerDay.Some?
          && p.autoRecenterMaxPerDay == Some(Num(c.autoRecenterMaxPerDay.value)) else c.autoRecenterMaxPerDay.None?)
    && p.outOfRangePause == Some(Flag(c.outOfRangePause))
  }

  lemma OneOfIs(p: Property, allowed: seq<string>, names: set<string>)
    requires forall w :: w in allowed <==> w in names
    ensures IsOneOf(p, allowed) <==> exists w :: OneOf(p, w, names)
    ensures IsOneOf(p, allowed) ==> OneOf(p, p.value.text, names)
    ensures forall w :: OneOf(p, w, names) ==> IsOneOf(p, allowed) && w == p.value.text
  {
    if IsOneOf(p, allowed) { assert OneOf(p, p.value.text, names); }
  }

  lemma AllowedWords()
    ensures forall w :: w in ENTRY_MODES <==> w in {"normal", "sell_only"}
    ensures forall w :: w in GRID_TYPES <==> w in {"arithmetic", "geometric"}
    ensures forall w :: w in STRATEGIES <==> w in {"accumulate_usdc", "balanced", "accumulate_base"}
    ensures forall w :: w in MIN_ORDER_MODES <==> w in {"auto", "manual"}
    ensures forall w :: w in RECENTER_MODES <==> w in {"manual_recenter", "auto_recenter"}
    ensures forall w :: w in RECENTER_MODELS <==> w in {"worker_flat", "candle_defense"}
    ensures forall w :: w in MODES <==> w in {"paper", "live"}
    ensures forall w :: w in PRESETS <==> w in {"SOL_USDC", "BTC_USDC", "HYPE_USDC"}
  {
    assert ENTRY_MODES == ["normal", "sell_only"] && GRID_TYPES == ["arithmetic", "geometric"];
    assert STRATEGIES == ["accumulate_usdc", "balanced", "accumulate_base"] && MIN_ORDER_MODES == ["auto", "manual"];
    assert RECENTER_MODES == ["manual_recenter", "auto_recenter"] && RECENTER_MODELS == ["worker_flat", "candle_defense"];
  }

  lemma StoredReads(p: ConfigRecord)
    requires ParseConfig(p).Some?
    ensures ReadsStored(ParseConfig(p).value, p)
  {
    AllowedWords();
    OneOfIs(p.entryMode, ENTRY_MODES, {"normal", "sell_only"});
    OneOfIs(p.gridType, GRID_TYPES, {"arithmetic", "geometric"});
    OneOfIs(p.strategyMode, STRATEGIES, {"accumulate_usdc", "balanced", "accumulate_base"});
    OneOfIs(p.minOrderMode, MIN_ORDER_MODES, {"auto", "manual"});
    OneOfIs(p.recenterMode, RECENTER_MODES, {"manual_recenter", "auto_recenter"});
    OneOfIs(p.recenterModel, RECENTER_MODELS, {"worker_flat", "candle_defense"});
    hide IsOneOf, OneOf, ENTRY_MODES, GRID_TYPES, STRATEGIES, MIN_ORDER_MODES, RECENTER_MODES, RECENTER_MODELS;
  }

  lemma StoredUnique(p: ConfigRecord, c: Config)
    requires ReadsStored(c, p)
    ensures ParseConfig(p) == Some(c)
  {
    AllowedWords();
    OneOfIs(p.entryMode, ENTRY_MODES, {"normal", "sell_only"});
    OneOfIs(p.gridType, GRID_TYPES, {"arithmetic", "geometric"});
    OneOfIs(p.strategyMode, STRATEGIES, {"accumulate_usdc", "balanced", "accumulate_base"});
    OneOfIs(p.minOrderMode, MIN_ORDER_MODES, {"auto", "manual"});
    OneOfIs(p.recenterMode, RECENTER_MODES, {"manual_recenter", "auto_recenter"});
    OneOfIs(p.recenterModel, RECENTER_MODELS, {"worker_flat", "candle_defense"});
    hide IsOneOf, OneOf, ENTRY_MODES, GRID_TYPES, STRATEGIES, MIN_ORDER_MODES, RECENTER_MODES, RECENTER_MODELS;
  }

  /** A stored configuration is read exactly as that, or not at all. */
  lemma StoredConfigIff(p: ConfigRecord, c: Config)
    ensures ParseConfig(p) == Some(c) <==> ReadsStored(c, p)
  {
    hide *;
    if ParseConfig(p) == Some(c) { StoredReads(p); }
    if ReadsStored(c, p) { StoredUnique(p, c); }
  }

  /** A stored transfer is read exactly when it is version 1 from the Lab, for a known preset and mode, with a label and a
      readable configuration; a missing date becomes now. */
  lemma StoredTransferIff(r: TransferRecord, now: string, t: Transfer)
    ensures ParseTransfer(Some(r), now) == Some(t) <==>
            && r.version == Some(Num(1.0)) && r.source == Some(Text("backtest-lab")) && r.botLabel == Some(Text(t.botLabel))
            && OneOf(r.pairPresetId, t.pairPresetId, {"SOL_USDC", "BTC_USDC", "HYPE_USDC"}) && OneOf(r.mode, t.mode, {"paper", "live"})
            && t.createdAt == WordIn(r.createdAt, now) && r.config.Some? && ReadsStored(t.config, r.config.value)
  {
    AllowedWords();
    OneOfIs(r.pairPresetId, PRESETS, {"SOL_USDC", "BTC_USDC", "HYPE_USDC"});
    OneOfIs(r.mode, MODES, {"paper", "live"});
    if r.config.Some? {
      StoredConfigIff(r.config.value, t.config);
      if ParseConfig(r.config.value).Some? { StoredConfigIff(r.config.value, ParseConfig(r.config.value).value); }
    }
    hide IsOneOf, OneOf, PRESETS, MODES, ParseConfig, ReadsStored;
  }

  // ---------------------------------------------------------------- writing

  function WriteTransfer(t: Transfer): TransferRecord {
    TransferRecord(NumProp(1.0), TextProp("backtest-lab"), TextProp(t.createdAt), TextProp(t.botLabel), TextProp(t.pairPresetId),
                   TextProp(t.mode), Some(WriteConfig(t.config)))
  }

  function PresetOf(pair: string): string {
    if pair == "BTC" then "BTC_USDC" else if pair == "HYPE" then "HYPE_USDC" else "SOL_USDC"
  }

  function CreateTransfer(pair: string, mode: string, botLabel: string, config: Config, now: string): Transfer {
    Transfer(now, botLabel, PresetOf(pair), mode, config)
  }

  // ---------------------------------------------------------------- building the draft

  function ForcedManual(c: Config): bool {
    c.recenterMode == Some(AUTO_RECENTER) && (c.recenterModel != Some(WORKER_FLAT) || c.rangeControlMode == Some(ADAPTIVE))
  }

  /** Every property of the preset's draft but its id is overwritten. */
  function BuildDraft(t: Transfer): BuildResult {
    var c := t.config;
    BuildResult(
      Draft(t.pairPresetId, t.botLabel, c.strategyMode, t.mode, c.entryMode, c.gridType,
            Normalize(Capital(c.budgetUsd, c.reserveQuoteAmount, c.maxDeployableUsd)),
            c.lowPrice, c.highPrice, c.levelCount, c.minOrderQuoteAmount, c.maxSlippageBps, c.cooldownMs, c.maxOrdersPerHour,
            c.maxDrawdownPct, c.maxConsecutiveFailures, c.levelLockMs, c.priceConfirmationWindowMs,
            if ForcedManual(c) then Some(MANUAL_RECENTER) else c.recenterMode,
            c.autoRecenterMinIntervalMs.UnwrapOr(SIX_HOURS), c.autoRecenterMaxPerDay.UnwrapOr(2.0), c.outOfRangePause),
      if c.minOrderMode == "manual" then "manual" else "auto",
      ForcedManual(c))
  }

  /** The draft is the configuration, field by field: only a missing wait and a missing daily limit are filled in, the
      capital is normalised, and automatic recentering is kept only for worker_flat on a range that is not adaptive. */
  ghost predicate DraftShows(b: BuildResult, t: Transfer) {
    var d, c := b.draft, t.config;
    && d.presetId == t.pairPresetId && d.name == t.botLabel && d.mode == t.mode
    && d.strategyMode == c.strategyMode && d.entryMode == c.entryMode && d.gridType == c.gridType
    && d.lowPrice == c.lowPrice && d.highPrice == c.highPrice && d.levelCount == c.levelCount
    && d.minOrderQuoteAmount == c.minOrderQuoteAmount && d.maxSlippageBps == c.maxSlippageBps && d.cooldownMs == c.cooldownMs
    && d.maxOrdersPerHour == c.maxOrdersPerHour && d.maxDrawdownPct == c.maxDrawdownPct
    && d.maxConsecutiveFailures == c.maxConsecutiveFailures && d.levelLockMs == c.levelLockMs
    && d.priceConfirmationWindowMs == c.priceConfirmationWindowMs && d.outOfRangePause == c.outOfRangePause
    && d.capital == Normalize(Capital.Capital(c.budgetUsd, c.reserveQuoteAmount, c.maxDeployableUsd))
    && d.autoRecenterMinIntervalMs == (if c.autoRecenterMinIntervalMs.Some? then c.autoRecenterMinIntervalMs.value else 21_600_000.0)
    && d.autoRecenterMaxPerDay == (if c.autoRecenterMaxPerDay.Some? then c.autoRecenterMaxPerDay.value else 2.0)
    && (b.forcedManualRecenter <==> c.recenterMode == Some("auto_recenter") &&
                                    !(c.recenterModel == Some("worker_flat") && c.rangeControlMode != Some("adaptive")))
    && d.recenterMode == (if b.forcedManualRecenter then Some("manual_recenter") else c.recenterMode)
    && (b.minOrderMode == "manual" <==> c.minOrderMode == "manual")
  }

  lemma DraftShowsConfig(t: Transfer)
    ensures DraftShows(BuildDraft(t), t)
  {
    hide Normalize;
    assert "auto" != "manual";
  }

  // ---------------------------------------------------------------- the hop

  /** What the types promise: every enumeration holds one of its values. */
  ghost predicate Typed(t: Transfer) {
    var c := t.config;
    && t.pairPresetId in PRESETS && t.mode in MODES
    && c.entryMode in ENTRY_MODES && c.gridType in GRID_TYPES && c.strategyMode in STRATEGIES && c.minOrderMode in MIN_ORDER_MODES
    && (c.rangeControlMode.Some? ==> c.rangeControlMode.value in RANGE_MODES)
    && (c.recenterMode.Some? ==> c.recenterMode.value in RECENTER_MODES)
    && (c.recenterModel.Some? ==> c.recenterModel.value in RECENTER_MODELS)
  }

  lemma Words()
    ensures AUTO_RECENTER != MANUAL_RECENTER && WORKER_FLAT != CANDLE_DEFENSE && STATIC != ADAPTIVE
    ensures forall s :: s in RANGE_MODES ==> s == STATIC || s == ADAPTIVE
  {
  }

  /** Reading a written configuration back: only absent options change, to their defaults. */
  lemma ConfigReadsBack(t: Transfer)
    requires Typed(t)
    ensures var c := t.config; ParseConfig(WriteConfig(c)) == Some(c.(
      rangeControlMode := Some(c.rangeControlMode.UnwrapOr(STATIC)),
      executionFeeBps := Some(c.executionFeeBps.UnwrapOr(10.0)),
      recenterMode := Some(c.recenterMode.UnwrapOr(MANUAL_RECENTER)),
      recenterModel := Some(c.recenterModel.UnwrapOr(CANDLE_DEFENSE))))
  {
    Words();
    hide ENTRY_MODES, RANGE_MODES, RECENTER_MODES, RECENTER_MODELS, STRATEGIES, GRID_TYPES, MIN_ORDER_MODES, PRESETS, MODES,
      NORMAL, STATIC, ADAPTIVE, MANUAL_RECENTER, AUTO_RECENTER, WORKER_FLAT, CANDLE_DEFENSE;
  }

  /** Printing then parsing a transfer and building the draft gives the same draft as building it directly,
      exactly when the configuration has a recenter mode. */
  lemma HopKeepsDraftIff(t: Transfer, now: string)
    requires Typed(t)
    ensures ParseTransfer(Some(WriteTransfer(t)), now).Some?
    ensures BuildDraft(ParseTransfer(Some(WriteTransfer(t)), now).value) == BuildDraft(t) <==> t.config.recenterMode.Some?
  {
    ConfigReadsBack(t);
    Words();
    hide ENTRY_MODES, RANGE_MODES, RECENTER_MODES, RECENTER_MODELS, STRATEGIES, GRID_TYPES, MIN_ORDER_MODES, PRESETS, MODES,
      NORMAL, STATIC, ADAPTIVE, MANUAL_RECENTER, AUTO_RECENTER, WORKER_FLAT, CANDLE_DEFENSE, ParseConfig, WriteConfig, Normalize;
  }

  ghost predicate Complete(c: Config) {
    c.rangeControlMode.Some? && c.executionFeeBps.Some? && c.recenterMode.Some? && c.recenterModel.Some?
  }

  lemma PresetKnown(pair: string)
    ensures PresetOf(pair) in PRESETS
  {
    assert PRESETS[0] == "SOL_USDC" && PRESETS[1] == "BTC_USDC" && PRESETS[2] == "HYPE_USDC";
  }

  lemma PresetNamed(pair: string)
    ensures pair in PAIRS ==> PresetOf(pair) == pair + "_USDC"
  {
    assert "SOL" != "BTC" && "SOL" != "HYPE";
  }

  lemma ValidIsTyped(t: Transfer)
    requires ValidConfig(t.config) && t.pairPresetId in PRESETS && t.mode in MODES
    ensures Typed(t) && Complete(t.config)
  {
    hide ENTRY_MODES, RANGE_MODES, RECENTER_MODES, RECENTER_MODELS, STRATEGIES, GRID_TYPES, MIN_ORDER_MODES, PRESETS, MODES, Whole;
  }

  lemma CompleteReadsBack(t: Transfer, now: string)
    requires Typed(t) && Complete(t.config)
    ensures ParseTransfer(Some(WriteTransfer(t)), now) == Some(t)
  {
    ConfigReadsBack(t);
    hide ENTRY_MODES, RANGE_MODES, RECENTER_MODES, RECENTER_MODELS, STRATEGIES, GRID_TYPES, MIN_ORDER_MODES, PRESETS, MODES,
      ParseConfig, WriteConfig;
  }

  /** From a parsed Lab request the hop changes nothing at all, not even the transfer. */
  lemma RequestHops(body: Body, mode: string, botLabel: string, now: string, later: string)
    requires ParseReplay(body).Some? && mode in MODES
    ensures var t := CreateTransfer(ParseReplay(body).value.pair, mode, botLabel, ParseReplay(body).value.config, now);
      ParseTransfer(Some(WriteTransfer(t)), later) == Some(t) && t.pairPresetId == ParseReplay(body).value.pair + "_USDC"
  {
    ParsedIsValid(body);
    var r := ParseReplay(body).value;
    PresetKnown(r.pair);
    PresetNamed(r.pair);
    hide ParseReplay, ValidConfig, PRESETS, MODES, PresetOf, WriteTransfer, ParseTransfer;
    var t := CreateTransfer(r.pair, mode, botLabel, r.config, now);
    ValidIsTyped(t);
    CompleteReadsBack(t, later);
  }

  /** Whatever was stored, the draft recenters by itself only for worker_flat with a static range; in
      particular never for a transfer stored before the model existed. */
  lemma AutoOnlyForWorkerFlat(r: TransferRecord, now: string)
    requires ParseTransfer(Some(r), now).Some?
    ensures var c := r.config.value;
      BuildDraft(ParseTransfer(Some(r), now).value).draft.recenterMode == Some(AUTO_RECENTER) <==>
        && c.recenterMode == Some(Text(AUTO_RECENTER)) && c.recenterModel == Some(Text(WORKER_FLAT))
        && c.rangeControlMode != Some(Text(ADAPTIVE))
  {
    Words();
    assert RECENTER_MODES[1] == AUTO_RECENTER && RECENTER_MODELS[0] == WORKER_FLAT;
    hide ENTRY_MODES, RANGE_MODES, RECENTER_MODES, RECENTER_MODELS, STRATEGIES, GRID_TYPES, MIN_ORDER_MODES, PRESETS, MODES,
      NORMAL, STATIC, ADAPTIVE, MANUAL_RECENTER, AUTO_RECENTER, WORKER_FLAT, CANDLE_DEFENSE, Normalize;
  }

  /** Every built draft splits its budget soundly, and normalising it again changes nothing. */
  lemma DraftCapitalSound(t: Transfer)
    ensures Sound(BuildDraft(t).draft.capital)
    ensures Normalize(BuildDraft(t).draft.capital) == BuildDraft(t).draft.capital
  {
    NormalizeSound(Capital(t.config.budgetUsd, t.config.reserveQuoteAmount, t.config.maxDeployableUsd));
    hide Sound, Normalize;
  }
}
