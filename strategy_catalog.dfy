/**
 * What `get_all_strategies` builds: each strategy configured from the web
 * dashboard is its override on top of the universal defaults, then
 * back-filled with the defaults of the first strategy family its name
 * matches and with three common defaults; the four fallback presets are
 * added under names no override uses.
 */
module StrategyCatalog {
  import opened Wrappers
  import opened PyValues
  import opened MapLemmas
  import opened TradingParams
  import ParamRules

  // ------------------------------------------------------------ families

  /** The strategy families `get_all_strategies` back-fills. */
  datatype Family = RsiFamily | MacdFamily | SmartMoneyFamily | EngulfingFamily | LiquidityFamily | NoFamily

  /** The `if/elif` chain over `strategy_name.lower()`: the first test that matches wins. */
  function FamilyOf(name: string): Family
  {
    var n := Lower(name);
    if Contains(n, "rsi") then RsiFamily
    else if Contains(n, "macd") then MacdFamily
    else if Contains(n, "smart") && Contains(n, "money") then SmartMoneyFamily
    else if Contains(n, "engulfing") then EngulfingFamily
    else if Contains(n, "liquidity") || Contains(n, "reversal") then LiquidityFamily
    else NoFamily
  }

  const RsiDefaults: Params := map[
    "rsi_period" := VInt(14),
    "rsi_long_entry" := VInt(40),
    "rsi_long_exit" := VInt(70),
    "rsi_short_entry" := VInt(60),
    "rsi_short_exit" := VInt(30)]

  /** The MACD back-fill as the source writes it, with `min_histogram_threshold` 0.00001. */
  const MacdDefaults: Params := map[
    "macd_fast" := VInt(12),
    "macd_slow" := VInt(26),
    "macd_signal" := VInt(9),
    "min_histogram_threshold" := VReal(0.00001),
    "min_distance_threshold" := VReal(0.001),
    "confirmation_candles" := VInt(2),
    "histogram_divergence_lookback" := VInt(10),
    "price_divergence_lookback" := VInt(10),
    "divergence_strength_min" := VReal(0.4),
    "macd_entry_threshold" := VReal(0.05),
    "macd_exit_threshold" := VReal(0.02)]

  /** The MACD back-fill with `min_histogram_threshold` at the update rule's minimum and default, 0.0001. */
  const MacdDefaultsCorrected: Params := MacdDefaults["min_histogram_threshold" := VReal(0.0001)]

  const SmartMoneyDefaults: Params := map[
    "swing_lookback_period" := VInt(25),
    "sweep_threshold_pct" := VReal(0.1),
    "reversion_candles" := VInt(3),
    "volume_spike_multiplier" := VReal(2.0),
    "min_swing_distance_pct" := VReal(1.0),
    "max_daily_trades" := VInt(3),
    "session_filter_enabled" := VBool(true),
    "allowed_sessions" := VList(["LONDON", "NEW_YORK"]),
    "trend_filter_enabled" := VBool(true)]

  const EngulfingDefaults: Params := map[
    "rsi_period" := VInt(14),
    "rsi_threshold" := VInt(50),
    "rsi_long_exit" := VInt(70),
    "rsi_short_exit" := VInt(30),
    "stable_candle_ratio" := VReal(0.5),
    "price_lookback_bars" := VInt(5),
    "partial_tp_pnl_threshold" := VReal(0.0),
    "partial_tp_position_percentage" := VReal(0.0)]

  const LiquidityDefaults: Params := map[
    "lookback_candles" := VInt(100),
    "liquidity_threshold" := VReal(0.02),
    "reclaim_timeout" := VInt(5),
    "min_volume_spike" := VReal(1.5),
    "max_risk_per_trade" := VReal(0.5),
    "stop_loss_buffer" := VReal(0.1),
    "profit_target_multiplier" := VReal(2.0),
    "swing_strength" := VInt(3),
    "min_wick_ratio" := VReal(0.6)]

  /** The family back-fill table. */
  function FamilyDefaults(f: Family): Params
  {
    match f
    case RsiFamily => RsiDefaults
    case MacdFamily => MacdDefaults
    case SmartMoneyFamily => SmartMoneyDefaults
    case EngulfingFamily => EngulfingDefaults
    case LiquidityFamily => LiquidityDefaults
    case NoFamily => map[]
  }

  /** The back-fill every configured strategy receives. */
  const CommonDefaults: Params := map["min_volume" := VInt(1000000), "decimals" := VInt(2), "cooldown_period" := VInt(300)]

  /** A run of `dict.setdefault` calls: every key of `defaults` the map lacks is added. */
  function SetDefaults(m: Params, defaults: Params): (r: Params)
    ensures r.Keys == m.Keys + defaults.Keys
    ensures forall k :: k in m ==> r[k] == m[k]
    ensures forall k :: k in defaults && k !in m ==> r[k] == defaults[k]
  {
    defaults + m
  }

  /** The configuration `get_all_strategies` builds for an overridden strategy. */
  function Configured(name: string, defaults: TradingParameters, web: Params): Params
  {
    SetDefaults(SetDefaults(ToDict(defaults) + web, FamilyDefaults(FamilyOf(name))), CommonDefaults)
  }

  // ------------------------------------------------------------ fallback presets

  const PresetNames: seq<string> := ["rsi_oversold", "macd_divergence", "smart_money_reversal", "engulfing_pattern_btc"]

  const RsiOversold: Params := map[
    "symbol" := VStr("SOLUSDT"),
    "margin" := VReal(12.5),
    "leverage" := VInt(25),
    "timeframe" := VStr("15m"),
    "assessment_interval" := VInt(60),
    "decimals" := VInt(2),
    "cooldown_period" := VInt(300),
    "rsi_period" := VInt(14),
    "rsi_long_entry" := VInt(40),
    "rsi_long_exit" := VInt(70),
    "rsi_short_entry" := VInt(60),
    "rsi_short_exit" := VInt(30),
    "min_volume" := VInt(1000000)]

  const MacdDivergence: Params := map[
    "symbol" := VStr("BTCUSDT"),
    "margin" := VReal(23.0),
    "leverage" := VInt(5),
    "timeframe" := VStr("5m"),
    "assessment_interval" := VInt(30),
    "decimals" := VInt(2),
    "cooldown_period" := VInt(300),
    "macd_fast" := VInt(12),
    "macd_slow" := VInt(26),
    "macd_signal" := VInt(9),
    "min_histogram_threshold" := VReal(0.0001),
    "min_distance_threshold" := VReal(0.005),
    "confirmation_candles" := VInt(2),
    "histogram_divergence_lookback" := VInt(10),
    "price_divergence_lookback" := VInt(10),
    "divergence_strength_min" := VReal(0.4),
    "macd_entry_threshold" := VReal(0.05),
    "macd_exit_threshold" := VReal(0.02),
    "min_volume" := VInt(1000000)]

  const SmartMoneyReversal: Params := map[
    "symbol" := VStr("ETHUSDT"),
    "margin" := VReal(30.0),
    "leverage" := VInt(10),
    "timeframe" := VStr("15m"),
    "assessment_interval" := VInt(45),
    "decimals" := VInt(2),
    "cooldown_period" := VInt(300),
    "swing_lookback_period" := VInt(25),
    "sweep_threshold_pct" := VReal(0.1),
    "reversion_candles" := VInt(3),
    "volume_spike_multiplier" := VReal(2.0),
    "min_swing_distance_pct" := VReal(1.0),
    "max_daily_trades" := VInt(3),
    "session_filter_enabled" := VBool(true),
    "allowed_sessions" := VList(["LONDON", "NEW_YORK"]),
    "trend_filter_enabled" := VBool(true),
    "min_volume" := VInt(1000000)]

  const EngulfingPatternBtc: Params := map[
    "symbol" := VStr("BTCUSDT"),
    "margin" := VReal(25.0),
    "leverage" := VInt(8),
    "timeframe" := VStr("1h"),
    "assessment_interval" := VInt(90),
    "decimals" := VInt(3),
    "cooldown_period" := VInt(600),
    "rsi_period" := VInt(14),
    "rsi_threshold" := VInt(50),
    "rsi_long_exit" := VInt(70),
    "rsi_short_exit" := VInt(30),
    "stable_candle_ratio" := VReal(0.5),
    "price_lookback_bars" := VInt(5),
    "partial_tp_pnl_threshold" := VReal(0.0),
    "partial_tp_position_percentage" := VReal(0.0),
    "min_volume" := VInt(2000000)]

  /** The four fallback configurations, each `{**defaults.to_dict(), ...}`. */
  function Presets(defaults: TradingParameters): (p: map<string, Params>)
    ensures p.Keys == set n | n in PresetNames
  {
    map[
      "rsi_oversold" := ToDict(defaults) + RsiOversold,
      "macd_divergence" := ToDict(defaults) + MacdDivergence,
      "smart_money_reversal" := ToDict(defaults) + SmartMoneyReversal,
      "engulfing_pattern_btc" := ToDict(defaults) + EngulfingPatternBtc]
  }

  // ------------------------------------------------------------ get_all_strategies

  /** The configured strategies, one per override. */
  function ConfiguredAll(defaults: TradingParameters, overrides: map<string, Params>): (c: map<string, Params>)
    ensures c.Keys == overrides.Keys
  {
    map n | n in overrides :: Configured(n, defaults, overrides[n])
  }

  /** `Configured` as a function value, for maps built one strategy at a time. */
  function Builder(defaults: TradingParameters): (string, Params) -> Params
  {
    (n: string, web: Params) => Configured(n, defaults, web)
  }

  /** Applying `Builder` configures the strategy. */
  lemma BuilderConfigures(defaults: TradingParameters, n: string, web: Params)
    ensures Builder(defaults)(n, web) == Configured(n, defaults, web)
  {
  }

  /** A map built entry by entry from the overrides by `Builder`, covering every override, is `ConfiguredAll`. */
  lemma ConfiguredDone(strategies: map<string, Params>, defaults: TradingParameters, overrides: map<string, Params>)
    requires strategies.Keys == overrides.Keys
    requires BuiltFrom(strategies, overrides, Builder(defaults))
    ensures strategies == ConfiguredAll(defaults, overrides)
  {
    MapsEqual(strategies, ConfiguredAll(defaults, overrides));
  }

  /** The result of `get_all_strategies`: configured strategies first, presets under the remaining names. */
  function AllStrategies(defaults: TradingParameters, overrides: map<string, Params>): map<string, Params>
  {
    Presets(defaults) + ConfiguredAll(defaults, overrides)
  }

  /** The strategies are the overridden names plus the four preset names. */
  lemma AllStrategiesKeys(defaults: TradingParameters, overrides: map<string, Params>)
    ensures AllStrategies(defaults, overrides).Keys == overrides.Keys + set n | n in PresetNames
  {
  }

  /** An override value is never replaced: not by the defaults, a back-fill or a preset. */
  lemma OverrideWins(defaults: TradingParameters, overrides: map<string, Params>, name: string, key: string)
    requires name in overrides && key in overrides[name]
    ensures key in AllStrategies(defaults, overrides)[name]
    ensures AllStrategies(defaults, overrides)[name][key] == overrides[name][key]
  {
  }

  /**
   * A key the override lacks takes the universal default; failing that, the
   * family back-fill; failing that, the common back-fill; a key in none of
   * them is absent.
   */
  lemma BackfillOnlyAbsent(defaults: TradingParameters, overrides: map<string, Params>, name: string, key: string)
    requires name in overrides && key !in overrides[name]
    ensures var c := AllStrategies(defaults, overrides)[name];
      var fam := FamilyDefaults(FamilyOf(name));
      (key in BaseKeys ==> key in c && c[key] == ToDict(defaults)[key]) &&
      (key !in BaseKeys && key in fam ==> key in c && c[key] == fam[key]) &&
      (key !in BaseKeys && key !in fam && key in CommonDefaults ==> key in c && c[key] == CommonDefaults[key]) &&
      (key !in BaseKeys && key !in fam && key !in CommonDefaults ==> key !in c)
  {
  }

  /** A preset appears under a name no override uses. */
  lemma PresetOnlyWhenAbsent(defaults: TradingParameters, overrides: map<string, Params>, name: string)
    requires name in PresetNames && name !in overrides
    ensures AllStrategies(defaults, overrides)[name] == Presets(defaults)[name]
  {
    var presets, configured := Presets(defaults), ConfiguredAll(defaults, overrides);
    assert name in presets && name !in configured;
    MergeLookup(presets, configured, name);
  }

  /** Every overridden name, preset name or not, is configured from its override. */
  lemma OverriddenConfigured(defaults: TradingParameters, overrides: map<string, Params>, name: string)
    requires name in overrides
    ensures AllStrategies(defaults, overrides)[name] == Configured(name, defaults, overrides[name])
  {
    var configured := ConfiguredAll(defaults, overrides);
    assert name in configured && configured[name] == Configured(name, defaults, overrides[name]);
    MergeLookup(Presets(defaults), configured, name);
  }

  /** Without overrides the result is exactly the four presets. */
  lemma NoOverridesGivesPresets(defaults: TradingParameters)
    ensures AllStrategies(defaults, map[]) == Presets(defaults)
  {
    assert ConfiguredAll(defaults, map[]) == map[];
  }

  /** Every configured strategy holds the universal keys and its common back-fill keys. */
  lemma ConfiguredComplete(defaults: TradingParameters, overrides: map<string, Params>, name: string)
    requires name in overrides
    ensures var c := AllStrategies(defaults, overrides)[name];
      BaseKeys <= c.Keys && CommonDefaults.Keys <= c.Keys && FamilyDefaults(FamilyOf(name)).Keys <= c.Keys
  {
  }

  // ------------------------------------------------------------ names of the presets

  lemma LowerIdentity(s: string)
    requires forall i :: 0 <= i < |s| ==> !IsUpperAscii(s[i])
    ensures Lower(s) == s
  {
  }

  lemma RsiOversoldFamily()
    ensures FamilyOf("rsi_oversold") == RsiFamily
  {
    var r := "rsi_oversold";
    LowerIdentity(r);
    assert OccursAt(r, "rsi", 0);
  }

  lemma MacdDivergenceFamily()
    ensures FamilyOf("macd_divergence") == MacdFamily
  {
    var m := "macd_divergence";
    LowerIdentity(m);
    AbsentChar(m, "rsi", 's');
    assert OccursAt(m, "macd", 0);
  }

  lemma SmartMoneyReversalFamily()
    ensures FamilyOf("smart_money_reversal") == SmartMoneyFamily
  {
    var s := "smart_money_reversal";
    LowerIdentity(s);
    AbsentChar(s, "rsi", 'i');
    AbsentChar(s, "macd", 'c');
    assert OccursAt(s, "smart", 0) && OccursAt(s, "money", 6);
  }

  lemma EngulfingPatternBtcFamily()
    ensures FamilyOf("engulfing_pattern_btc") == EngulfingFamily
  {
    var e := "engulfing_pattern_btc";
    LowerIdentity(e);
    AbsentChar(e, "rsi", 's');
    AbsentChar(e, "macd", 'm');
    AbsentChar(e, "smart", 's');
    assert OccursAt(e, "engulfing", 0);
  }

  /** A preset that already holds the defaults of its family and the common defaults is left as it is. */
  lemma PresetFixed(name: string, defaults: TradingParameters, preset: Params)
    requires FamilyDefaults(FamilyOf(name)).Keys <= preset.Keys && CommonDefaults.Keys <= preset.Keys
    ensures Configured(name, defaults, ToDict(defaults) + preset) == ToDict(defaults) + preset
  {
    var p := ToDict(defaults) + preset;
    DefaultsAbsorbed(p, ToDict(defaults));
    DefaultsAbsorbed(p, FamilyDefaults(FamilyOf(name)));
    DefaultsAbsorbed(p, CommonDefaults);
  }

  lemma RsiOversoldKeys()
    ensures RsiDefaults.Keys <= RsiOversold.Keys && CommonDefaults.Keys <= RsiOversold.Keys
  {
  }

  lemma MacdDivergenceKeys()
    ensures MacdDefaults.Keys <= MacdDivergence.Keys && CommonDefaults.Keys <= MacdDivergence.Keys
  {
  }

  lemma SmartMoneyReversalKeys()
    ensures SmartMoneyDefaults.Keys <= SmartMoneyReversal.Keys && CommonDefaults.Keys <= SmartMoneyReversal.Keys
  {
  }

  lemma EngulfingPatternBtcKeys()
    ensures EngulfingDefaults.Keys <= EngulfingPatternBtc.Keys && CommonDefaults.Keys <= EngulfingPatternBtc.Keys
  {
  }

  /** The preset names have pairwise different lengths, hence are distinct. */
  lemma PresetNamesDistinct()
    ensures |"rsi_oversold"| == 12 && |"macd_divergence"| == 15
    ensures |"smart_money_reversal"| == 20 && |"engulfing_pattern_btc"| == 21
  {
  }

  /** Each key of a four-entry display with distinct keys finds its own value. */
  lemma DisplayLookup<V>(k1: string, k2: string, k3: string, k4: string, v1: V, v2: V, v3: V, v4: V)
    requires |k1| != |k2| && |k1| != |k3| && |k1| != |k4| && |k2| != |k3| && |k2| != |k4| && |k3| != |k4|
    ensures var m := map[k1 := v1, k2 := v2, k3 := v3, k4 := v4];
      m[k1] == v1 && m[k2] == v2 && m[k3] == v3 && m[k4] == v4
  {
  }

  lemma RsiOversoldEntry(defaults: TradingParameters)
    ensures Presets(defaults)["rsi_oversold"] == ToDict(defaults) + RsiOversold
  {
    PresetNamesDistinct();
    var d := ToDict(defaults);
    DisplayLookup("rsi_oversold", "macd_divergence", "smart_money_reversal", "engulfing_pattern_btc",
      d + RsiOversold, d + MacdDivergence, d + SmartMoneyReversal, d + EngulfingPatternBtc);
  }

  lemma MacdDivergenceEntry(defaults: TradingParameters)
    ensures Presets(defaults)["macd_divergence"] == ToDict(defaults) + MacdDivergence
  {
    PresetNamesDistinct();
    var d := ToDict(defaults);
    DisplayLookup("rsi_oversold", "macd_divergence", "smart_money_reversal", "engulfing_pattern_btc",
      d + RsiOversold, d + MacdDivergence, d + SmartMoneyReversal, d + EngulfingPatternBtc);
  }

  lemma SmartMoneyReversalEntry(defaults: TradingParameters)
    ensures Presets(defaults)["smart_money_reversal"] == ToDict(defaults) + SmartMoneyReversal
  {
    PresetNamesDistinct();
    var d := ToDict(defaults);
    DisplayLookup("rsi_oversold", "macd_divergence", "smart_money_reversal", "engulfing_pattern_btc",
      d + RsiOversold, d + MacdDivergence, d + SmartMoneyReversal, d + EngulfingPatternBtc);
  }

  lemma EngulfingPatternBtcEntry(defaults: TradingParameters)
    ensures Presets(defaults)["engulfing_pattern_btc"] == ToDict(defaults) + EngulfingPatternBtc
  {
    PresetNamesDistinct();
    var d := ToDict(defaults);
    DisplayLookup("rsi_oversold", "macd_divergence", "smart_money_reversal", "engulfing_pattern_btc",
      d + RsiOversold, d + MacdDivergence, d + SmartMoneyReversal, d + EngulfingPatternBtc);
  }

  lemma PresetNameCases(name: string)
    requires name in PresetNames
    ensures name == "rsi_oversold" || name == "macd_divergence" || name == "smart_money_reversal" || name == "engulfing_pattern_btc"
  {
  }

  lemma RsiOversoldFixed(defaults: TradingParameters)
    ensures var p := Presets(defaults)["rsi_oversold"]; Configured("rsi_oversold", defaults, p) == p
  {
    RsiOversoldEntry(defaults);
    RsiOversoldFamily();
    RsiOversoldKeys();
    PresetFixed("rsi_oversold", defaults, RsiOversold);
  }

  lemma MacdDivergenceFixed(defaults: TradingParameters)
    ensures var p := Presets(defaults)["macd_divergence"]; Configured("macd_divergence", defaults, p) == p
  {
    MacdDivergenceEntry(defaults);
    MacdDivergenceFamily();
    MacdDivergenceKeys();
    PresetFixed("macd_divergence", defaults, MacdDivergence);
  }

  lemma SmartMoneyReversalFixed(defaults: TradingParameters)
    ensures var p := Presets(defaults)["smart_money_reversal"]; Configured("smart_money_reversal", defaults, p) == p
  {
    SmartMoneyReversalEntry(defaults);
    SmartMoneyReversalFamily();
    SmartMoneyReversalKeys();
    PresetFixed("smart_money_reversal", defaults, SmartMoneyReversal);
  }

  lemma EngulfingPatternBtcFixed(defaults: TradingParameters)
    ensures var p := Presets(defaults)["engulfing_pattern_btc"]; Configured("engulfing_pattern_btc", defaults, p) == p
  {
    EngulfingPatternBtcEntry(defaults);
    EngulfingPatternBtcFamily();
    EngulfingPatternBtcKeys();
    PresetFixed("engulfing_pattern_btc", defaults, EngulfingPatternBtc);
  }

  /** A preset submitted as the override of its own name comes back unchanged. */
  lemma PresetsAreFixedPoints(defaults: TradingParameters, name: string)
    requires name in PresetNames
    ensures Configured(name, defaults, Presets(defaults)[name]) == Presets(defaults)[name]
  {
    PresetNameCases(name);
    RsiOversoldFixed(defaults);
    MacdDivergenceFixed(defaults);
    SmartMoneyReversalFixed(defaults);
    EngulfingPatternBtcFixed(defaults);
  }

  // ------------------------------------------------------------ the MACD threshold

  /** The update rule of `min_histogram_threshold`: within [0.0001, 0.01], else 0.0001. */
  const HistogramThresholdRule: ParamRules.FieldRule := ParamRules.RealWithin(0.0001, 0.01, VReal(0.0001))

  lemma HistogramThresholdRuleOf()
    ensures ParamRules.RuleOf("min_histogram_threshold") == Some(HistogramThresholdRule)
  {
    ParamRules.HistogramRule();
  }

  lemma MacdAsWrittenThreshold()
    ensures MacdDefaults["min_histogram_threshold"] == VReal(0.00001)
  {
  }

  /** The as-written MACD back-fill holds a threshold its own update rule rejects as out of range and replaces. */
  lemma MacdThresholdAsWrittenOutOfRange()
    ensures ParamRules.RuleOf("min_histogram_threshold") == Some(HistogramThresholdRule)
    ensures !ParamRules.InRange(HistogramThresholdRule, MacdDefaults["min_histogram_threshold"])
    ensures ParamRules.CleanField(HistogramThresholdRule, MacdDefaults["min_histogram_threshold"])
      == ParamRules.Stored(VReal(0.0001), None)
  {
    HistogramThresholdRuleOf();
    MacdAsWrittenThreshold();
    ParamRules.BelowRealWithin(0.0001, 0.01, VReal(0.0001), 0.00001);
  }

  /** The corrected back-fill lies in range, is stored unchanged by the update and agrees with the MACD preset. */
  lemma MacdThresholdCorrected()
    ensures ParamRules.RuleOf("min_histogram_threshold") == Some(HistogramThresholdRule)
    ensures MacdDefaultsCorrected["min_histogram_threshold"] == MacdDivergence["min_histogram_threshold"]
    ensures ParamRules.InRange(HistogramThresholdRule, MacdDefaultsCorrected["min_histogram_threshold"])
    ensures ParamRules.CleanField(HistogramThresholdRule, MacdDefaultsCorrected["min_histogram_threshold"])
      == ParamRules.Stored(MacdDefaultsCorrected["min_histogram_threshold"], None)
  {
    HistogramThresholdRuleOf();
    PresetHistogramThreshold();
    MacdHistogramThreshold();
    ParamRules.InsideRealWithin(0.0001, 0.01, VReal(0.0001), 0.0001);
  }

  lemma MacdHistogramThreshold()
    ensures MacdDefaultsCorrected["min_histogram_threshold"] == VReal(0.0001)
  {
  }

  lemma PresetHistogramThreshold()
    ensures MacdDivergence["min_histogram_threshold"] == VReal(0.0001)
  {
  }

  /** The family back-fill table with the corrected MACD threshold. */
  function FamilyDefaultsCorrected(f: Family): Params
  {
    if f == MacdFamily then MacdDefaultsCorrected else FamilyDefaults(f)
  }

  /** `Configured` with the corrected MACD threshold. */
  function ConfiguredCorrected(name: string, defaults: TradingParameters, web: Params): Params
  {
    SetDefaults(SetDefaults(ToDict(defaults) + web, FamilyDefaultsCorrected(FamilyOf(name))), CommonDefaults)
  }

  /** `get_all_strategies` with the corrected MACD threshold. */
  function AllStrategiesCorrected(defaults: TradingParameters, overrides: map<string, Params>): map<string, Params>
  {
    Presets(defaults) + map n | n in overrides :: ConfiguredCorrected(n, defaults, overrides[n])
  }

  /** A key in neither the base nor the override takes the family back-fill when the family has it. */
  lemma FamilyBackfillKey(base: Params, web: Params, fam: Params, common: Params, key: string)
    requires key !in base && key !in web && key in fam
    ensures var c := SetDefaults(SetDefaults(base + web, fam), common); key in c && c[key] == fam[key]
  {
  }

  lemma ThresholdNotBase()
    ensures "min_histogram_threshold" !in BaseKeys
  {
  }

  /** 0.00001 lies below the threshold rule's minimum and is replaced by 0.0001; 0.0001 is kept. */
  lemma ThresholdRuleOn()
    ensures !ParamRules.InRange(HistogramThresholdRule, VReal(0.00001))
    ensures ParamRules.CleanField(HistogramThresholdRule, VReal(0.00001)) == ParamRules.Stored(VReal(0.0001), None)
    ensures ParamRules.InRange(HistogramThresholdRule, VReal(0.0001))
    ensures ParamRules.CleanField(HistogramThresholdRule, VReal(0.0001)) == ParamRules.Stored(VReal(0.0001), None)
  {
    ParamRules.BelowRealWithin(0.0001, 0.01, VReal(0.0001), 0.00001);
    ParamRules.InsideRealWithin(0.0001, 0.01, VReal(0.0001), 0.0001);
  }

  /** The MACD back-fill, as written, for a strategy whose override lacks the threshold. */
  lemma ConfiguredMacdThreshold(name: string, defaults: TradingParameters, web: Params)
    requires FamilyOf(name) == MacdFamily && "min_histogram_threshold" !in web
    ensures var c := Configured(name, defaults, web);
      "min_histogram_threshold" in c && c["min_histogram_threshold"] == VReal(0.00001)
  {
    ThresholdNotBase();
    MacdAsWrittenThreshold();
    FamilyBackfillKey(ToDict(defaults), web, MacdDefaults, CommonDefaults, "min_histogram_threshold");
  }

  /** The corrected MACD back-fill for a strategy whose override lacks the threshold. */
  lemma ConfiguredCorrectedMacdThreshold(name: string, defaults: TradingParameters, web: Params)
    requires FamilyOf(name) == MacdFamily && "min_histogram_threshold" !in web
    ensures var c := ConfiguredCorrected(name, defaults, web);
      "min_histogram_threshold" in c && c["min_histogram_threshold"] == VReal(0.0001)
  {
    ThresholdNotBase();
    MacdHistogramThreshold();
    FamilyBackfillKey(ToDict(defaults), web, MacdDefaultsCorrected, CommonDefaults, "min_histogram_threshold");
  }

  /**
   * As written, an overridden MACD-family strategy whose override lacks
   * `min_histogram_threshold` is handed 0.00001, a value below its own update
   * rule's minimum, which an update would replace by 0.0001.
   */
  lemma MacdBackfillAsWritten(defaults: TradingParameters, overrides: map<string, Params>, name: string)
    requires name in overrides && FamilyOf(name) == MacdFamily && "min_histogram_threshold" !in overrides[name]
    ensures var c := AllStrategies(defaults, overrides)[name];
      "min_histogram_threshold" in c && c["min_histogram_threshold"] == VReal(0.00001) &&
      !ParamRules.InRange(HistogramThresholdRule, c["min_histogram_threshold"]) &&
      ParamRules.CleanField(HistogramThresholdRule, c["min_histogram_threshold"]) == ParamRules.Stored(VReal(0.0001), None)
  {
    OverriddenConfigured(defaults, overrides, name);
    ConfiguredMacdThreshold(name, defaults, overrides[name]);
    ThresholdRuleOn();
  }

  /** The input that shows it: the store `{"macd_divergence": {}}`. */
  lemma MacdBackfillExample(defaults: TradingParameters)
    ensures var c := AllStrategies(defaults, map["macd_divergence" := map[]]);
      "macd_divergence" in c && "min_histogram_threshold" in c["macd_divergence"] &&
      c["macd_divergence"]["min_histogram_threshold"] == VReal(0.00001)
  {
    MacdDivergenceFamily();
    MacdBackfillAsWritten(defaults, map["macd_divergence" := map[]], "macd_divergence");
  }

  /** Corrected, the same strategy is handed 0.0001, which lies in range and is stored unchanged by an update. */
  lemma MacdBackfillCorrected(defaults: TradingParameters, overrides: map<string, Params>, name: string)
    requires name in overrides && FamilyOf(name) == MacdFamily && "min_histogram_threshold" !in overrides[name]
    ensures var c := AllStrategiesCorrected(defaults, overrides)[name];
      "min_histogram_threshold" in c && c["min_histogram_threshold"] == VReal(0.0001) &&
      ParamRules.InRange(HistogramThresholdRule, c["min_histogram_threshold"]) &&
      ParamRules.CleanField(HistogramThresholdRule, c["min_histogram_threshold"]) == ParamRules.Stored(VReal(0.0001), None)
  {
    CorrectedConfigured(defaults, overrides, name);
    ConfiguredCorrectedMacdThreshold(name, defaults, overrides[name]);
    ThresholdRuleOn();
  }

  /** With the correction, every overridden name is configured by `ConfiguredCorrected`. */
  lemma CorrectedConfigured(defaults: TradingParameters, overrides: map<string, Params>, name: string)
    requires name in overrides
    ensures name in AllStrategiesCorrected(defaults, overrides)
    ensures AllStrategiesCorrected(defaults, overrides)[name] == ConfiguredCorrected(name, defaults, overrides[name])
  {
    var configured := map n | n in overrides :: ConfiguredCorrected(n, defaults, overrides[n]);
    assert name in configured;
    MergeLookup(Presets(defaults), configured, name);
  }

  /** Two back-fills with the same keys that agree on `key` give the same strategy at `key`. */
  lemma SameBackfillAt(m: Params, fam1: Params, fam2: Params, common: Params, key: string)
    requires fam1.Keys == fam2.Keys && (key in fam1 ==> fam1[key] == fam2[key])
    ensures var c1, c2 := SetDefaults(SetDefaults(m, fam1), common), SetDefaults(SetDefaults(m, fam2), common);
      (key in c1 <==> key in c2) && (key in c1 ==> c1[key] == c2[key])
  {
  }

  /** The corrected MACD back-fill differs from the written one in the threshold only. */
  lemma CorrectedFamilyAgrees(f: Family, key: string)
    requires key != "min_histogram_threshold" || f != MacdFamily
    ensures FamilyDefaultsCorrected(f).Keys == FamilyDefaults(f).Keys
    ensures key in FamilyDefaults(f) ==> FamilyDefaultsCorrected(f)[key] == FamilyDefaults(f)[key]
  {
  }

  /** The correction changes nothing but that one value: every other strategy and key is as written. */
  lemma CorrectedAgreesElsewhere(defaults: TradingParameters, overrides: map<string, Params>, name: string, key: string)
    requires name in AllStrategies(defaults, overrides)
    requires key != "min_histogram_threshold" || name !in overrides || FamilyOf(name) != MacdFamily
    ensures name in AllStrategiesCorrected(defaults, overrides)
    ensures key in AllStrategiesCorrected(defaults, overrides)[name] <==> key in AllStrategies(defaults, overrides)[name]
    ensures key in AllStrategies(defaults, overrides)[name] ==>
      AllStrategiesCorrected(defaults, overrides)[name][key] == AllStrategies(defaults, overrides)[name][key]
  {
    if name in overrides {
      OverriddenConfigured(defaults, overrides, name);
      CorrectedConfigured(defaults, overrides, name);
      CorrectedFamilyAgrees(FamilyOf(name), key);
      SameBackfillAt(ToDict(defaults) + overrides[name], FamilyDefaultsCorrected(FamilyOf(name)),
        FamilyDefaults(FamilyOf(name)), CommonDefaults, key);
    } else {
      var configured := map n | n in overrides :: ConfiguredCorrected(n, defaults, overrides[n]);
      MergeLookup(Presets(defaults), configured, name);
      MergeLookup(Presets(defaults), ConfiguredAll(defaults, overrides), name);
    }
  }

  /** The liquidity back-fill keys have no update rule: the dashboard cannot change them. */
  lemma LiquidityKeysUnmanaged()
    ensures forall k :: k in LiquidityDefaults ==> ParamRules.RuleOf(k).None?
  {
    LiquidityAvoidsBasic();
    LiquidityAvoidsRsi();
    LiquidityAvoidsMacd();
    LiquidityAvoidsRest();
    LiquidityAvoidsSessions();
    LiquidityNotUniversalFloat();
    LiquidityNotUniversalInt();
    forall k | k in LiquidityDefaults ensures ParamRules.RuleOf(k).None? {
      ParamRules.NoRule(k);
    }
  }

  lemma LiquidityAvoidsBasic()
    ensures forall k :: k in LiquidityDefaults ==> ParamRules.Avoids(ParamRules.BasicRules, k)
  {
  }

  lemma LiquidityAvoidsRsi()
    ensures forall k :: k in LiquidityDefaults ==> ParamRules.Avoids(ParamRules.RsiRules, k)
  {
  }

  lemma LiquidityAvoidsMacd()
    ensures forall k :: k in LiquidityDefaults ==> ParamRules.Avoids(ParamRules.MacdRules, k)
  {
  }

  lemma LiquidityAvoidsRest()
    ensures forall k :: k in LiquidityDefaults ==>
      ParamRules.Avoids(ParamRules.EngulfingRules, k) && ParamRules.Avoids(ParamRules.SmartMoneyRules, k)
  {
  }

  lemma LiquidityAvoidsSessions()
    ensures forall k :: k in LiquidityDefaults ==>
      ParamRules.Avoids(ParamRules.RulesAfterSessions, k) && k != "session_filter_enabled" && k != "allowed_sessions"
  {
  }

  lemma LiquidityNotUniversalFloat()
    ensures forall k :: k in LiquidityDefaults ==> k !in ParamRules.UniversalFloatParams
  {
  }

  lemma LiquidityNotUniversalInt()
    ensures forall k :: k in LiquidityDefaults ==> k !in ParamRules.UniversalIntParams
  {
  }
}
