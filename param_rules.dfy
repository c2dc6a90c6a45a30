/**
 * The per-parameter cleaning rules of `update_strategy_params`: each
 * recognised key is converted, then range-checked, enum-checked or clamped;
 * an out-of-range value is replaced by a fallback inside the range. Keys with
 * no rule are dropped. A conversion that Python cannot perform raises and
 * aborts the whole update; that is the `Err` outcome here.
 */
module ParamRules {
  import opened Wrappers
  import opened PyValues
  import opened MapLemmas

  /** How one recognised key is cleaned. */
  datatype FieldRule =
    | SymbolRule                                        // str(v).upper()
    | MarginRule                                        // float; <= 0 becomes 50.0, with a message
    | LeverageRule                                      // int; outside [1, 125] becomes 5, with a message when v == 0
    | TimeframeRule                                     // str; outside the twelve intervals becomes '15m'
    | RealWithin(lo: real, hi: real, fallback: Value)   // float; outside [lo, hi] becomes fallback
    | RealAboveWithin(lo: real, hi: real, fallback: Value) // float; outside (lo, hi] becomes fallback
    | RealAtLeast(lo: real, fallback: Value)            // float; below lo becomes fallback
    | IntWithin(min: int, max: int, default: int)      // int; outside [min, max] becomes default
    | IntClamp(floor: int, ceiling: int)               // int; saturated into [floor, ceiling]
    | FlagRule                                          // bool(v)
    | SessionsRule                                      // a string or a list of session names

  const ValidTimeframes: seq<string> := ["1m", "3m", "5m", "15m", "30m", "1h", "2h", "4h", "6h", "8h", "12h", "1d"]

  /** What `allowed_sessions: 'DISABLED'` stores. */
  const AllSessions: seq<string> := ["LONDON", "NEW_YORK", "ASIAN", "OVERLAP"]

  const MarginMessage: string := "Margin cannot be zero - set to safe default 50.0 USDT"

  const LeverageMessage: string := "Leverage cannot be zero - set to safe default 5x"

  const UniversalFloatParams: seq<string> := [
    "entry_threshold", "exit_threshold", "volatility_filter", "volume_filter",
    "momentum_threshold", "trend_strength", "signal_confidence", "risk_multiplier",
    "profit_multiplier", "drawdown_limit", "correlation_threshold", "spread_threshold"]

  const UniversalIntParams: seq<string> := [
    "lookback_period", "confirmation_period", "signal_period", "trend_period",
    "volume_period", "momentum_period", "filter_period", "threshold_period"]

  /** A table of rules: key and rule, in the order the source handles the keys. */
  type RuleTable = seq<(string, FieldRule)>

  /** The basic trading parameters. */
  const BasicRules: RuleTable := [
    ("symbol", SymbolRule),
    ("margin", MarginRule),
    ("leverage", LeverageRule),
    ("timeframe", TimeframeRule),
    ("max_loss_pct", RealAboveWithin(0.0, 50.0, VReal(10.0))),
    ("assessment_interval", IntClamp(5, 300)),
    ("decimals", IntWithin(0, 8, 2)),
    ("cooldown_period", IntClamp(30, 3600)),
    ("min_volume", RealAtLeast(0.0, VInt(1000000)))]

  /** The RSI strategy parameters. */
  const RsiRules: RuleTable := [
    ("rsi_period", IntWithin(5, 50, 14)),
    ("rsi_long_entry", IntWithin(10, 50, 40)),
    ("rsi_long_exit", IntWithin(50, 90, 70)),
    ("rsi_short_entry", IntWithin(50, 90, 60)),
    ("rsi_short_exit", IntWithin(10, 50, 30))]

  /** The MACD strategy parameters, with the entry and exit thresholds. */
  const MacdRules: RuleTable := [
    ("macd_fast", IntWithin(5, 20, 12)),
    ("macd_slow", IntWithin(20, 50, 26)),
    ("macd_signal", IntWithin(5, 15, 9)),
    ("min_histogram_threshold", RealWithin(0.0001, 0.01, VReal(0.0001))),
    ("min_distance_threshold", RealWithin(0.001, 5.0, VReal(0.005))),
    ("confirmation_candles", IntWithin(1, 5, 2)),
    ("histogram_divergence_lookback", IntWithin(5, 50, 10)),
    ("price_divergence_lookback", IntWithin(5, 50, 10)),
    ("divergence_strength_min", RealWithin(0.1, 1.0, VReal(0.4))),
    ("macd_entry_threshold", RealWithin(0.001, 1.0, VReal(0.05))),
    ("macd_exit_threshold", RealWithin(0.001, 1.0, VReal(0.02)))]

  /** The engulfing-pattern strategy parameters. */
  const EngulfingRules: RuleTable := [
    ("rsi_threshold", RealWithin(30.0, 70.0, VInt(50))),
    ("stable_candle_ratio", RealWithin(0.1, 1.0, VReal(0.5))),
    ("price_lookback_bars", IntWithin(3, 20, 5))]

  /** The smart-money strategy parameters. */
  const SmartMoneyRules: RuleTable := [
    ("swing_lookback_period", IntWithin(10, 100, 25)),
    ("sweep_threshold_pct", RealWithin(0.01, 1.0, VReal(0.1))),
    ("reversion_candles", IntWithin(1, 10, 3)),
    ("volume_spike_multiplier", RealWithin(1.0, 10.0, VReal(2.0))),
    ("min_swing_distance_pct", RealWithin(0.1, 5.0, VReal(1.0))),
    ("max_daily_trades", IntWithin(1, 20, 3))]

  /** The strategy parameters before the session settings. */
  const StrategyRules: RuleTable := BasicRules + RsiRules + MacdRules + EngulfingRules + SmartMoneyRules

  /** The named keys handled before `allowed_sessions`: the last is the session filter flag. */
  const RulesBeforeSessions: RuleTable := StrategyRules + [("session_filter_enabled", FlagRule)]

  /** The named keys handled after `allowed_sessions`. */
  const RulesAfterSessions: RuleTable := [
    ("trend_filter_enabled", FlagRule),
    ("partial_tp_pnl_threshold", RealWithin(0.0, 1000.0, VReal(0.0))),
    ("partial_tp_position_percentage", RealWithin(0.0, 99.0, VReal(0.0)))]

  /** One rule for each of `keys`, in order. */
  function SameRule(keys: seq<string>, rule: FieldRule): (t: RuleTable)
    ensures |t| == |keys| && forall i :: 0 <= i < |t| ==> t[i] == (keys[i], rule)
  {
    if keys == [] then [] else [(keys[0], rule)] + SameRule(keys[1..], rule)
  }

  /** The loop over the universal float parameters: each in [0.001, 10.0], else 0.1. */
  const UniversalFloatRules: RuleTable := SameRule(UniversalFloatParams, RealWithin(0.001, 10.0, VReal(0.1)))

  /** The loop over the universal int parameters: each in [1, 100], else 14. */
  const UniversalIntRules: RuleTable := SameRule(UniversalIntParams, IntWithin(1, 100, 14))

  /** Every rule after `allowed_sessions`. */
  const TableAfterSessions: RuleTable := RulesAfterSessions + UniversalFloatRules + UniversalIntRules

  /** The whole table, in processing order. */
  const Rules: RuleTable := RulesBeforeSessions + [("allowed_sessions", SessionsRule)] + TableAfterSessions

  function KeysOf(t: RuleTable): (keys: seq<string>)
    ensures |keys| == |t| && forall i :: 0 <= i < |t| ==> keys[i] == t[i].0
  {
    if t == [] then [] else [t[0].0] + KeysOf(t[1..])
  }

  /** Every recognised key, in processing order. */
  const RuleKeys: seq<string> := KeysOf(Rules)

  /** The rule of the first entry for `key`. */
  function Lookup(t: RuleTable, key: string): (r: Option<FieldRule>)
    ensures r.Some? <==> key in KeysOf(t)
    ensures r.Some? ==> exists i :: 0 <= i < |t| && t[i] == (key, r.value)
  {
    if t == [] then None
    else if t[0].0 == key then Some(t[0].1)
    else
      var r := Lookup(t[1..], key);
      assert forall i :: 0 <= i < |t| - 1 ==> t[1..][i] == t[i + 1];
      assert KeysOf(t) == [t[0].0] + KeysOf(t[1..]);
      r
  }

  lemma {:induction false} LookupAppend(a: RuleTable, b: RuleTable, key: string)
    requires key !in KeysOf(a)
    ensures Lookup(a + b, key) == Lookup(b, key)
  {
    if a != [] {
      assert (a + b)[1..] == a[1..] + b;
      assert KeysOf(a) == [a[0].0] + KeysOf(a[1..]);
      LookupAppend(a[1..], b, key);
    } else {
      assert a + b == b;
    }
  }

  /** What each entry of the table promises: a sound rule, and the special rules only under their own keys. */
  predicate EntryOk(e: (string, FieldRule))
  {
    Sound(e.1) &&
    (e.1 == SessionsRule ==> e.0 == "allowed_sessions") &&
    (e.1 == MarginRule ==> e.0 == "margin") &&
    (e.1 == LeverageRule ==> e.0 == "leverage") &&
    (e.1 == TimeframeRule ==> e.0 == "timeframe")
  }

  predicate TableOk(t: RuleTable)
  {
    forall i :: 0 <= i < |t| ==> EntryOk(t[i])
  }

  lemma {:induction false} TableOkAppend(a: RuleTable, b: RuleTable)
    requires TableOk(a) && TableOk(b)
    ensures TableOk(a + b)
  {
    forall i | 0 <= i < |a + b| ensures EntryOk((a + b)[i]) {
      if i < |a| { assert (a + b)[i] == a[i]; } else { assert (a + b)[i] == b[i - |a|]; }
    }
  }

  lemma SameRuleOk(keys: seq<string>, rule: FieldRule)
    requires Sound(rule) && rule != SessionsRule && rule != MarginRule && rule != LeverageRule && rule != TimeframeRule
    ensures TableOk(SameRule(keys, rule))
  {
  }

  lemma BasicOk() ensures TableOk(BasicRules) {}
  lemma RsiOk() ensures TableOk(RsiRules) {}
  lemma MacdOk() ensures TableOk(MacdRules) {}
  lemma EngulfingOk() ensures TableOk(EngulfingRules) {}
  lemma SmartMoneyOk() ensures TableOk(SmartMoneyRules) {}

  lemma BeforeOk()
    ensures TableOk(RulesBeforeSessions)
  {
    BasicOk(); RsiOk(); MacdOk(); EngulfingOk(); SmartMoneyOk();
    TableOkAppend(BasicRules, RsiRules);
    TableOkAppend(BasicRules + RsiRules, MacdRules);
    TableOkAppend(BasicRules + RsiRules + MacdRules, EngulfingRules);
    TableOkAppend(BasicRules + RsiRules + MacdRules + EngulfingRules, SmartMoneyRules);
    assert TableOk([("session_filter_enabled", FlagRule)]);
    TableOkAppend(StrategyRules, [("session_filter_enabled", FlagRule)]);
  }

  lemma AfterOk()
    ensures TableOk(TableAfterSessions)
  {
    assert TableOk(RulesAfterSessions);
    SameRuleOk(UniversalFloatParams, RealWithin(0.001, 10.0, VReal(0.1)));
    SameRuleOk(UniversalIntParams, IntWithin(1, 100, 14));
    TableOkAppend(RulesAfterSessions, UniversalFloatRules);
    TableOkAppend(RulesAfterSessions + UniversalFloatRules, UniversalIntRules);
  }

  lemma SessionsAround(before: RuleTable, after: RuleTable)
    requires TableOk(before) && TableOk(after)
    ensures TableOk(before + [("allowed_sessions", SessionsRule)] + after)
  {
    assert TableOk([("allowed_sessions", SessionsRule)]);
    TableOkAppend(before, [("allowed_sessions", SessionsRule)]);
    TableOkAppend(before + [("allowed_sessions", SessionsRule)], after);
  }

  /** Every entry of the whole table keeps `EntryOk`. */
  lemma RulesOk()
    ensures TableOk(Rules)
  {
    BeforeOk();
    AfterOk();
    SessionsAround(RulesBeforeSessions, TableAfterSessions);
  }

  /** A present entry for `key` in a table of `EntryOk` entries keeps `EntryOk`. */
  lemma LookupEntryOk(rules: RuleTable, key: string)
    requires TableOk(rules)
    ensures Lookup(rules, key).Some? ==> EntryOk((key, Lookup(rules, key).value))
  {
  }

  /** No entry of `t` is under `key`. */
  predicate Avoids(t: RuleTable, key: string)
  {
    forall i :: 0 <= i < |t| ==> t[i].0 != key
  }

  lemma {:induction false} AvoidsAppend(a: RuleTable, b: RuleTable, key: string)
    requires Avoids(a, key) && Avoids(b, key)
    ensures Avoids(a + b, key) && key !in KeysOf(a + b)
  {
    forall i | 0 <= i < |a + b| ensures (a + b)[i].0 != key {
      if i < |a| { assert (a + b)[i] == a[i]; } else { assert (a + b)[i] == b[i - |a|]; }
    }
  }

  lemma KeysOfAppend(a: RuleTable, b: RuleTable)
    ensures KeysOf(a + b) == KeysOf(a) + KeysOf(b)
  {
  }

  lemma AvoidsNotIn(t: RuleTable, key: string)
    requires Avoids(t, key)
    ensures key !in KeysOf(t)
  {
  }

  lemma SameRuleAvoids(keys: seq<string>, rule: FieldRule, key: string)
    requires key !in keys
    ensures Avoids(SameRule(keys, rule), key)
  {
  }

  /** The first entry under its key is the one found. */
  lemma FirstEntry(x: RuleTable, e: (string, FieldRule), z: RuleTable)
    requires Avoids(x, e.0)
    ensures Lookup(x + [e] + z, e.0) == Some(e.1)
  {
    assert x + [e] + z == x + ([e] + z);
    AvoidsNotIn(x, e.0);
    LookupAppend(x, [e] + z, e.0);
    assert ([e] + z)[0] == e;
  }

  lemma KeysAround(b: RuleTable, e: (string, FieldRule), a: RuleTable)
    ensures KeysOf(b + [e] + a) == KeysOf(b) + [e.0] + KeysOf(a)
  {
    KeysOfAppend(b, [e]);
    KeysOfAppend(b + [e], a);
  }

  lemma StrategyAvoids(key: string)
    requires Avoids(BasicRules, key) && Avoids(RsiRules, key) && Avoids(MacdRules, key)
    requires Avoids(EngulfingRules, key) && Avoids(SmartMoneyRules, key)
    ensures Avoids(StrategyRules, key)
  {
    AvoidsAppend(BasicRules, RsiRules, key);
    AvoidsAppend(BasicRules + RsiRules, MacdRules, key);
    AvoidsAppend(BasicRules + RsiRules + MacdRules, EngulfingRules, key);
    AvoidsAppend(BasicRules + RsiRules + MacdRules + EngulfingRules, SmartMoneyRules, key);
  }

  lemma AfterAvoids(key: string)
    requires Avoids(RulesAfterSessions, key) && key !in UniversalFloatParams && key !in UniversalIntParams
    ensures Avoids(TableAfterSessions, key)
  {
    SameRuleAvoids(UniversalFloatParams, RealWithin(0.001, 10.0, VReal(0.1)), key);
    SameRuleAvoids(UniversalIntParams, IntWithin(1, 100, 14), key);
    AvoidsAppend(RulesAfterSessions, UniversalFloatRules, key);
    AvoidsAppend(RulesAfterSessions + UniversalFloatRules, UniversalIntRules, key);
  }

  lemma BasicAvoids() ensures Avoids(BasicRules, "allowed_sessions") && Avoids(BasicRules, "session_filter_enabled") {}
  lemma RsiAvoids() ensures Avoids(RsiRules, "allowed_sessions") && Avoids(RsiRules, "session_filter_enabled") {}
  lemma MacdAvoids() ensures Avoids(MacdRules, "allowed_sessions") && Avoids(MacdRules, "session_filter_enabled") {}
  lemma EngulfingAvoids() ensures Avoids(EngulfingRules, "allowed_sessions") && Avoids(EngulfingRules, "session_filter_enabled") {}
  lemma SmartMoneyAvoids() ensures Avoids(SmartMoneyRules, "allowed_sessions") && Avoids(SmartMoneyRules, "session_filter_enabled") {}
  lemma NamedAfterAvoids() ensures Avoids(RulesAfterSessions, "allowed_sessions") && Avoids(RulesAfterSessions, "session_filter_enabled") {}
  lemma UniversalAvoids()
    ensures "allowed_sessions" !in UniversalFloatParams && "allowed_sessions" !in UniversalIntParams
    ensures "session_filter_enabled" !in UniversalFloatParams && "session_filter_enabled" !in UniversalIntParams
  {
  }

  lemma BeforeAvoids()
    ensures Avoids(RulesBeforeSessions, "allowed_sessions") && Avoids(StrategyRules, "session_filter_enabled")
  {
    BasicAvoids(); RsiAvoids(); MacdAvoids(); EngulfingAvoids(); SmartMoneyAvoids();
    StrategyAvoids("allowed_sessions");
    StrategyAvoids("session_filter_enabled");
    assert Avoids([("session_filter_enabled", FlagRule)], "allowed_sessions");
    AvoidsAppend(StrategyRules, [("session_filter_enabled", FlagRule)], "allowed_sessions");
  }

  lemma AfterAvoidsBoth()
    ensures Avoids(TableAfterSessions, "allowed_sessions") && Avoids(TableAfterSessions, "session_filter_enabled")
  {
    NamedAfterAvoids();
    UniversalAvoids();
    AfterAvoids("allowed_sessions");
    AfterAvoids("session_filter_enabled");
  }

  /** Where `allowed_sessions` and `session_filter_enabled` sit in the table. */
  lemma TableLayout()
    ensures RuleKeys == KeysOf(RulesBeforeSessions) + ["allowed_sessions"] + KeysOf(TableAfterSessions)
    ensures "allowed_sessions" !in KeysOf(RulesBeforeSessions) && "allowed_sessions" !in KeysOf(TableAfterSessions)
    ensures "session_filter_enabled" !in KeysOf(TableAfterSessions)
    ensures Lookup(Rules, "allowed_sessions") == Some(SessionsRule)
    ensures Lookup(Rules, "session_filter_enabled") == Some(FlagRule)
    ensures "session_filter_enabled" in RuleKeys
  {
    BeforeAvoids();
    AfterAvoidsBoth();
    KeysAround(RulesBeforeSessions, ("allowed_sessions", SessionsRule), TableAfterSessions);
    AvoidsNotIn(RulesBeforeSessions, "allowed_sessions");
    AvoidsNotIn(TableAfterSessions, "allowed_sessions");
    AvoidsNotIn(TableAfterSessions, "session_filter_enabled");
    SessionsEntry();
    FlagEntry();
  }

  lemma SessionsEntry()
    ensures Lookup(Rules, "allowed_sessions") == Some(SessionsRule)
  {
    BeforeAvoids();
    FirstEntry(RulesBeforeSessions, ("allowed_sessions", SessionsRule), TableAfterSessions);
  }

  lemma FlagEntry()
    ensures Lookup(Rules, "session_filter_enabled") == Some(FlagRule)
  {
    BeforeAvoids();
    var rest := [("allowed_sessions", SessionsRule)] + TableAfterSessions;
    FirstEntry(StrategyRules, ("session_filter_enabled", FlagRule), rest);
    ConcatAssoc(RulesBeforeSessions, [("allowed_sessions", SessionsRule)], TableAfterSessions);
  }

  lemma ConcatAssoc<T>(a: seq<T>, b: seq<T>, c: seq<T>)
    ensures a + b + c == a + (b + c)
  {
  }

  lemma {:induction false} LookupPrefix(a: RuleTable, b: RuleTable, key: string)
    requires Lookup(a, key).Some?
    ensures Lookup(a + b, key) == Lookup(a, key)
  {
    assert a != [];
    if a[0].0 != key {
      assert (a + b)[1..] == a[1..] + b;
      LookupPrefix(a[1..], b, key);
    }
  }

  /** An entry whose key no other entry repeats is the one found. */
  lemma OnlyAt(t: RuleTable, i: nat)
    requires i < |t| && forall j :: 0 <= j < |t| && j != i ==> t[j].0 != t[i].0
    ensures Lookup(t, t[i].0) == Some(t[i].1)
  {
    assert KeysOf(t)[i] == t[i].0;
  }

  /** A key found in the first section keeps that rule in a table of eight sections. */
  lemma FoundFirst(a: RuleTable, b: RuleTable, c: RuleTable, d: RuleTable, e: RuleTable, f: RuleTable, g: RuleTable, h: RuleTable, key: string)
    requires Lookup(a, key).Some?
    ensures Lookup(a + b + c + d + e + f + g + h, key) == Lookup(a, key)
  {
    LookupPrefix(a, b, key);
    LookupPrefix(a + b, c, key);
    LookupPrefix(a + b + c, d, key);
    LookupPrefix(a + b + c + d, e, key);
    LookupPrefix(a + b + c + d + e, f, key);
    LookupPrefix(a + b + c + d + e + f, g, key);
    LookupPrefix(a + b + c + d + e + f + g, h, key);
  }

  /** A key absent from the first two sections and found in the third keeps that rule in a table of eight sections. */
  lemma FoundThird(a: RuleTable, b: RuleTable, c: RuleTable, d: RuleTable, e: RuleTable, f: RuleTable, g: RuleTable, h: RuleTable, key: string)
    requires Avoids(a, key) && Avoids(b, key) && Lookup(c, key).Some?
    ensures Lookup(a + b + c + d + e + f + g + h, key) == Lookup(c, key)
  {
    AvoidsAppend(a, b, key);
    LookupAppend(a + b, c, key);
    LookupPrefix(a + b + c, d, key);
    LookupPrefix(a + b + c + d, e, key);
    LookupPrefix(a + b + c + d + e, f, key);
    LookupPrefix(a + b + c + d + e + f, g, key);
    LookupPrefix(a + b + c + d + e + f + g, h, key);
  }

  lemma MarginEntry() ensures Lookup(BasicRules, "margin") == Some(MarginRule) { OnlyAt(BasicRules, 1); }
  lemma LeverageEntry() ensures Lookup(BasicRules, "leverage") == Some(LeverageRule) { OnlyAt(BasicRules, 2); }
  lemma TimeframeEntry() ensures Lookup(BasicRules, "timeframe") == Some(TimeframeRule) { OnlyAt(BasicRules, 3); }

  /** The margin, leverage and timeframe rules. */
  lemma BasicRuleOf()
    ensures Lookup(Rules, "margin") == Some(MarginRule)
    ensures Lookup(Rules, "leverage") == Some(LeverageRule)
    ensures Lookup(Rules, "timeframe") == Some(TimeframeRule)
  {
    MarginEntry();
    LeverageEntry();
    TimeframeEntry();
    var ss := [("session_filter_enabled", FlagRule)];
    var al := [("allowed_sessions", SessionsRule)];
    FoundFirst(BasicRules, RsiRules, MacdRules, EngulfingRules, SmartMoneyRules, ss, al, TableAfterSessions, "margin");
    FoundFirst(BasicRules, RsiRules, MacdRules, EngulfingRules, SmartMoneyRules, ss, al, TableAfterSessions, "leverage");
    FoundFirst(BasicRules, RsiRules, MacdRules, EngulfingRules, SmartMoneyRules, ss, al, TableAfterSessions, "timeframe");
  }

  /** The margin rule, on its own. */
  lemma MarginRuleOf()
    ensures RuleOf("margin") == Some(MarginRule)
  {
    MarginEntry();
    var ss := [("session_filter_enabled", FlagRule)];
    var al := [("allowed_sessions", SessionsRule)];
    FoundFirst(BasicRules, RsiRules, MacdRules, EngulfingRules, SmartMoneyRules, ss, al, TableAfterSessions, "margin");
  }

  /** A zero margin is stored as 50.0 with the margin message. */
  lemma MarginZeroField()
    ensures CleanField(MarginRule, VInt(0)) == Stored(VReal(50.0), Some(MarginMessage))
  {
  }

  /** Any margin that converts to a number at or below zero is stored as 50.0 with the margin message. */
  lemma MarginNonPositiveField(raw: Value)
    requires PyFloat(raw).Some? && PyFloat(raw).value <= 0.0
    ensures CleanField(MarginRule, raw) == Stored(VReal(50.0), Some(MarginMessage))
  {
  }

  /** The leverage rule, on its own. */
  lemma LeverageRuleOf()
    ensures RuleOf("leverage") == Some(LeverageRule)
  {
    LeverageEntry();
    var ss := [("session_filter_enabled", FlagRule)];
    var al := [("allowed_sessions", SessionsRule)];
    FoundFirst(BasicRules, RsiRules, MacdRules, EngulfingRules, SmartMoneyRules, ss, al, TableAfterSessions, "leverage");
  }

  /** The timeframe rule, on its own. */
  lemma TimeframeRuleOf()
    ensures RuleOf("timeframe") == Some(TimeframeRule)
  {
    TimeframeEntry();
    var ss := [("session_filter_enabled", FlagRule)];
    var al := [("allowed_sessions", SessionsRule)];
    FoundFirst(BasicRules, RsiRules, MacdRules, EngulfingRules, SmartMoneyRules, ss, al, TableAfterSessions, "timeframe");
  }

  /** A positive margin is stored as given, without a message. */
  lemma MarginPositiveField(x: real)
    requires x > 0.0
    ensures CleanField(MarginRule, VReal(x)) == Stored(VReal(x), None)
  {
  }

  /** A leverage above 125 becomes 5, without a message (only a zero leverage is reported). */
  lemma LeverageHighField(n: int)
    requires n > 125
    ensures CleanField(LeverageRule, VInt(n)) == Stored(VInt(5), None)
  {
  }

  /** A timeframe outside the twelve listed intervals becomes '15m'. */
  lemma TimeframeUnknownField(t: string)
    requires t !in ValidTimeframes
    ensures CleanField(TimeframeRule, VStr(t)) == Stored(VStr("15m"), None)
  {
  }

  lemma AssessmentEntry() ensures Lookup(BasicRules, "assessment_interval") == Some(IntClamp(5, 300)) { OnlyAt(BasicRules, 5); }

  /** The assessment interval is clamped into [5, 300]. */
  lemma AssessmentRuleOf()
    ensures Lookup(Rules, "assessment_interval") == Some(IntClamp(5, 300))
  {
    AssessmentEntry();
    var ss := [("session_filter_enabled", FlagRule)];
    var al := [("allowed_sessions", SessionsRule)];
    FoundFirst(BasicRules, RsiRules, MacdRules, EngulfingRules, SmartMoneyRules, ss, al, TableAfterSessions, "assessment_interval");
  }

  /** A number converts under the margin, leverage and clamp rules. */
  lemma NumberConverts(rule: FieldRule, v: Value)
    requires rule == MarginRule || rule == LeverageRule || rule.IntClamp?
    requires AsNumber(v).Some?
    ensures CleanField(rule, v).Stored?
  {
  }

  /** A number is always accepted for `margin`, `leverage` and `assessment_interval`: their conversions cannot raise on it. */
  lemma NumberAccepted(key: string, v: Value)
    requires key == "margin" || key == "leverage" || key == "assessment_interval"
    requires AsNumber(v).Some?
    ensures !Rejects(key, v)
  {
    BasicRuleOf();
    AssessmentRuleOf();
    var rule := Lookup(Rules, key).value;
    NumberConverts(rule, v);
    assert Rejects(key, v) == CleanField(rule, v).Rejected?;
  }

  /** The dashboard's bookkeeping keys and the liquidity look-back have no rule, so an update drops them. */
  lemma DroppedKeys()
    ensures RuleOf("name").None? && RuleOf("enabled").None? && RuleOf("lookback_candles").None?
  {
    DroppedKey("name");
    DroppedKey("enabled");
    DroppedKey("lookback_candles");
  }

  lemma DroppedKey(k: string)
    requires k in ["name", "enabled", "lookback_candles"]
    ensures RuleOf(k).None?
  {
    DroppedAvoidStrategy();
    DroppedAvoidRest();
    NoRule(k);
  }

  lemma DroppedAvoidStrategy()
    ensures forall k :: k in ["name", "enabled", "lookback_candles"] ==>
      Avoids(BasicRules, k) && Avoids(RsiRules, k) && Avoids(MacdRules, k)
  {
  }

  lemma DroppedAvoidRest()
    ensures forall k :: k in ["name", "enabled", "lookback_candles"] ==>
      Avoids(EngulfingRules, k) && Avoids(SmartMoneyRules, k) && Avoids(RulesAfterSessions, k) &&
      k !in UniversalFloatParams && k !in UniversalIntParams
  {
  }

  lemma HistogramEntry()
    ensures Lookup(MacdRules, "min_histogram_threshold") == Some(RealWithin(0.0001, 0.01, VReal(0.0001)))
  {
    OnlyAt(MacdRules, 3);
  }

  lemma HistogramAvoids()
    ensures Avoids(BasicRules, "min_histogram_threshold") && Avoids(RsiRules, "min_histogram_threshold")
  {
  }

  /** The rule of the MACD histogram threshold. */
  lemma HistogramRule()
    ensures Lookup(Rules, "min_histogram_threshold") == Some(RealWithin(0.0001, 0.01, VReal(0.0001)))
  {
    HistogramEntry();
    HistogramAvoids();
    var ss := [("session_filter_enabled", FlagRule)];
    var al := [("allowed_sessions", SessionsRule)];
    FoundThird(BasicRules, RsiRules, MacdRules, EngulfingRules, SmartMoneyRules, ss, al, TableAfterSessions, "min_histogram_threshold");
  }

  /** A key no section names has no rule. */
  lemma NoRule(key: string)
    requires Avoids(BasicRules, key) && Avoids(RsiRules, key) && Avoids(MacdRules, key)
    requires Avoids(EngulfingRules, key) && Avoids(SmartMoneyRules, key) && Avoids(RulesAfterSessions, key)
    requires key != "session_filter_enabled" && key != "allowed_sessions"
    requires key !in UniversalFloatParams && key !in UniversalIntParams
    ensures Lookup(Rules, key).None?
  {
    StrategyAvoids(key);
    assert Avoids([("session_filter_enabled", FlagRule)], key);
    AvoidsAppend(StrategyRules, [("session_filter_enabled", FlagRule)], key);
    assert Avoids([("allowed_sessions", SessionsRule)], key);
    AvoidsAppend(RulesBeforeSessions, [("allowed_sessions", SessionsRule)], key);
    AfterAvoids(key);
    AvoidsAppend(RulesBeforeSessions + [("allowed_sessions", SessionsRule)], TableAfterSessions, key);
  }

  /** The rule for a key; `None` for a key the update drops. */
  function RuleOf(key: string): Option<FieldRule>
  {
    Lookup(Rules, key)
  }

  /** The declared range, or type, of a stored value. */
  predicate InRange(rule: FieldRule, v: Value)
  {
    match rule
    case SymbolRule => v.VStr? && forall i :: 0 <= i < |v.s| ==> !IsLowerAscii(v.s[i])
    case MarginRule => v.VReal? && v.r > 0.0
    case LeverageRule => v.VInt? && 1 <= v.i <= 125
    case TimeframeRule => v.VStr? && v.s in ValidTimeframes
    case RealWithin(lo, hi, _) => AsNumber(v).Some? && lo <= AsNumber(v).value <= hi
    case RealAboveWithin(lo, hi, _) => AsNumber(v).Some? && lo < AsNumber(v).value <= hi
    case RealAtLeast(lo, _) => AsNumber(v).Some? && lo <= AsNumber(v).value
    case IntWithin(lo, hi, _) => v.VInt? && lo <= v.i <= hi
    case IntClamp(lo, hi) => v.VInt? && lo <= v.i <= hi
    case FlagRule => v.VBool?
    case SessionsRule => v.VList?
  }

  /** A rule whose fallback lies inside its own range. */
  predicate Sound(rule: FieldRule)
  {
    match rule
    case RealWithin(_, _, fallback) => InRange(rule, fallback)
    case RealAboveWithin(_, _, fallback) => InRange(rule, fallback)
    case RealAtLeast(_, fallback) => InRange(rule, fallback)
    case IntWithin(lo, hi, fallback) => lo <= fallback <= hi
    case IntClamp(lo, hi) => lo <= hi
    case _ => true
  }

  /** The result of cleaning one field: Python raised, or the value to store and an optional message. */
  datatype FieldOutcome = Rejected | Stored(value: Value, note: Option<string>)

  /** The cleaning of one raw value under one rule. */
  function CleanField(rule: FieldRule, raw: Value): FieldOutcome
  {
    match rule
    case SymbolRule => Stored(VStr(Upper(PyStr(raw))), None)
    case MarginRule =>
      (match PyFloat(raw)
       case None => Rejected
       case Some(x) => if x <= 0.0 then Stored(VReal(50.0), Some(MarginMessage)) else Stored(VReal(x), None))
    case LeverageRule =>
      (match PyInt(raw)
       case None => Rejected
       case Some(n) =>
         if n <= 0 || n > 125 then Stored(VInt(5), if PyEqualsZero(raw) then Some(LeverageMessage) else None)
         else Stored(VInt(n), None))
    case TimeframeRule =>
      var t := PyStr(raw);
      Stored(VStr(if t in ValidTimeframes then t else "15m"), None)
    case RealWithin(lo, hi, fallback) =>
      (match PyFloat(raw)
       case None => Rejected
       case Some(x) => if x < lo || x > hi then Stored(fallback, None) else Stored(VReal(x), None))
    case RealAboveWithin(lo, hi, fallback) =>
      (match PyFloat(raw)
       case None => Rejected
       case Some(x) => if x <= lo || x > hi then Stored(fallback, None) else Stored(VReal(x), None))
    case RealAtLeast(lo, fallback) =>
      (match PyFloat(raw)
       case None => Rejected
       case Some(x) => if x < lo then Stored(fallback, None) else Stored(VReal(x), None))
    case IntWithin(lo, hi, fallback) =>
      (match PyInt(raw)
       case None => Rejected
       case Some(n) => if n < lo || n > hi then Stored(VInt(fallback), None) else Stored(VInt(n), None))
    case IntClamp(lo, hi) =>
      (match PyInt(raw)
       case None => Rejected
       case Some(n) => Stored(VInt(if n < lo then lo else if n > hi then hi else n), None))
    case FlagRule => Stored(VBool(Truthy(raw)), None)
    case SessionsRule =>
      (match raw
       case VStr(s) => Stored(VList(if s == "DISABLED" then AllSessions else [s]), None)
       case VList(l) => Stored(VList(l), None)
       case _ => Rejected)
  }

  /** A float below the lower bound of a `RealWithin` rule is out of range and replaced by the fallback. */
  lemma BelowRealWithin(lo: real, hi: real, fallback: Value, x: real)
    requires x < lo
    ensures !InRange(RealWithin(lo, hi, fallback), VReal(x))
    ensures CleanField(RealWithin(lo, hi, fallback), VReal(x)) == Stored(fallback, None)
  {
  }

  /** A float inside a `RealWithin` rule's bounds is in range and stored unchanged. */
  lemma InsideRealWithin(lo: real, hi: real, fallback: Value, x: real)
    requires lo <= x <= hi
    ensures InRange(RealWithin(lo, hi, fallback), VReal(x))
    ensures CleanField(RealWithin(lo, hi, fallback), VReal(x)) == Stored(VReal(x), None)
  {
  }

  /** Every value a sound rule stores lies inside the rule's range. */
  lemma CleanFieldInRange(rule: FieldRule, raw: Value)
    requires Sound(rule)
    ensures CleanField(rule, raw).Stored? ==> InRange(rule, CleanField(rule, raw).value)
  {
    if rule == SymbolRule {
      UpperIdempotent(PyStr(raw));
    }
  }

  /** A value already in range is stored again unchanged (up to int/float), with no message. */
  lemma CleanFieldStable(rule: FieldRule, v: Value)
    requires InRange(rule, v)
    ensures CleanField(rule, v).Stored? && CleanField(rule, v).note == None
    ensures SameValue(CleanField(rule, v).value, v)
    ensures InRange(rule, CleanField(rule, v).value)
  {
    if rule == SymbolRule {
      assert Upper(v.s) == v.s;
    }
  }

  // ------------------------------------------------------------ the fold

  /** How one raw value is cleaned under one rule; the table is cleaned with `CleanField`. */
  type Cleaner = (FieldRule, Value) -> FieldOutcome

  /** Cleaned values and messages collected so far. */
  datatype Cleaned = Cleaned(values: Params, errors: map<string, string>)

  /** `updates['allowed_sessions'] == 'DISABLED'`, which also switches the session filter off. */
  predicate SessionsDisabled(updates: Params)
  {
    "allowed_sessions" in updates && updates["allowed_sessions"] == VStr("DISABLED")
  }

  /** Under `rules`, key `key` with raw value `raw` makes Python raise. */
  predicate RejectedBy(rules: RuleTable, clean: Cleaner, key: string, raw: Value)
  {
    Lookup(rules, key).Some? && clean(Lookup(rules, key).value, raw).Rejected?
  }

  /** One key applied to the collected state. */
  function Step(rules: RuleTable, clean: Cleaner, key: string, raw: Value, acc: Cleaned): Result<Cleaned, string>
  {
    match Lookup(rules, key)
    case None => Ok(acc)
    case Some(rule) =>
      match clean(rule, raw)
      case Rejected => Err(key)
      case Stored(v, note) =>
        var values := if rule == SessionsRule && raw == VStr("DISABLED")
                      then acc.values[key := v]["session_filter_enabled" := VBool(false)]
                      else acc.values[key := v];
        Ok(Cleaned(values, if note.Some? then acc.errors[key := note.value] else acc.errors))
  }

  /** The keys `keys`, in order, each applied when present in `updates`; the first raise aborts. */
  function CleanFrom(rules: RuleTable, clean: Cleaner, updates: Params, keys: seq<string>, acc: Cleaned): Result<Cleaned, string>
    decreases |keys|
  {
    if keys == [] then Ok(acc)
    else if keys[0] !in updates then CleanFrom(rules, clean, updates, keys[1..], acc)
    else
      match Step(rules, clean, keys[0], updates[keys[0]], acc)
      case Err(k) => Err(k)
      case Ok(next) => CleanFrom(rules, clean, updates, keys[1..], next)
  }

  /** The values stored for `keys`, independent of order (each key always stores the same value). */
  function Written(rules: RuleTable, clean: Cleaner, updates: Params, keys: seq<string>): Params
  {
    map k | k in keys && k in updates && Lookup(rules, k).Some? && clean(Lookup(rules, k).value, updates[k]).Stored?
      :: clean(Lookup(rules, k).value, updates[k]).value
  }

  /** The messages produced for `keys`. */
  function Notes(rules: RuleTable, clean: Cleaner, updates: Params, keys: seq<string>): map<string, string>
  {
    map k | k in keys && k in updates && Lookup(rules, k).Some? && clean(Lookup(rules, k).value, updates[k]).Stored?
            && clean(Lookup(rules, k).value, updates[k]).note.Some?
      :: clean(Lookup(rules, k).value, updates[k]).note.value
  }

  /** Some key of `keys` present in `updates` makes Python raise. */
  predicate FailsOn(rules: RuleTable, clean: Cleaner, updates: Params, keys: seq<string>)
  {
    exists k :: k in keys && k in updates && RejectedBy(rules, clean, k, updates[k])
  }

  /** Whether the fold raises depends only on the keys, not on the state collected. */
  lemma {:induction false} CleanFromFails(rules: RuleTable, clean: Cleaner, updates: Params, keys: seq<string>, acc: Cleaned)
    ensures CleanFrom(rules, clean, updates, keys, acc).Err? <==> FailsOn(rules, clean, updates, keys)
    ensures CleanFrom(rules, clean, updates, keys, acc).Err? ==>
      var k := CleanFrom(rules, clean, updates, keys, acc).error; k in keys && k in updates && RejectedBy(rules, clean, k, updates[k])
    decreases |keys|
  {
    if keys != [] {
      var rest := keys[1..];
      assert forall k :: k in keys <==> k == keys[0] || k in rest;
      if keys[0] !in updates {
        CleanFromFails(rules, clean, updates, rest, acc);
      } else {
        match Step(rules, clean, keys[0], updates[keys[0]], acc)
        case Err(k) =>
        case Ok(next) => CleanFromFails(rules, clean, updates, rest, next);
      }
    }
  }

  /** A key absent from the updates writes nothing. */
  lemma WrittenAbsent(rules: RuleTable, clean: Cleaner, updates: Params, k: string)
    requires k !in updates
    ensures Written(rules, clean, updates, [k]) == map[] && Notes(rules, clean, updates, [k]) == map[]
  {
  }

  /** A present key other than the session rule's adds its own value and message. */
  lemma StepWritten(rules: RuleTable, clean: Cleaner, updates: Params, k: string, acc: Cleaned)
    requires k in updates && Lookup(rules, k) != Some(SessionsRule)
    requires Step(rules, clean, k, updates[k], acc).Ok?
    ensures Step(rules, clean, k, updates[k], acc).value ==
      Cleaned(acc.values + Written(rules, clean, updates, [k]), acc.errors + Notes(rules, clean, updates, [k]))
  {
    var w, n := Written(rules, clean, updates, [k]), Notes(rules, clean, updates, [k]);
    if Lookup(rules, k).None? {
      assert w == map[] && n == map[];
      UnionEmpty(acc.values);
      UnionEmpty(acc.errors);
    } else {
      var out := clean(Lookup(rules, k).value, updates[k]);
      assert w == map[k := out.value];
      UnionSingleton(acc.values, k, out.value);
      if out.note.Some? {
        assert n == map[k := out.note.value];
        UnionSingleton(acc.errors, k, out.note.value);
      } else {
        assert n == map[];
        UnionEmpty(acc.errors);
      }
    }
  }

  /** Without the session rule, the fold adds exactly `Written` and `Notes` to the collected state. */
  lemma {:induction false} CleanFromNoSessions(rules: RuleTable, clean: Cleaner, updates: Params, keys: seq<string>, acc: Cleaned)
    requires forall k :: k in keys ==> Lookup(rules, k) != Some(SessionsRule)
    requires CleanFrom(rules, clean, updates, keys, acc).Ok?
    ensures CleanFrom(rules, clean, updates, keys, acc).value
      == Cleaned(acc.values + Written(rules, clean, updates, keys), acc.errors + Notes(rules, clean, updates, keys))
    decreases |keys|
  {
    if keys == [] {
      assert Written(rules, clean, updates, keys) == map[] && Notes(rules, clean, updates, keys) == map[];
      UnionEmpty(acc.values);
      UnionEmpty(acc.errors);
    } else {
      var k0, rest := keys[0], keys[1..];
      assert keys == [k0] + rest;
      WrittenAppend(rules, clean, updates, [k0], rest);
      var w1, n1 := Written(rules, clean, updates, [k0]), Notes(rules, clean, updates, [k0]);
      var wr, nr := Written(rules, clean, updates, rest), Notes(rules, clean, updates, rest);
      if k0 !in updates {
        WrittenAbsent(rules, clean, updates, k0);
        CleanFromNoSessions(rules, clean, updates, rest, acc);
        EmptyUnion(wr);
        EmptyUnion(nr);
      } else {
        StepWritten(rules, clean, updates, k0, acc);
        var next := Step(rules, clean, k0, updates[k0], acc).value;
        CleanFromNoSessions(rules, clean, updates, rest, next);
        UnionAssoc(acc.values, w1, wr);
        UnionAssoc(acc.errors, n1, nr);
      }
    }
  }

  /** Running the fold over `a + b` is running it over `a` and then over `b`. */
  lemma {:induction false} CleanFromAppend(rules: RuleTable, clean: Cleaner, updates: Params, a: seq<string>, b: seq<string>, acc: Cleaned)
    ensures CleanFrom(rules, clean, updates, a + b, acc) ==
      match CleanFrom(rules, clean, updates, a, acc)
      case Err(k) => Err(k)
      case Ok(mid) => CleanFrom(rules, clean, updates, b, mid)
    decreases |a|
  {
    if a == [] {
      assert a + b == b;
    } else {
      assert (a + b)[0] == a[0] && (a + b)[1..] == a[1..] + b;
      if a[0] !in updates {
        CleanFromAppend(rules, clean, updates, a[1..], b, acc);
      } else {
        match Step(rules, clean, a[0], updates[a[0]], acc)
        case Err(_) =>
        case Ok(next) => CleanFromAppend(rules, clean, updates, a[1..], b, next);
      }
    }
  }

  /** The values and messages written for `a + b` are those written for `a` and for `b`. */
  lemma WrittenAppend(rules: RuleTable, clean: Cleaner, updates: Params, a: seq<string>, b: seq<string>)
    ensures Written(rules, clean, updates, a + b) == Written(rules, clean, updates, a) + Written(rules, clean, updates, b)
    ensures Notes(rules, clean, updates, a + b) == Notes(rules, clean, updates, a) + Notes(rules, clean, updates, b)
  {
    WrittenValuesAppend(rules, clean, updates, a, b);
    WrittenNotesAppend(rules, clean, updates, a, b);
  }

  lemma WrittenValuesAppend(rules: RuleTable, clean: Cleaner, updates: Params, a: seq<string>, b: seq<string>)
    ensures Written(rules, clean, updates, a + b) == Written(rules, clean, updates, a) + Written(rules, clean, updates, b)
  {
    var w, wa, wb := Written(rules, clean, updates, a + b), Written(rules, clean, updates, a), Written(rules, clean, updates, b);
    forall k ensures k in w <==> k in wa || k in wb {
      assert k in a + b <==> k in a || k in b;
    }
    forall k | k in w ensures w[k] == (wa + wb)[k] {
      MergeLookup(wa, wb, k);
    }
    MapsEqual(w, wa + wb);
  }

  lemma WrittenNotesAppend(rules: RuleTable, clean: Cleaner, updates: Params, a: seq<string>, b: seq<string>)
    ensures Notes(rules, clean, updates, a + b) == Notes(rules, clean, updates, a) + Notes(rules, clean, updates, b)
  {
    var n, na, nb := Notes(rules, clean, updates, a + b), Notes(rules, clean, updates, a), Notes(rules, clean, updates, b);
    forall k ensures k in n <==> k in na || k in nb {
      assert k in a + b <==> k in a || k in b;
    }
    forall k | k in n ensures n[k] == (na + nb)[k] {
      MergeLookup(na, nb, k);
    }
    MapsEqual(n, na + nb);
  }

  /** The stored values with the session flag switched off when the sessions are 'DISABLED'. */
  function WithSessionFlag(updates: Params, values: Params): Params
  {
    if SessionsDisabled(updates) then values["session_filter_enabled" := VBool(false)] else values
  }

  /** The session rule writes no message. */
  ghost predicate SessionsQuiet(clean: Cleaner)
  {
    forall raw :: clean(SessionsRule, raw).Stored? ==> clean(SessionsRule, raw).note == None
  }

  /** The session rule applied alone: its list, the session flag when 'DISABLED', and no message. */
  lemma SessionsOnce(rules: RuleTable, clean: Cleaner, updates: Params, acc: Cleaned)
    requires Lookup(rules, "allowed_sessions") == Some(SessionsRule) && SessionsQuiet(clean)
    requires CleanFrom(rules, clean, updates, ["allowed_sessions"], acc).Ok?
    ensures CleanFrom(rules, clean, updates, ["allowed_sessions"], acc).value ==
      Cleaned(WithSessionFlag(updates, acc.values + Written(rules, clean, updates, ["allowed_sessions"])), acc.errors)
    ensures Notes(rules, clean, updates, ["allowed_sessions"]) == map[]
  {
    SessionsNotes(rules, clean, updates);
    if "allowed_sessions" in updates {
      SessionsPresent(rules, clean, updates, acc);
    } else {
      SessionsAbsent(rules, clean, updates, acc);
    }
  }

  lemma SessionsNotes(rules: RuleTable, clean: Cleaner, updates: Params)
    requires Lookup(rules, "allowed_sessions") == Some(SessionsRule) && SessionsQuiet(clean)
    ensures Notes(rules, clean, updates, ["allowed_sessions"]) == map[]
  {
  }

  lemma SessionsPresent(rules: RuleTable, clean: Cleaner, updates: Params, acc: Cleaned)
    requires Lookup(rules, "allowed_sessions") == Some(SessionsRule) && SessionsQuiet(clean)
    requires "allowed_sessions" in updates
    requires CleanFrom(rules, clean, updates, ["allowed_sessions"], acc).Ok?
    ensures CleanFrom(rules, clean, updates, ["allowed_sessions"], acc).value ==
      Cleaned(WithSessionFlag(updates, acc.values + Written(rules, clean, updates, ["allowed_sessions"])), acc.errors)
  {
    var ss := "allowed_sessions";
    assert [ss][1..] == [];
    var out := clean(SessionsRule, updates[ss]);
    assert CleanFrom(rules, clean, updates, [ss], acc) == Step(rules, clean, ss, updates[ss], acc);
    assert Written(rules, clean, updates, [ss]) == map[ss := out.value];
    UnionSingleton(acc.values, ss, out.value);
  }

  lemma SessionsAbsent(rules: RuleTable, clean: Cleaner, updates: Params, acc: Cleaned)
    requires "allowed_sessions" !in updates
    ensures CleanFrom(rules, clean, updates, ["allowed_sessions"], acc) ==
      Ok(Cleaned(WithSessionFlag(updates, acc.values + Written(rules, clean, updates, ["allowed_sessions"])), acc.errors))
  {
    var ss := "allowed_sessions";
    assert [ss][1..] == [];
    assert Written(rules, clean, updates, [ss]) == map[];
    UnionEmpty(acc.values);
  }

  /** The map algebra behind `CleanAroundSessions`: the three runs combine into one. */
  lemma CombineRuns(updates: Params, acc: Cleaned, c1: Cleaned, c2: Cleaned, final: Cleaned,
                    wb: Params, ws: Params, wa: Params, nb: map<string, string>, na: map<string, string>)
    requires c1 == Cleaned(acc.values + wb, acc.errors + nb)
    requires c2 == Cleaned(WithSessionFlag(updates, c1.values + ws), c1.errors)
    requires final == Cleaned(c2.values + wa, c2.errors + na)
    requires "session_filter_enabled" !in wa
    ensures final == Cleaned(WithSessionFlag(updates, acc.values + (wb + (ws + wa))), acc.errors + (nb + (map[] + na)))
  {
    EmptyUnion(na);
    UnionAssoc(acc.values, wb, ws);
    UnionAssoc(acc.values, wb + ws, wa);
    UnionAssoc(wb, ws, wa);
    UnionAssoc(acc.errors, nb, na);
    if SessionsDisabled(updates) {
      UpdateThenUnion(c1.values + ws, wa, "session_filter_enabled", VBool(false));
    }
  }

  /** The fold over `before + [allowed_sessions] + after` is the fold over the three runs, one after another. */
  lemma ThreeRuns(rules: RuleTable, clean: Cleaner, updates: Params,
                  before: seq<string>, after: seq<string>, acc: Cleaned)
    requires CleanFrom(rules, clean, updates, before + ["allowed_sessions"] + after, acc).Ok?
    ensures CleanFrom(rules, clean, updates, before, acc).Ok?
    ensures CleanFrom(rules, clean, updates, ["allowed_sessions"], CleanFrom(rules, clean, updates, before, acc).value).Ok?
    ensures var c2 := CleanFrom(rules, clean, updates, ["allowed_sessions"], CleanFrom(rules, clean, updates, before, acc).value).value;
      CleanFrom(rules, clean, updates, before + ["allowed_sessions"] + after, acc) == CleanFrom(rules, clean, updates, after, c2)
  {
    var mid := ["allowed_sessions"] + after;
    assert before + ["allowed_sessions"] + after == before + mid;
    CleanFromAppend(rules, clean, updates, before, mid, acc);
    var c1 := CleanFrom(rules, clean, updates, before, acc).value;
    CleanFromAppend(rules, clean, updates, ["allowed_sessions"], after, c1);
  }

  /**
   * A table whose session rule sits once between two runs of other rules, and
   * whose later run does not touch the session flag: the fold stores
   * `Written`, then the session flag, and adds `Notes`.
   */
  lemma CleanAroundSessions(rules: RuleTable, clean: Cleaner, updates: Params,
                            before: seq<string>, after: seq<string>, acc: Cleaned)
    requires Lookup(rules, "allowed_sessions") == Some(SessionsRule) && SessionsQuiet(clean)
    requires forall k :: k in before ==> Lookup(rules, k) != Some(SessionsRule)
    requires forall k :: k in after ==> Lookup(rules, k) != Some(SessionsRule)
    requires "session_filter_enabled" !in after
    requires CleanFrom(rules, clean, updates, before + ["allowed_sessions"] + after, acc).Ok?
    ensures var keys := before + ["allowed_sessions"] + after;
      CleanFrom(rules, clean, updates, keys, acc).value ==
        Cleaned(WithSessionFlag(updates, acc.values + Written(rules, clean, updates, keys)),
                acc.errors + Notes(rules, clean, updates, keys))
  {
    var ss := "allowed_sessions";
    ThreeRuns(rules, clean, updates, before, after, acc);
    CleanFromNoSessions(rules, clean, updates, before, acc);
    var c1 := CleanFrom(rules, clean, updates, before, acc).value;
    SessionsOnce(rules, clean, updates, c1);
    var c2 := CleanFrom(rules, clean, updates, [ss], c1).value;
    CleanFromNoSessions(rules, clean, updates, after, c2);
    var mid := [ss] + after;
    assert before + [ss] + after == before + mid;
    WrittenAppend(rules, clean, updates, before, mid);
    WrittenAppend(rules, clean, updates, [ss], after);
    CombineRuns(updates, acc, c1, c2, CleanFrom(rules, clean, updates, after, c2).value,
                Written(rules, clean, updates, before), Written(rules, clean, updates, [ss]), Written(rules, clean, updates, after),
                Notes(rules, clean, updates, before), Notes(rules, clean, updates, after));
  }

  /** Under a table of `EntryOk` entries, every written value is in the range of its key's rule. */
  lemma WrittenInRange(rules: RuleTable, updates: Params, keys: seq<string>)
    requires TableOk(rules)
    ensures forall k :: k in Written(rules, CleanField, updates, keys) ==>
      Lookup(rules, k).Some? && InRange(Lookup(rules, k).value, Written(rules, CleanField, updates, keys)[k])
  {
    forall k | k in Written(rules, CleanField, updates, keys)
      ensures InRange(Lookup(rules, k).value, Written(rules, CleanField, updates, keys)[k])
    {
      LookupEntryOk(rules, k);
      CleanFieldInRange(Lookup(rules, k).value, updates[k]);
    }
  }

  /** Only the margin and leverage rules write messages, and each writes its own. */
  lemma CleanFieldNote(rule: FieldRule, raw: Value)
    ensures CleanField(rule, raw).Stored? && CleanField(rule, raw).note.Some? ==>
      (rule == MarginRule && CleanField(rule, raw).note.value == MarginMessage) ||
      (rule == LeverageRule && CleanField(rule, raw).note.value == LeverageMessage)
  {
  }

  /** Under a table of `EntryOk` entries, messages are written only under `margin` and `leverage`. */
  lemma NotesOnly(rules: RuleTable, updates: Params, keys: seq<string>)
    requires TableOk(rules)
    ensures forall k :: k in Notes(rules, CleanField, updates, keys) ==>
      (k == "margin" && Notes(rules, CleanField, updates, keys)[k] == MarginMessage) ||
      (k == "leverage" && Notes(rules, CleanField, updates, keys)[k] == LeverageMessage)
  {
    forall k | k in Notes(rules, CleanField, updates, keys)
      ensures (k == "margin" && Notes(rules, CleanField, updates, keys)[k] == MarginMessage) ||
              (k == "leverage" && Notes(rules, CleanField, updates, keys)[k] == LeverageMessage)
    {
      LookupEntryOk(rules, k);
      CleanFieldNote(Lookup(rules, k).value, updates[k]);
    }
  }

  /** Without a raise, every present key of `keys` that has a rule is written. */
  lemma WrittenCovers(rules: RuleTable, clean: Cleaner, updates: Params, keys: seq<string>)
    requires !FailsOn(rules, clean, updates, keys)
    ensures forall k :: k in keys && k in updates && k in KeysOf(rules) ==> k in Written(rules, clean, updates, keys)
  {
    forall k | k in keys && k in updates && k in KeysOf(rules) ensures k in Written(rules, clean, updates, keys) {
      assert !RejectedBy(rules, clean, k, updates[k]);
    }
  }

  /** A present key with a rule that stores writes what its rule makes of the input. */
  lemma WrittenValue(rules: RuleTable, clean: Cleaner, updates: Params, keys: seq<string>, k: string)
    requires k in keys && k in updates && k in KeysOf(rules) && !RejectedBy(rules, clean, k, updates[k])
    ensures k in Written(rules, clean, updates, keys)
    ensures Written(rules, clean, updates, keys)[k] == clean(Lookup(rules, k).value, updates[k]).value
  {
  }

  lemma WithFlagAt(updates: Params, w: Params, k: string)
    requires k in w && (k != "session_filter_enabled" || !SessionsDisabled(updates))
    ensures k in WithSessionFlag(updates, w) && WithSessionFlag(updates, w)[k] == w[k]
  {
  }

  lemma FlagUntouched(updates: Params, w: Params)
    requires !SessionsDisabled(updates)
    ensures WithSessionFlag(updates, w) == w
  {
  }

  /** Switching the session flag off keeps every value in range, when the flag's rule is `FlagRule`. */
  lemma FlagInRange(rules: RuleTable, updates: Params, w: Params)
    requires Lookup(rules, "session_filter_enabled") == Some(FlagRule)
    requires forall k :: k in w ==> Lookup(rules, k).Some? && InRange(Lookup(rules, k).value, w[k])
    ensures forall k :: k in WithSessionFlag(updates, w) ==>
      Lookup(rules, k).Some? && InRange(Lookup(rules, k).value, WithSessionFlag(updates, w)[k])
  {
  }

  /** Cleaning values that are already in range stores them again, raises nothing and reports nothing. */
  lemma RecleanInRange(rules: RuleTable, e: Params, keys: seq<string>)
    requires forall k :: k in e ==> k in keys && Lookup(rules, k).Some? && InRange(Lookup(rules, k).value, e[k])
    ensures !FailsOn(rules, CleanField, e, keys)
    ensures Written(rules, CleanField, e, keys).Keys == e.Keys
    ensures forall k :: k in e ==> SameValue(Written(rules, CleanField, e, keys)[k], e[k])
    ensures Notes(rules, CleanField, e, keys) == map[]
  {
    forall k | k in e
      ensures CleanField(Lookup(rules, k).value, e[k]).Stored? && CleanField(Lookup(rules, k).value, e[k]).note == None
      ensures SameValue(CleanField(Lookup(rules, k).value, e[k]).value, e[k])
    {
      CleanFieldStable(Lookup(rules, k).value, e[k]);
    }
  }

  // ------------------------------------------------------ the closed form

  /** Under the table, key `key` with raw value `raw` makes Python raise. */
  predicate Rejects(key: string, raw: Value)
  {
    RejectedBy(Rules, CleanField, key, raw)
  }

  /** Some recognised key of `updates` makes Python raise. */
  predicate Raises(updates: Params)
  {
    FailsOn(Rules, CleanField, updates, RuleKeys)
  }

  /** The session rule is found under `allowed_sessions` only. */
  lemma SessionRuleOnce()
    ensures forall k :: k in KeysOf(RulesBeforeSessions) ==> Lookup(Rules, k) != Some(SessionsRule)
    ensures forall k :: k in KeysOf(TableAfterSessions) ==> Lookup(Rules, k) != Some(SessionsRule)
  {
    TableLayout();
    RulesOk();
    forall k | Lookup(Rules, k) == Some(SessionsRule) ensures k == "allowed_sessions" {
      LookupEntryOk(Rules, k);
    }
  }

  lemma CleanFieldQuiet()
    ensures SessionsQuiet(CleanField)
  {
  }

  /** The dictionary of cleaned values `update_strategy_params` builds from `updates`. */
  function Expected(updates: Params): Params
  {
    WithSessionFlag(updates, Written(Rules, CleanField, updates, RuleKeys))
  }

  /** The margin and leverage messages the cleaning adds. */
  function Messages(updates: Params): map<string, string>
  {
    Notes(Rules, CleanField, updates, RuleKeys)
  }

  /** The cleaning pass of `update_strategy_params`, starting from the safety messages `errors`. */
  function CleanAll(updates: Params, errors: map<string, string>): Result<Cleaned, string>
  {
    CleanFrom(Rules, CleanField, updates, RuleKeys, Cleaned(map[], errors))
  }

  /**
   * The cleaning pass raises exactly when some recognised key cannot be
   * converted; otherwise it stores `Expected(updates)` and adds the margin and
   * leverage messages to the safety messages.
   */
  lemma CleanAllCharacterised(updates: Params, errors: map<string, string>)
    ensures CleanAll(updates, errors).Err? <==> Raises(updates)
    ensures CleanAll(updates, errors).Err? ==>
      var k := CleanAll(updates, errors).error; k in updates && k in RuleKeys && Rejects(k, updates[k])
    ensures CleanAll(updates, errors).Ok? ==>
      CleanAll(updates, errors).value == Cleaned(Expected(updates), errors + Messages(updates))
  {
    var acc0 := Cleaned(map[], errors);
    CleanFromFails(Rules, CleanField, updates, RuleKeys, acc0);
    if CleanAll(updates, errors).Ok? {
      TableLayout();
      SessionRuleOnce();
      CleanFieldQuiet();
      CleanAroundSessions(Rules, CleanField, updates, KeysOf(RulesBeforeSessions), KeysOf(TableAfterSessions), acc0);
      EmptyUnion(Written(Rules, CleanField, updates, RuleKeys));
    }
  }


  /** The cleaning pass raises exactly when some recognised key cannot be converted. */
  lemma CleanAllRaises(updates: Params, errors: map<string, string>)
    ensures CleanAll(updates, errors).Err? <==> Raises(updates)
  {
    CleanAllCharacterised(updates, errors);
  }

  /** The key it raises on is a recognised key of the update whose conversion fails. */
  lemma CleanAllRaisedOn(updates: Params, errors: map<string, string>)
    ensures CleanAll(updates, errors).Err? ==>
      var k := CleanAll(updates, errors).error; k in updates && k in RuleKeys && Rejects(k, updates[k])
  {
    CleanAllCharacterised(updates, errors);
  }

  /** When it does not raise, it stores `Expected(updates)` and adds `Messages(updates)` to `errors`. */
  lemma CleanAllStores(updates: Params, errors: map<string, string>)
    ensures CleanAll(updates, errors).Ok? ==>
      CleanAll(updates, errors).value == Cleaned(Expected(updates), errors + Messages(updates))
  {
    CleanAllCharacterised(updates, errors);
  }


  /** The loop over `keys`, raising on the first bad conversion: it computes the fold. */
  method CleanKeys(rules: RuleTable, clean: Cleaner, updates: Params, keys: seq<string>, safetyErrors: map<string, string>)
    returns (outcome: Result<Cleaned, string>)
    ensures outcome == CleanFrom(rules, clean, updates, keys, Cleaned(map[], safetyErrors))
  {
    var validated: Params := map[];
    var errors := safetyErrors;
    var i := 0;
    while i < |keys|
      invariant 0 <= i <= |keys|
      invariant CleanFrom(rules, clean, updates, keys[i..], Cleaned(validated, errors))
        == CleanFrom(rules, clean, updates, keys, Cleaned(map[], safetyErrors))
    {
      var key := keys[i];
      assert keys[i..][0] == key && keys[i..][1..] == keys[i + 1..];
      if key in updates && Lookup(rules, key).Some? {
        var raw := updates[key];
        var rule := Lookup(rules, key).value;
        var out := clean(rule, raw);
        if out.Rejected? {
          return Err(key);
        }
        validated := validated[key := out.value];
        if rule == SessionsRule && raw == VStr("DISABLED") {
          validated := validated["session_filter_enabled" := VBool(false)];
        }
        if out.note.Some? {
          errors := errors[key := out.note.value];
        }
      }
      i := i + 1;
    }
    assert keys[i..] == [];
    outcome := Ok(Cleaned(validated, errors));
  }

  /** The cleaning pass as the source runs it, over the whole table. */
  method CleanUpdates(updates: Params, safetyErrors: map<string, string>) returns (outcome: Result<Cleaned, string>)
    ensures outcome == CleanAll(updates, safetyErrors)
    ensures outcome.Err? <==> Raises(updates)
    ensures outcome.Err? ==> outcome.error in updates && outcome.error in RuleKeys && Rejects(outcome.error, updates[outcome.error])
    ensures outcome.Ok? ==> outcome.value == Cleaned(Expected(updates), safetyErrors + Messages(updates))
  {
    outcome := CleanKeys(Rules, CleanField, updates, RuleKeys, safetyErrors);
    CleanAllCharacterised(updates, safetyErrors);
  }

  // ------------------------------------------------------------ properties

  /** Only recognised keys are stored: every key present with a rule, plus the session flag that 'DISABLED' switches off. */
  lemma ExpectedKeys(updates: Params)
    requires !Raises(updates)
    ensures forall k :: k in Expected(updates) ==> k in RuleKeys
    ensures forall k :: k in updates && k in RuleKeys ==> k in Expected(updates)
    ensures forall k :: k in Expected(updates) ==>
      k in updates || (k == "session_filter_enabled" && SessionsDisabled(updates))
  {
    FlagEntry();
    WrittenCovers(Rules, CleanField, updates, RuleKeys);
    var w := Written(Rules, CleanField, updates, RuleKeys);
    assert forall k :: k in w ==> k in RuleKeys && k in updates;
  }

  /** Every stored value lies in the range its key declares. */
  lemma ExpectedInRange(updates: Params)
    ensures forall k :: k in Expected(updates) ==> RuleOf(k).Some? && InRange(RuleOf(k).value, Expected(updates)[k])
  {
    RulesOk();
    WrittenInRange(Rules, updates, RuleKeys);
    FlagEntry();
    FlagInRange(Rules, updates, Written(Rules, CleanField, updates, RuleKeys));
  }

  /** Each present key other than the session flag stores exactly the value its rule makes of the input. */
  lemma ExpectedValue(updates: Params, k: string)
    requires k in updates && k in RuleKeys && !Rejects(k, updates[k])
    requires k != "session_filter_enabled" || !SessionsDisabled(updates)
    ensures k in Expected(updates) && Expected(updates)[k] == CleanField(RuleOf(k).value, updates[k]).value
  {
    WrittenValue(Rules, CleanField, updates, RuleKeys, k);
    WithFlagAt(updates, Written(Rules, CleanField, updates, RuleKeys), k);
  }

  /** Messages come only from `margin` and `leverage`. */
  lemma NotesOnlyMarginAndLeverage(updates: Params)
    ensures forall k :: k in Messages(updates) ==>
      (k == "margin" && Messages(updates)[k] == MarginMessage) ||
      (k == "leverage" && Messages(updates)[k] == LeverageMessage)
  {
    RulesOk();
    NotesOnly(Rules, updates, RuleKeys);
  }

  /** A present recognised key has a message exactly when its rule writes one, and it is that message. */
  lemma MessageOf(updates: Params, k: string)
    requires k in updates && k in RuleKeys
    ensures k in Messages(updates) <==>
      CleanField(RuleOf(k).value, updates[k]).Stored? && CleanField(RuleOf(k).value, updates[k]).note.Some?
    ensures k in Messages(updates) ==> Messages(updates)[k] == CleanField(RuleOf(k).value, updates[k]).note.value
  {
  }

  /** Messages are only written for keys of the update. */
  lemma MessagesKeys(updates: Params)
    ensures Messages(updates).Keys <= updates.Keys
  {
  }

  /** An update of one key with a rule that stores writes that one value and at most its message. */
  lemma SingleUpdate(rules: RuleTable, clean: Cleaner, keys: seq<string>, k: string, v: Value, rule: FieldRule, w: Value, note: Option<string>)
    requires k in keys && Lookup(rules, k) == Some(rule) && clean(rule, v) == Stored(w, note)
    ensures !FailsOn(rules, clean, map[k := v], keys)
    ensures Written(rules, clean, map[k := v], keys) == map[k := w]
    ensures Notes(rules, clean, map[k := v], keys) == if note.Some? then map[k := note.value] else map[]
  {
    var u := map[k := v];
    MapsEqual(Written(rules, clean, u, keys), map[k := w]);
    MapsEqual(Notes(rules, clean, u, keys), if note.Some? then map[k := note.value] else map[]);
  }

  /** A single key other than `allowed_sessions` leaves the session flag alone. */
  lemma SingleUpdateUnflagged(rules: RuleTable, clean: Cleaner, keys: seq<string>, k: string, v: Value, rule: FieldRule, w: Value, note: Option<string>)
    requires k in keys && Lookup(rules, k) == Some(rule) && clean(rule, v) == Stored(w, note) && k != "allowed_sessions"
    ensures !FailsOn(rules, clean, map[k := v], keys)
    ensures WithSessionFlag(map[k := v], Written(rules, clean, map[k := v], keys)) == map[k := w]
    ensures Notes(rules, clean, map[k := v], keys) == if note.Some? then map[k := note.value] else map[]
  {
    SingleUpdate(rules, clean, keys, k, v, rule, w, note);
    FlagUntouched(map[k := v], Written(rules, clean, map[k := v], keys));
  }

  /** An update of a single recognised key other than `allowed_sessions` stores what its rule makes of the value. */
  lemma OneKeyUpdate(k: string, v: Value, rule: FieldRule, w: Value, note: Option<string>)
    requires RuleOf(k) == Some(rule) && CleanField(rule, v) == Stored(w, note) && k != "allowed_sessions"
    ensures !Raises(map[k := v])
    ensures Expected(map[k := v]) == map[k := w]
    ensures Messages(map[k := v]) == if note.Some? then map[k := note.value] else map[]
  {
    SingleUpdateUnflagged(Rules, CleanField, RuleKeys, k, v, rule, w, note);
  }

  /** Cleaning what the cleaning stored changes nothing (up to int/float), raises nothing and reports nothing. */
  lemma ExpectedStable(updates: Params)
    ensures !Raises(Expected(updates))
    ensures Expected(Expected(updates)).Keys == Expected(updates).Keys
    ensures forall k :: k in Expected(updates) ==> SameValue(Expected(Expected(updates))[k], Expected(updates)[k])
    ensures Messages(Expected(updates)) == map[]
  {
    var e := Expected(updates);
    ExpectedInRange(updates);
    RecleanInRange(Rules, e, RuleKeys);
    if "allowed_sessions" in e {
      SessionsEntry();
      assert InRange(SessionsRule, e["allowed_sessions"]);
    }
    assert !SessionsDisabled(e);
    FlagUntouched(e, Written(Rules, CleanField, e, RuleKeys));
  }
}
