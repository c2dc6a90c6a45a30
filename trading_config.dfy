/**
 * `TradingConfigManager`: the per-strategy override store written by the web
 * dashboard, the cache of resolved configurations, the universal defaults,
 * and the parameter-update pipeline.
 *
 * The gate of the safety pass, `validation_safety.lock_mechanism_enabled`, is
 * an attribute the validator never defines; it is the parameter
 * `lockEnabled` here, and `UpdateAsWritten` models what reading the missing
 * attribute does. The running bot's strategy map, reached through the
 * interpreter's module table, is the optional field `liveStrategies`; the
 * configuration file is the snapshot `saved`.
 */
module TradingConfig {
  import opened Wrappers
  import opened PyValues
  import opened MapLemmas
  import opened TradingParams
  import ValidationSafety
  import ParamRules
  import StrategyCatalog

  /** Strategy name to the parameters the dashboard set for it. */
  type Overrides = map<string, Params>

  // ------------------------------------------------------------ get_strategy_config

  /** The configuration `get_strategy_config` assembles on a cache miss: `{name, enabled}`, then the defaults, then the override. */
  function ResolveConfig(name: string, defaults: TradingParameters, overrides: Overrides): (c: Params)
    ensures c.Keys == {"name", "enabled"} + BaseKeys + Current(overrides, name).Keys
    ensures forall k :: k in Current(overrides, name) ==> c[k] == overrides[name][k]
    ensures forall k :: k in BaseKeys && k !in Current(overrides, name) ==> c[k] == ToDict(defaults)[k]
    ensures "name" !in Current(overrides, name) ==> c["name"] == VStr(name)
    ensures "enabled" !in Current(overrides, name) ==> c["enabled"] == VBool(true)
  {
    var config := map["name" := VStr(name), "enabled" := VBool(true)] + ToDict(defaults);
    if name in overrides then config + overrides[name] else config
  }

  /** The override of `name`, or the empty entry `update_strategy_params` creates for a new name. */
  function Current(overrides: Overrides, name: string): Params
  {
    if name in overrides then overrides[name] else map[]
  }

  /** Every cached configuration is what a cache miss would build now. */
  predicate Coherent(cache: map<string, Params>, defaults: TradingParameters, overrides: Overrides)
  {
    forall n :: n in cache ==> cache[n] == ResolveConfig(n, defaults, overrides)
  }

  // ------------------------------------------------------------ clear_config_cache and the live bot

  /**
   * `clear_config_cache(name)`: a non-empty name loses its entry; `None` and
   * the empty string, both false in Python, clear the whole cache.
   */
  function Cleared(cache: map<string, Params>, name: Option<string>): (c: map<string, Params>)
    ensures name.Some? && name.value != "" ==> c.Keys == cache.Keys - {name.value}
    ensures name.None? || name.value == "" ==> c == map[]
    ensures forall n :: n in c ==> n in cache && c[n] == cache[n]
  {
    if name.Some? && name.value != "" then cache - {name.value} else map[]
  }

  /** `_force_update_running_bot`: a running bot that already runs `name` merges `updates` into its configuration. */
  function Pushed(live: Option<map<string, Params>>, name: string, updates: Params): (r: Option<map<string, Params>>)
    ensures r.Some? <==> live.Some?
    ensures live.Some? ==> r.value.Keys == live.value.Keys
    ensures live.Some? ==> forall n :: n in live.value && n != name ==> r.value[n] == live.value[n]
    ensures live.Some? && name in live.value ==> r.value[name] == live.value[name] + updates
  {
    if live.Some? && name in live.value then Some(live.value[name := live.value[name] + updates]) else live
  }

  // ------------------------------------------------------------ update_strategy_params

  /**
   * The safety pass: with the lock on, the updates the validator corrected
   * and its messages; with it off, the updates as given and no messages.
   */
  function Screened(updates: Params, lockEnabled: bool): (s: (Params, map<string, string>))
    ensures s.0.Keys == updates.Keys && s.1.Keys <= updates.Keys
    ensures !lockEnabled ==> s == (updates, map[])
    ensures lockEnabled ==> forall k :: k in s.0 && ValidationSafety.IsCritical(k) ==>
      AsNumber(s.0[k]).Some? && !ValidationSafety.IsZeroNumber(s.0[k])
  {
    if lockEnabled then (ValidationSafety.SafetyCorrected(updates), ValidationSafety.SafetyErrors(updates))
    else (updates, map[])
  }

  /** What `update_strategy_params` returns: the message map, or the key whose conversion raised. */
  datatype UpdateOutcome = Applied(errors: map<string, string>) | Raised(param: string)

  /** The override store and the outcome once the cleaning pass has produced `cleaned`. */
  function Merge(overrides: Overrides, name: string, cleaned: Result<ParamRules.Cleaned, string>): (r: (Overrides, UpdateOutcome))
    ensures r.0.Keys == overrides.Keys + {name}
    ensures forall n :: n in overrides && n != name ==> r.0[n] == overrides[n]
  {
    var current := Current(overrides, name);
    match cleaned
    case Err(k) => (overrides[name := current], Raised(k))
    case Ok(c) => (overrides[name := current + c.values], Applied(c.errors))
  }

  /** The override store and the outcome after `update_strategy_params(name, updates)`. */
  function Update(overrides: Overrides, name: string, updates: Params, lockEnabled: bool): (r: (Overrides, UpdateOutcome))
    ensures r.0.Keys == overrides.Keys + {name}
    ensures forall n :: n in overrides && n != name ==> r.0[n] == overrides[n]
  {
    var s := Screened(updates, lockEnabled);
    Merge(overrides, name, ParamRules.CleanAll(s.0, s.1))
  }

  /** The dictionary of cleaned values an update merges into the override. */
  function Delta(updates: Params, lockEnabled: bool): Params
  {
    ParamRules.Expected(Screened(updates, lockEnabled).0)
  }

  // ------------------------------------------------------------ the merge, for any cleaning result

  /** What the merge does with each kind of cleaning result. */
  lemma MergeOutcome(overrides: Overrides, name: string, cleaned: Result<ParamRules.Cleaned, string>)
    ensures var r := Merge(overrides, name, cleaned);
      (r.1.Raised? <==> cleaned.Err?) &&
      (cleaned.Err? ==> r.1.param == cleaned.error && r.0[name] == Current(overrides, name)) &&
      (cleaned.Ok? ==> r.1 == Applied(cleaned.value.errors) && r.0[name] == Current(overrides, name) + cleaned.value.values)
  {
  }

  /** Merging the same cleaning result twice is merging it once. */
  lemma MergeIdempotent(overrides: Overrides, name: string, cleaned: Result<ParamRules.Cleaned, string>)
    ensures var once := Merge(overrides, name, cleaned);
      Merge(once.0, name, cleaned) == once
  {
    var once := Merge(overrides, name, cleaned);
    var twice := Merge(once.0, name, cleaned);
    if cleaned.Ok? {
      UnionTwice(Current(overrides, name), cleaned.value.values);
    }
    assert twice.0[name] == once.0[name];
    MapsEqual(twice.0, once.0);
  }

  /**
   * Clearing the merged strategy's entry keeps a coherent cache coherent; a
   * raising merge changes no resolved configuration at all.
   */
  lemma MergeKeepsCoherent(cache: map<string, Params>, defaults: TradingParameters, overrides: Overrides,
                           name: string, cleaned: Result<ParamRules.Cleaned, string>)
    requires Coherent(cache, defaults, overrides)
    ensures var r := Merge(overrides, name, cleaned);
      Coherent(Cleared(cache, Some(name)), defaults, r.0) &&
      (cleaned.Err? ==> Coherent(cache, defaults, r.0))
  {
    var r := Merge(overrides, name, cleaned);
    forall n | n in cache ensures cleaned.Err? || n != name ==> cache[n] == ResolveConfig(n, defaults, r.0) {
      if n == name && name !in overrides {
        UnionEmpty(map["name" := VStr(name), "enabled" := VBool(true)] + ToDict(defaults));
      }
    }
  }

  /** Every value of every override has a rule and lies in that rule's range. */
  predicate StoreInRange(overrides: Overrides)
  {
    forall n, k :: n in overrides && k in overrides[n] ==> InRangeValue(k, overrides[n][k])
  }

  /** `v` is a value key `k` may hold: `k` has a rule and `v` lies in its range. */
  predicate InRangeValue(k: string, v: Value)
  {
    ParamRules.RuleOf(k).Some? && ParamRules.InRange(ParamRules.RuleOf(k).value, v)
  }

  /** Merging in-range values keeps the store in range. */
  lemma MergeKeepsRange(overrides: Overrides, name: string, cleaned: Result<ParamRules.Cleaned, string>)
    requires StoreInRange(overrides)
    requires cleaned.Ok? ==> forall k :: k in cleaned.value.values ==> InRangeValue(k, cleaned.value.values[k])
    ensures StoreInRange(Merge(overrides, name, cleaned).0)
  {
    var r := Merge(overrides, name, cleaned);
    forall n, k | n in r.0 && k in r.0[n] ensures InRangeValue(k, r.0[n][k]) {
      if n != name {
        assert r.0[n] == overrides[n];
      } else if cleaned.Ok? && k in cleaned.value.values {
        assert r.0[n][k] == cleaned.value.values[k];
      } else {
        assert r.0[n][k] == overrides[name][k];
      }
    }
  }

  // ------------------------------------------------------------ update_strategy_params

  /** An update raises exactly when a recognised key of the screened update cannot be converted. */
  lemma UpdateRaisesIff(overrides: Overrides, name: string, updates: Params, lockEnabled: bool)
    ensures Update(overrides, name, updates, lockEnabled).1.Raised? <==> ParamRules.Raises(Screened(updates, lockEnabled).0)
  {
    var s := Screened(updates, lockEnabled);
    ParamRules.CleanAllRaises(s.0, s.1);
    MergeOutcome(overrides, name, ParamRules.CleanAll(s.0, s.1));
  }

  /**
   * A raising update names a recognised key of the update whose conversion
   * fails, and leaves only the (possibly new, empty) entry behind.
   */
  lemma UpdateRaisedOn(overrides: Overrides, name: string, updates: Params, lockEnabled: bool)
    ensures var r := Update(overrides, name, updates, lockEnabled);
      r.1.Raised? ==>
        r.1.param in updates && r.1.param in ParamRules.RuleKeys &&
        ParamRules.Rejects(r.1.param, Screened(updates, lockEnabled).0[r.1.param]) &&
        r.0[name] == Current(overrides, name)
  {
    var s := Screened(updates, lockEnabled);
    ParamRules.CleanAllRaisedOn(s.0, s.1);
    MergeOutcome(overrides, name, ParamRules.CleanAll(s.0, s.1));
  }

  /**
   * An update that does not raise merges the cleaned values into the
   * strategy's override and returns the safety messages together with the
   * cleaning's own margin and leverage messages.
   */
  lemma UpdateApplied(overrides: Overrides, name: string, updates: Params, lockEnabled: bool)
    ensures var r := Update(overrides, name, updates, lockEnabled);
      r.1.Applied? ==>
        r.0[name] == Current(overrides, name) + Delta(updates, lockEnabled) &&
        r.1.errors == Screened(updates, lockEnabled).1 + ParamRules.Messages(Screened(updates, lockEnabled).0)
  {
    var s := Screened(updates, lockEnabled);
    ParamRules.CleanAllStores(s.0, s.1);
    MergeOutcome(overrides, name, ParamRules.CleanAll(s.0, s.1));
  }

  /**
   * A field-level upsert: the keys the update cleaned take their cleaned
   * values, every other key of the old override keeps its value.
   */
  lemma UpdateIsPartial(overrides: Overrides, name: string, updates: Params, lockEnabled: bool)
    ensures var r := Update(overrides, name, updates, lockEnabled);
      var d := Delta(updates, lockEnabled);
      r.1.Applied? ==>
        r.0[name].Keys == Current(overrides, name).Keys + d.Keys &&
        (forall k :: k in d ==> r.0[name][k] == d[k]) &&
        (forall k :: k in Current(overrides, name) && k !in d ==> r.0[name][k] == Current(overrides, name)[k])
  {
    UpdateApplied(overrides, name, updates, lockEnabled);
  }

  /**
   * Only recognised keys are added to the override: every key of the update
   * that has a rule is stored, and a key without a rule (`name`, `enabled`,
   * `lookback_candles`, ...) is never added.
   */
  lemma UpdateStoresOnlyRecognised(overrides: Overrides, name: string, updates: Params, lockEnabled: bool)
    ensures var r := Update(overrides, name, updates, lockEnabled);
      r.1.Applied? ==>
        (forall k :: k in r.0[name] && k !in Current(overrides, name) ==> k in ParamRules.RuleKeys) &&
        (forall k :: k in updates && k in ParamRules.RuleKeys ==> k in r.0[name])
  {
    var u := Screened(updates, lockEnabled).0;
    UpdateApplied(overrides, name, updates, lockEnabled);
    UpdateRaisesIff(overrides, name, updates, lockEnabled);
    if !ParamRules.Raises(u) {
      ParamRules.ExpectedKeys(u);
    }
  }

  /** Applying the same update a second time changes nothing further and reports the same outcome. */
  lemma UpdateIdempotent(overrides: Overrides, name: string, updates: Params, lockEnabled: bool)
    ensures var once := Update(overrides, name, updates, lockEnabled);
      Update(once.0, name, updates, lockEnabled) == once
  {
    var s := Screened(updates, lockEnabled);
    MergeIdempotent(overrides, name, ParamRules.CleanAll(s.0, s.1));
  }

  /** Updates keep every stored value inside its declared range. */
  lemma UpdateKeepsRange(overrides: Overrides, name: string, updates: Params, lockEnabled: bool)
    requires StoreInRange(overrides)
    ensures StoreInRange(Update(overrides, name, updates, lockEnabled).0)
  {
    var s := Screened(updates, lockEnabled);
    ParamRules.CleanAllStores(s.0, s.1);
    ParamRules.ExpectedInRange(s.0);
    MergeKeepsRange(overrides, name, ParamRules.CleanAll(s.0, s.1));
  }

  /** With the lock on, the screened critical parameters are numbers the cleaning accepts. */
  lemma ScreenedCriticalAccepted(updates: Params)
    ensures var u := Screened(updates, true).0;
      forall k :: k in u && ValidationSafety.IsCritical(k) ==> !ParamRules.Rejects(k, u[k])
  {
    var u := Screened(updates, true).0;
    forall k | k in u && ValidationSafety.IsCritical(k) ensures !ParamRules.Rejects(k, u[k]) {
      ParamRules.NumberAccepted(k, u[k]);
    }
  }

  /** With the lock on, the critical parameters never make an update raise. */
  lemma LockedCriticalNeverRaises(overrides: Overrides, name: string, updates: Params)
    ensures var r := Update(overrides, name, updates, true);
      r.1.Raised? ==> !ValidationSafety.IsCritical(r.1.param)
  {
    UpdateRaisedOn(overrides, name, updates, true);
    ScreenedCriticalAccepted(updates);
  }

  /** After an applied update, a cache miss for the strategy resolves every cleaned key to its cleaned value. */
  lemma ResolveSeesUpdate(overrides: Overrides, defaults: TradingParameters, name: string, updates: Params, lockEnabled: bool)
    ensures var r := Update(overrides, name, updates, lockEnabled);
      var d := Delta(updates, lockEnabled);
      r.1.Applied? ==> forall k :: k in d ==> k in ResolveConfig(name, defaults, r.0) && ResolveConfig(name, defaults, r.0)[k] == d[k]
  {
    UpdateApplied(overrides, name, updates, lockEnabled);
  }

  /** An update leaves the cache coherent once the strategy's entry is cleared; a raising update needs no clearing. */
  lemma UpdateKeepsCoherent(cache: map<string, Params>, defaults: TradingParameters, overrides: Overrides,
                            name: string, updates: Params, lockEnabled: bool)
    requires Coherent(cache, defaults, overrides)
    ensures var r := Update(overrides, name, updates, lockEnabled);
      Coherent(Cleared(cache, Some(name)), defaults, r.0) &&
      (r.1.Raised? ==> Coherent(cache, defaults, r.0))
  {
    var s := Screened(updates, lockEnabled);
    MergeKeepsCoherent(cache, defaults, overrides, name, ParamRules.CleanAll(s.0, s.1));
    MergeOutcome(overrides, name, ParamRules.CleanAll(s.0, s.1));
  }

  /** Changing the default margin makes a cached configuration that had taken the old default out of date. */
  lemma DefaultsChangeStalesCache(name: string, defaults: TradingParameters, overrides: Overrides, margin: Value)
    requires "margin" !in Current(overrides, name) && margin != defaults.margin
    ensures ResolveConfig(name, WithUpdates(defaults, map["margin" := margin]), overrides)["margin"] == margin
    ensures ResolveConfig(name, defaults, overrides)["margin"] == defaults.margin
  {
  }

  // ------------------------------------------------------------ the safety gate as written

  /**
   * `update_strategy_params` as the code runs it. When the import of
   * `validation_safety` fails, the gate is false and the update proceeds
   * without the safety pass. When it succeeds, the imported `ValidationSafety()`
   * instance is truthy and has no attribute `lock_mechanism_enabled`, so the
   * gate raises `AttributeError` once the entry for a new name exists; that
   * raise, which names no parameter, is the outcome `None`.
   */
  function UpdateAsWritten(overrides: Overrides, name: string, updates: Params, imported: bool): (r: (Overrides, Option<UpdateOutcome>))
    ensures r.0.Keys == overrides.Keys + {name}
    ensures forall n :: n in overrides && n != name ==> r.0[n] == overrides[n]
  {
    if imported then (overrides[name := Current(overrides, name)], None)
    else var u := Update(overrides, name, updates, false); (u.0, Some(u.1))
  }

  /**
   * As written, once the import succeeds no update takes effect: the call
   * raises, the strategy's override is what it was (or empty, for a new name),
   * and every strategy resolves exactly as before, whatever was sent.
   */
  lemma AttributeErrorDropsUpdate(overrides: Overrides, defaults: TradingParameters, name: string, updates: Params)
    ensures var r := UpdateAsWritten(overrides, name, updates, true);
      r.1 == None && r.0[name] == Current(overrides, name) &&
      forall n :: ResolveConfig(n, defaults, r.0) == ResolveConfig(n, defaults, overrides)
  {
    var r := UpdateAsWritten(overrides, name, updates, true);
    forall n ensures ResolveConfig(n, defaults, r.0) == ResolveConfig(n, defaults, overrides) {
      if n == name && name !in overrides {
        UnionEmpty(map["name" := VStr(name), "enabled" := VBool(true)] + ToDict(defaults));
      }
    }
  }

  /**
   * The input that shows it: a zero margin sent for a new strategy leaves an
   * empty entry, and the strategy keeps the default margin; with the gate
   * read as a flag that is on, the same update stores 50.0 (`ZeroMarginLocked`).
   */
  lemma AttributeErrorZeroMargin(defaults: TradingParameters, name: string)
    ensures var r := UpdateAsWritten(map[], name, map["margin" := VInt(0)], true);
      r == (map[name := map[]], None) && ResolveConfig(name, defaults, r.0)["margin"] == defaults.margin
  {
    AttributeErrorDropsUpdate(map[], defaults, name, map["margin" := VInt(0)]);
  }

  // ------------------------------------------------------------ scenarios

  /** Without the lock, a zero margin is stored as 50.0 and reported by the cleaning's own check. */
  lemma ZeroMarginUnlocked(overrides: Overrides, name: string)
    ensures var r := Update(overrides, name, map["margin" := VInt(0)], false);
      r.1 == Applied(map["margin" := ParamRules.MarginMessage]) &&
      r.0[name] == Current(overrides, name)["margin" := VReal(50.0)]
  {
    var u := map["margin" := VInt(0)];
    MarginZeroCleaned();
    UpdateRaisesIff(overrides, name, u, false);
    UpdateApplied(overrides, name, u, false);
    UnionSingleton(Current(overrides, name), "margin", VReal(50.0));
    EmptyUnion(map["margin" := ParamRules.MarginMessage]);
  }

  /**
   * A margin that converts to a number at or below zero is never stored as
   * given: an applied update stores 50.0 and reports the margin. Without the
   * lock, and with it for a negative margin the validator lets through, the
   * message is the cleaning's own; with the lock, a zero margin carries the
   * validator's message instead.
   */
  lemma NonPositiveMarginUpdate(overrides: Overrides, name: string, updates: Params, lockEnabled: bool)
    requires "margin" in updates && PyFloat(updates["margin"]).Some? && PyFloat(updates["margin"]).value <= 0.0
    ensures var r := Update(overrides, name, updates, lockEnabled);
      r.1.Applied? ==> "margin" in r.0[name] && r.0[name]["margin"] == VReal(50.0) && "margin" in r.1.errors
    ensures var r := Update(overrides, name, updates, lockEnabled);
      r.1.Applied? && (!lockEnabled || PyFloat(updates["margin"]).value < 0.0) ==>
        "margin" in r.1.errors && r.1.errors["margin"] == ParamRules.MarginMessage
    ensures var r := Update(overrides, name, updates, lockEnabled);
      r.1.Applied? && lockEnabled && PyFloat(updates["margin"]).value == 0.0 ==>
        "margin" in r.1.errors && r.1.errors["margin"] == ValidationSafety.ZeroErrorMessage("margin")
  {
    var r := Update(overrides, name, updates, lockEnabled);
    var s := Screened(updates, lockEnabled);
    var x := PyFloat(updates["margin"]).value;
    UpdateRaisesIff(overrides, name, updates, lockEnabled);
    UpdateApplied(overrides, name, updates, lockEnabled);
    ScreenedMarginCleaned(updates, lockEnabled);
    if r.1.Applied? {
      MarginCleanedTo(s.0, VReal(50.0), if lockEnabled && x == 0.0 then None else Some(ParamRules.MarginMessage));
    }
  }

  /** The screened margin and the validator's message for it, when the raw margin converts to x <= 0. */
  lemma ScreenedMarginCleaned(updates: Params, lockEnabled: bool)
    requires "margin" in updates && PyFloat(updates["margin"]).Some? && PyFloat(updates["margin"]).value <= 0.0
    ensures var s := Screened(updates, lockEnabled);
      var x := PyFloat(updates["margin"]).value;
      "margin" in s.0 &&
      ParamRules.CleanField(ParamRules.MarginRule, s.0["margin"]) ==
        ParamRules.Stored(VReal(50.0), if lockEnabled && x == 0.0 then None else Some(ParamRules.MarginMessage))
    ensures var s := Screened(updates, lockEnabled);
      lockEnabled && PyFloat(updates["margin"]).value == 0.0 ==>
        "margin" in s.1 && s.1["margin"] == ValidationSafety.ZeroErrorMessage("margin")
    ensures var s := Screened(updates, lockEnabled);
      !lockEnabled || PyFloat(updates["margin"]).value < 0.0 ==> "margin" !in s.1
  {
    var x := PyFloat(updates["margin"]).value;
    if !lockEnabled {
      ParamRules.MarginNonPositiveField(updates["margin"]);
    } else {
      ValidationSafety.SafetyBatch(updates);
      if x == 0.0 {
        ParamRules.MarginPositiveField(50.0);
      } else {
        ParamRules.MarginNonPositiveField(VReal(x));
      }
    }
  }

  /** A margin the cleaning stores as `v` with `note` is merged as `v` and reported exactly when `note` is present. */
  lemma MarginCleanedTo(u: Params, v: Value, note: Option<string>)
    requires "margin" in u && ParamRules.CleanField(ParamRules.MarginRule, u["margin"]) == ParamRules.Stored(v, note)
    ensures "margin" in ParamRules.Expected(u) && ParamRules.Expected(u)["margin"] == v
    ensures "margin" in ParamRules.Messages(u) <==> note.Some?
    ensures note.Some? ==> ParamRules.Messages(u)["margin"] == note.value
  {
    ParamRules.MarginRuleOf();
    ParamRules.BasicRuleOf();
    ParamRules.ExpectedValue(u, "margin");
    ParamRules.MessageOf(u, "margin");
  }

  lemma MarginZeroCleaned()
    ensures var u := map["margin" := VInt(0)];
      !ParamRules.Raises(u) && ParamRules.Expected(u) == map["margin" := VReal(50.0)] &&
      ParamRules.Messages(u) == map["margin" := ParamRules.MarginMessage]
  {
    ParamRules.MarginRuleOf();
    ParamRules.MarginZeroField();
    ParamRules.OneKeyUpdate("margin", VInt(0), ParamRules.MarginRule, VReal(50.0), Some(ParamRules.MarginMessage));
  }

  /** With the lock on, the validator has already replaced a zero margin by 50.0 and reports it; the cleaning adds nothing. */
  lemma ZeroMarginLocked(overrides: Overrides, name: string)
    ensures var r := Update(overrides, name, map["margin" := VInt(0)], true);
      r.1 == Applied(map["margin" := ValidationSafety.ZeroErrorMessage("margin")]) &&
      r.0[name] == Current(overrides, name)["margin" := VReal(50.0)]
  {
    var u := map["margin" := VInt(0)];
    ZeroMarginScreened();
    MarginFiftyCleaned();
    UpdateRaisesIff(overrides, name, u, true);
    UpdateApplied(overrides, name, u, true);
    UnionSingleton(Current(overrides, name), "margin", VReal(50.0));
    UnionEmpty(map["margin" := ValidationSafety.ZeroErrorMessage("margin")]);
  }

  lemma ZeroMarginScreened()
    ensures Screened(map["margin" := VInt(0)], true) ==
      (map["margin" := VReal(50.0)], map["margin" := ValidationSafety.ZeroErrorMessage("margin")])
  {
    var u := map["margin" := VInt(0)];
    assert ValidationSafety.ValidateParameter("margin", VInt(0)) ==
      ValidationSafety.Verdict(false, VReal(50.0), Some(ValidationSafety.ZeroErrorMessage("margin")));
    MapsEqual(ValidationSafety.SafetyCorrected(u), map["margin" := VReal(50.0)]);
    MapsEqual(ValidationSafety.SafetyErrors(u), map["margin" := ValidationSafety.ZeroErrorMessage("margin")]);
  }

  lemma MarginFiftyCleaned()
    ensures var u := map["margin" := VReal(50.0)];
      !ParamRules.Raises(u) && ParamRules.Expected(u) == u && ParamRules.Messages(u) == map[]
  {
    ParamRules.MarginRuleOf();
    ParamRules.MarginPositiveField(50.0);
    ParamRules.OneKeyUpdate("margin", VReal(50.0), ParamRules.MarginRule, VReal(50.0), None);
  }

  /** A leverage of 200 is out of [1, 125] and is stored as 5, without a message. */
  lemma HighLeverageUnlocked(overrides: Overrides, name: string)
    ensures var r := Update(overrides, name, map["leverage" := VInt(200)], false);
      r.1 == Applied(map[]) && r.0[name] == Current(overrides, name)["leverage" := VInt(5)]
  {
    var u := map["leverage" := VInt(200)];
    HighLeverageCleaned();
    UpdateRaisesIff(overrides, name, u, false);
    UpdateApplied(overrides, name, u, false);
    UnionSingleton(Current(overrides, name), "leverage", VInt(5));
    EmptyUnion<string, string>(map[]);
  }

  lemma HighLeverageCleaned()
    ensures var u := map["leverage" := VInt(200)];
      !ParamRules.Raises(u) && ParamRules.Expected(u) == map["leverage" := VInt(5)] && ParamRules.Messages(u) == map[]
  {
    ParamRules.LeverageRuleOf();
    ParamRules.LeverageHighField(200);
    ParamRules.OneKeyUpdate("leverage", VInt(200), ParamRules.LeverageRule, VInt(5), None);
  }

  /** A timeframe outside the twelve listed intervals is stored as '15m'. */
  lemma UnknownTimeframeUnlocked(overrides: Overrides, name: string)
    ensures var r := Update(overrides, name, map["timeframe" := VStr("7m")], false);
      r.1 == Applied(map[]) && r.0[name] == Current(overrides, name)["timeframe" := VStr("15m")]
  {
    var u := map["timeframe" := VStr("7m")];
    UnknownTimeframeCleaned();
    UpdateRaisesIff(overrides, name, u, false);
    UpdateApplied(overrides, name, u, false);
    UnionSingleton(Current(overrides, name), "timeframe", VStr("15m"));
    EmptyUnion<string, string>(map[]);
  }

  lemma UnknownTimeframeCleaned()
    ensures var u := map["timeframe" := VStr("7m")];
      !ParamRules.Raises(u) && ParamRules.Expected(u) == map["timeframe" := VStr("15m")] && ParamRules.Messages(u) == map[]
  {
    ParamRules.TimeframeRuleOf();
    SevenMinutesNotListed();
    ParamRules.TimeframeUnknownField("7m");
    ParamRules.OneKeyUpdate("timeframe", VStr("7m"), ParamRules.TimeframeRule, VStr("15m"), None);
  }

  lemma SevenMinutesNotListed()
    ensures "7m" !in ParamRules.ValidTimeframes
  {
  }

  // ------------------------------------------------------------ the screening and cleaning steps

  /**
   * The first half of `update_strategy_params`: the safety pass when the lock
   * is on, then the cleaning pass over the rule table.
   */
  method ScreenAndClean(updates: Params, lockEnabled: bool) returns (cleaned: Result<ParamRules.Cleaned, string>)
    ensures cleaned == ParamRules.CleanAll(Screened(updates, lockEnabled).0, Screened(updates, lockEnabled).1)
    ensures cleaned.Ok? ==> cleaned.value.values == Delta(updates, lockEnabled)
  {
    var validated, safetyErrors := updates, map[];
    if lockEnabled {
      validated, safetyErrors := ValidationSafety.ValidateMultipleParameters(updates);
    }
    assert (validated, safetyErrors) == Screened(updates, lockEnabled);
    cleaned := ParamRules.CleanUpdates(validated, safetyErrors);
  }

  // ------------------------------------------------------------ the manager

  /** `TradingConfigManager`: the override store, the resolved-configuration cache and the universal defaults. */
  class TradingConfigManager {
    var strategyOverrides: Overrides
    var configCache: map<string, Params>
    var defaultParams: TradingParameters
    /** The running bot's strategy map, when a bot is running. */
    var liveStrategies: Option<map<string, Params>>
    /** The last snapshot written to the configuration file. */
    var saved: Option<Overrides>

    /** A new manager: the dataclass defaults, an empty cache, and the overrides the configuration file held, if it could be read. */
    constructor(stored: Option<Overrides>, live: Option<map<string, Params>>)
      ensures strategyOverrides == (if stored.Some? then stored.value else map[])
      ensures configCache == map[] && defaultParams == Factory
      ensures liveStrategies == live && saved == stored
      ensures Coherent(configCache, defaultParams, strategyOverrides)
    {
      strategyOverrides := if stored.Some? then stored.value else map[];
      configCache := map[];
      defaultParams := Factory;
      liveStrategies := live;
      saved := stored;
    }

    /**
     * `get_strategy_config`: a cached configuration is returned as it is; on a
     * miss the configuration is assembled and cached. `baseConfig` is unused,
     * as in the source.
     */
    method GetStrategyConfig(name: string, baseConfig: Params) returns (config: Params)
      modifies this
      ensures name in old(configCache) ==> config == old(configCache)[name] && configCache == old(configCache)
      ensures name !in old(configCache) ==>
        config == ResolveConfig(name, defaultParams, strategyOverrides) && configCache == old(configCache)[name := config]
      ensures strategyOverrides == old(strategyOverrides) && defaultParams == old(defaultParams)
      ensures liveStrategies == old(liveStrategies) && saved == old(saved)
      ensures old(Coherent(configCache, defaultParams, strategyOverrides)) ==>
        Coherent(configCache, defaultParams, strategyOverrides) && config == ResolveConfig(name, defaultParams, strategyOverrides)
    {
      if name in configCache {
        return configCache[name];
      }
      config := map["name" := VStr(name), "enabled" := VBool(true)];
      config := config + ToDict(defaultParams);
      if name in strategyOverrides {
        config := config + strategyOverrides[name];
      }
      configCache := configCache[name := config];
    }

    /** `clear_config_cache`. */
    method ClearConfigCache(name: Option<string>)
      modifies this
      ensures configCache == Cleared(old(configCache), name)
      ensures strategyOverrides == old(strategyOverrides) && defaultParams == old(defaultParams)
      ensures liveStrategies == old(liveStrategies) && saved == old(saved)
    {
      if name.Some? && name.value != "" {
        if name.value in configCache {
          configCache := configCache - {name.value};
        }
      } else {
        configCache := map[];
      }
    }

    /** `_force_update_running_bot`: merges `updates` into the running bot's copy of the strategy, if it runs one. */
    method ForceUpdateRunningBot(name: string, updates: Params)
      modifies this
      ensures liveStrategies == Pushed(old(liveStrategies), name, updates)
      ensures strategyOverrides == old(strategyOverrides) && configCache == old(configCache)
      ensures defaultParams == old(defaultParams) && saved == old(saved)
    {
      if liveStrategies.Some? && name in liveStrategies.value {
        var strategies := liveStrategies.value;
        liveStrategies := Some(strategies[name := strategies[name] + updates]);
      }
    }

    /**
     * `update_strategy_params`. A raising conversion leaves only the empty
     * entry created for a new name; otherwise the cleaned values are merged
     * and saved, pushed to the running bot, and the strategy's cache entry is
     * cleared.
     */
    method UpdateStrategyParams(name: string, updates: Params, lockEnabled: bool) returns (outcome: UpdateOutcome)
      modifies this
      ensures (strategyOverrides, outcome) == Update(old(strategyOverrides), name, updates, lockEnabled)
      ensures outcome.Applied? ==>
        configCache == Cleared(old(configCache), Some(name)) &&
        liveStrategies == Pushed(old(liveStrategies), name, Delta(updates, lockEnabled)) &&
        saved == Some(strategyOverrides)
      ensures outcome.Raised? ==>
        configCache == old(configCache) && liveStrategies == old(liveStrategies) && saved == old(saved)
      ensures defaultParams == old(defaultParams)
      ensures old(Coherent(configCache, defaultParams, strategyOverrides)) ==>
        Coherent(configCache, defaultParams, strategyOverrides)
    {
      var cleaned := ScreenAndClean(updates, lockEnabled);
      outcome := StoreCleaned(name, cleaned);
    }

    /**
     * The second half of `update_strategy_params`, once the cleaning pass has
     * produced `cleaned`: the entry for a new name is created, and unless the
     * cleaning raised, the values are merged, saved, pushed to the running bot
     * and the strategy's cache entry is cleared. (The source creates the
     * entry before the two passes, which read no state.)
     */
    method StoreCleaned(name: string, cleaned: Result<ParamRules.Cleaned, string>) returns (outcome: UpdateOutcome)
      modifies this
      ensures (strategyOverrides, outcome) == Merge(old(strategyOverrides), name, cleaned)
      ensures outcome.Applied? ==>
        configCache == Cleared(old(configCache), Some(name)) &&
        liveStrategies == Pushed(old(liveStrategies), name, cleaned.value.values) &&
        saved == Some(strategyOverrides)
      ensures outcome.Raised? ==>
        configCache == old(configCache) && liveStrategies == old(liveStrategies) && saved == old(saved)
      ensures defaultParams == old(defaultParams)
      ensures old(Coherent(configCache, defaultParams, strategyOverrides)) ==>
        Coherent(configCache, defaultParams, strategyOverrides)
    {
      ghost var overrides0, cache0 := strategyOverrides, configCache;
      if name !in strategyOverrides {
        strategyOverrides := strategyOverrides[name := map[]];
      }
      ghost var merged := Merge(overrides0, name, cleaned);
      if Coherent(cache0, defaultParams, overrides0) {
        MergeKeepsCoherent(cache0, defaultParams, overrides0, name, cleaned);
      }
      MergeOutcome(overrides0, name, cleaned);
      if cleaned.Err? {
        MapsEqual(strategyOverrides, merged.0);
        return Raised(cleaned.error);
      }
      strategyOverrides := strategyOverrides[name := strategyOverrides[name] + cleaned.value.values];
      MapsEqual(strategyOverrides, merged.0);
      saved := Some(strategyOverrides);
      ForceUpdateRunningBot(name, cleaned.value.values);
      ClearConfigCache(Some(name));
      outcome := Applied(cleaned.value.errors);
    }

    /** `update_default_params`: every known attribute named in `updates` is set; the cache is left as it is. */
    method UpdateDefaultParams(updates: Params)
      modifies this
      ensures defaultParams == WithUpdates(old(defaultParams), updates)
      ensures strategyOverrides == old(strategyOverrides) && configCache == old(configCache)
      ensures liveStrategies == old(liveStrategies) && saved == old(saved)
    {
      var pending := updates.Keys;
      ghost var done: Params := map[];
      while pending != {}
        invariant pending <= updates.Keys
        invariant done.Keys == updates.Keys - pending
        invariant forall k :: k in done ==> done[k] == updates[k]
        invariant defaultParams == WithUpdates(old(defaultParams), done)
        invariant strategyOverrides == old(strategyOverrides) && configCache == old(configCache)
        invariant liveStrategies == old(liveStrategies) && saved == old(saved)
        decreases pending
      {
        var key :| key in pending;
        SetAttributeStep(old(defaultParams), done, key, updates[key]);
        if key in BaseKeys {
          defaultParams := SetAttribute(defaultParams, key, updates[key]);
        }
        done := done[key := updates[key]];
        pending := pending - {key};
      }
      MapsEqual(done, updates);
    }

    /** `get_all_strategies`: a configuration per override, then the presets whose names no override uses. */
    method GetAllStrategies() returns (strategies: map<string, Params>)
      ensures strategies == StrategyCatalog.AllStrategies(defaultParams, strategyOverrides)
    {
      strategies := ConfigureOverrides(defaultParams, strategyOverrides);
      strategies := AddFallbacks(strategies, StrategyCatalog.Presets(defaultParams));
    }
  }

  /**
   * The first loop of `get_all_strategies`: for each override, the defaults,
   * then the override, then the family and common `setdefault`s.
   */
  method ConfigureOverrides(defaults: TradingParameters, overrides: Overrides) returns (strategies: map<string, Params>)
    ensures strategies == StrategyCatalog.ConfiguredAll(defaults, overrides)
  {
    strategies := map[];
    var pending := overrides.Keys;
    while pending != {}
      invariant pending <= overrides.Keys
      invariant strategies.Keys == overrides.Keys - pending
      invariant BuiltFrom(strategies, overrides, StrategyCatalog.Builder(defaults))
      decreases pending
    {
      var n :| n in pending;
      strategies := AddConfigured(strategies, n, defaults, overrides);
      pending := pending - {n};
    }
    StrategyCatalog.ConfiguredDone(strategies, defaults, overrides);
  }

  /** One step of the first loop of `get_all_strategies`: configure strategy `n` and store it. */
  method AddConfigured(strategies: map<string, Params>, n: string, defaults: TradingParameters, overrides: Overrides)
    returns (next: map<string, Params>)
    requires n in overrides
    requires BuiltFrom(strategies, overrides, StrategyCatalog.Builder(defaults))
    ensures next.Keys == strategies.Keys + {n}
    ensures BuiltFrom(next, overrides, StrategyCatalog.Builder(defaults))
  {
    var config := ConfigureStrategy(n, defaults, overrides[n]);
    StrategyCatalog.BuilderConfigures(defaults, n, overrides[n]);
    BuiltFromStep(strategies, overrides, StrategyCatalog.Builder(defaults), n, config);
    next := strategies[n := config];
  }

  /** The body of that loop for one strategy. */
  method ConfigureStrategy(name: string, defaults: TradingParameters, web: Params) returns (config: Params)
    ensures config == StrategyCatalog.Configured(name, defaults, web)
  {
    config := ToDict(defaults) + web;
    config := StrategyCatalog.SetDefaults(config, StrategyCatalog.FamilyDefaults(StrategyCatalog.FamilyOf(name)));
    config := StrategyCatalog.SetDefaults(config, StrategyCatalog.CommonDefaults);
  }

  /** The last loop of `get_all_strategies`: each fallback is added under its name unless a strategy already has it. */
  method AddFallbacks(strategies: map<string, Params>, fallbacks: map<string, Params>) returns (r: map<string, Params>)
    ensures r == fallbacks + strategies
  {
    r := strategies;
    var pending := fallbacks.Keys;
    while pending != {}
      invariant pending <= fallbacks.Keys
      invariant r.Keys == strategies.Keys + (fallbacks.Keys - pending)
      invariant forall n :: n in strategies ==> r[n] == strategies[n]
      invariant forall n :: n in r && n !in strategies ==> r[n] == fallbacks[n]
      decreases pending
    {
      var n :| n in pending;
      if n !in r {
        r := r[n := fallbacks[n]];
      }
      pending := pending - {n};
    }
    MapsEqual(r, fallbacks + strategies);
  }
}
