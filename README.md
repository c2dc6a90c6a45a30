# Strategy configuration of the trading bot, in Dafny

This project models the strategy-configuration subsystem of a crypto
trading bot. A web dashboard edits per-strategy parameters. The trading
worker reads them back as resolved configurations. Two parts are modelled,
and the properties their code promises are proved.

- **The critical-zero safety validator** (`ValidationSafety`). Only
  `margin`, `leverage` and `assessment_interval` are inspected. Each is
  converted to its numeric type, and a value that cannot be converted, or
  converts to zero, is replaced by its safe default (50.0, 5 or 60) with a
  message. The validator has a one-parameter check, a batch check over an
  update dictionary and a yes/no check over a whole configuration.
- **The configuration manager** (`TradingConfigManager` and
  `TradingParameters`). The manager keeps three things:
  - the per-strategy override store written by the dashboard;
  - a cache of resolved configurations;
  - the universal default parameters.

  Its operations are:
  - `get_strategy_config`: a layered merge of `{name, enabled}`, the
    defaults and the override, read through the cache;
  - `update_strategy_params`: the safety pass, then the per-key cleaning
    table, a field-level upsert into the store, a push to the running bot
    and invalidation of the strategy's cache entry;
  - `get_all_strategies`: override first, then the family and common
    `setdefault` back-fills, then four fallback presets;
  - `update_default_params` and `clear_config_cache`.

## Layout

| file | module | contents |
|---|---|---|
| `wrappers.dfy` | `Wrappers` | `Option` and `Result` |
| `map_lemmas.dfy` | `MapLemmas` | generic facts about map union and equality |
| `py_values.dfy` | `PyValues` | the `Value` datatype of dictionary values. Python's `int()`, `float()`, `str()`, `bool()`, `upper()`, `lower()` and `in` on strings, as far as the configuration code uses them |
| `validation_safety.dfy` | `ValidationSafety` | the safety validator |
| `trading_parameters.dfy` | `TradingParams` | `TradingParameters`, `to_dict` and the `setattr` loop of `update_default_params` |
| `param_rules.dfy` | `ParamRules` | the cleaning table of `update_strategy_params`: one `FieldRule` per recognised key, in source order, and the fold over it with its closed form |
| `strategy_catalog.dfy` | `StrategyCatalog` | the strategy families, their back-fills, the four presets and the result of `get_all_strategies` |
| `trading_config.dfy` | `TradingConfig` | the pure specification of the manager's operations, and the class `TradingConfigManager`, whose methods are proved against it |

## Modelling decisions

- **Only `get_all_strategies` back-fills.** `get_strategy_config` does no family back-fill: it merges only `{name, enabled}`, `to_dict()` of the defaults and the override.
- **The safety gate.**
  - `update_strategy_params` runs the safety pass only when `validation_safety and validation_safety.lock_mechanism_enabled` holds.
  - `validation_safety` is the module-level `ValidationSafety()` instance, which is truthy. Its `__init__` (src/config/validation_safety.py:12-19) never defines `lock_mechanism_enabled`, and none of src/config/trading_config.py, src/config/validation_safety.py and main.py assigns it; other modules of the repository are not part of this model. On that reading the code as written has three outcomes:
    - the import fails: `validation_safety` is `None` and the update runs without the safety pass;
    - the import succeeds: reading the attribute raises `AttributeError`, after the empty entry for a new name has been created, and nothing else happens (`UpdateAsWritten`, `AttributeErrorDropsUpdate`; see "## Findings");
    - the flag, once defined, is on or off.
  - The update pipeline itself (`Update`, `UpdateStrategyParams`) models the gate as a flag: the boolean parameter `lockEnabled`. Every lemma about updates holds for both values, and `lockEnabled = false` is also the failed-import case.
- **Exceptions.**
  - A conversion inside the cleaning table can raise: `float('abc')`, `int(None)`, `list(5)`.
  - A raise propagates out of `update_strategy_params`, after the method has already created an empty override entry for a new name.
  - The model returns `Raised(key)` for the first key, in table order, that raises. The only state change is that empty entry: nothing is saved, pushed or cleared.
- **Order of steps.** `StoreCleaned` creates the entry after the safety and cleaning passes, where the source creates it before them. Both passes read no manager state, so the final state is the same.
- **`clear_config_cache` tests truthiness.** `clear_config_cache(None)` and `clear_config_cache("")` both empty the whole cache. So an update of the strategy named `""` clears every cache entry.
- **`update_default_params` leaves the cache stale.** The method does not touch the cache, so a cached configuration can keep an old default. `DefaultsChangeStalesCache` exhibits this.
- **External state is modelled as fields.**
  - The running bot's strategy map is the optional field `liveStrategies`. The source reaches it through `sys.modules['__main__'].bot_manager` and swallows every exception.
  - The configuration file is the snapshot field `saved`.
  - The constructor receives the file's content as `stored`, or `None` when it is missing or unreadable.
- **Python values.**
  - Floats are exact reals: the code only compares and assigns them.
  - `int()` of a float truncates toward zero (`Trunc`).
  - `int()` and `float()` of a string accept an optional sign and decimal digits (and a decimal point for `float()`).
  - `bool()` is truthiness.
  - The leverage message tests `updates['leverage'] == 0` on the raw value, as Python compares it (`PyEqualsZero`: `False == 0` holds, `"0" == 0` does not).
- **`baseConfig` is ignored.** `get_strategy_config` receives a `base_config` argument and never reads it; the model keeps it and ignores it.

## Model

| member | source | states |
|---|---|---|
| PyValues.Trunc | src/config/trading_config.py:157 | `int()` of a float rounds toward zero: the result is within one of the input, below it for positives and above it for negatives |
| PyValues.Upper | src/config/trading_config.py:145 | `str.upper()` keeps the length, turns each small ASCII letter into its own capital and changes nothing else |
| PyValues.UpperIdempotent | src/config/trading_config.py:145 | upper-casing twice is upper-casing once |
| PyValues.Lower | src/config/trading_config.py:443 | `str.lower()` keeps the length, turns each ASCII capital into its own small letter and changes nothing else |
| PyValues.PyStr | src/config/trading_config.py:168 | `str()` of a string is the string itself |
| ValidationSafety.CriticalDefault | src/config/validation_safety.py:15-19 | exactly the three critical names have a default, and every default is a non-zero number |
| ValidationSafety.CoerceCritical | src/config/validation_safety.py:32-35 | a successful conversion always yields a number |
| ValidationSafety.ValidateParameter | src/config/validation_safety.py:21-48 | a non-critical name passes through unchanged. A critical value is valid exactly when it converts to a non-zero number, and then it is that number with no message. Otherwise it is replaced by the default, with the type-error or zero message as the failure. Whatever comes out for a critical name is a non-zero number |
| ValidationSafety.ValidateParameterStable | src/config/validation_safety.py:27-48 | a value the validator produced is accepted unchanged when validated again |
| ValidationSafety.SafetyCorrected | src/config/validation_safety.py:76-79 | the corrected dictionary has exactly the input's keys |
| ValidationSafety.SafetyErrors | src/config/validation_safety.py:80-81 | every error key is an input key |
| ValidationSafety.SafetyCorrectedIdempotent | src/config/validation_safety.py:68-84 | validating the corrected dictionary again changes nothing and reports no message |
| ValidationSafety.SafetyBatch | src/config/validation_safety.py:68-84 | the corrected dictionary holds each input key with its validated value. Error keys are exactly the inputs that failed, each with its own message. No critical key is left at zero |
| ValidationSafety.ValidateMultipleParameters | src/config/validation_safety.py:68-84 | the loop returns exactly the corrected dictionary and the error dictionary specified above |
| ValidationSafety.ValidateStrategyConfig | src/config/validation_safety.py:50-66 | the result is false on an empty configuration; otherwise it is true exactly when every critical key present validates (absent keys are not required) |
| TradingParams.ToDict | src/config/trading_config.py:14-22 | `to_dict()` has exactly the six attribute names as keys |
| TradingParams.WithUpdatesToDict | src/config/trading_config.py:594-598 | after updating defaults, `to_dict()` is the old one overwritten by exactly the supplied keys that name an attribute; unknown keys are ignored |
| TradingParams.WithUpdatesFromDict | src/config/trading_config.py:594-598 | feeding `to_dict()` of some parameters to the update reproduces those parameters, whatever the defaults were |
| TradingParams.SetAttributeStep | src/config/trading_config.py:596-598 | one `setattr` step for a fresh key agrees with the batch update extended by that key |
| ParamRules.SameRule | src/config/trading_config.py:374-386 | the universal loops give every listed key the same rule, in list order |
| ParamRules.Lookup | src/config/trading_config.py:141-386 | a key has a rule exactly when the table lists it, and the rule found is one of its entries |
| ParamRules.RulesOk | src/config/trading_config.py:141-386 | every rule of the table is sound (its fallback lies in its own range), and the special rules sit under their own keys |
| ParamRules.BasicRuleOf | src/config/trading_config.py:147-169 | `margin`, `leverage` and `timeframe` are cleaned by their own rules |
| ParamRules.MarginRuleOf | src/config/trading_config.py:147-154 | `margin` is cleaned by the margin rule |
| ParamRules.MarginZeroField | src/config/trading_config.py:147-154 | a margin of 0 is stored as 50.0 with the margin message |
| ParamRules.MarginNonPositiveField | src/config/trading_config.py:147-154 | any margin whose `float()` is at or below zero is stored as 50.0 with the margin message |
| ParamRules.MarginPositiveField | src/config/trading_config.py:147-151 | a positive margin is stored unchanged with no message |
| ParamRules.LeverageRuleOf | src/config/trading_config.py:156-164 | `leverage` is cleaned by the leverage rule |
| ParamRules.LeverageHighField | src/config/trading_config.py:156-164 | a leverage above 125 is stored as 5, with no message, because it is not zero |
| ParamRules.TimeframeRuleOf | src/config/trading_config.py:166-169 | `timeframe` is cleaned by the timeframe rule |
| ParamRules.TimeframeUnknownField | src/config/trading_config.py:166-169 | a timeframe outside the twelve listed intervals is stored as `'15m'` |
| ParamRules.AssessmentRuleOf | src/config/trading_config.py:176-181 | `assessment_interval` is clamped into [5, 300] |
| ParamRules.HistogramRule | src/config/trading_config.py:242-245 | `min_histogram_threshold` must lie in [0.0001, 0.01]; otherwise it becomes 0.0001 |
| ParamRules.NumberAccepted | src/config/trading_config.py:147-181 | no number raises under the margin, leverage or assessment-interval rule |
| ParamRules.DroppedKeys | src/config/trading_config.py:141-386 | `name`, `enabled` and `lookback_candles` have no rule, so an update drops them |
| ParamRules.NoRule | src/config/trading_config.py:141-386 | a key that no section of the table names has no rule |
| ParamRules.BelowRealWithin | src/config/trading_config.py:244-245 | a float below a range's minimum is out of range and is replaced by the fallback |
| ParamRules.InsideRealWithin | src/config/trading_config.py:244-245 | a float inside a range is in range and is stored unchanged |
| ParamRules.CleanFieldInRange | src/config/trading_config.py:141-386 | every value a sound rule stores lies in that rule's range |
| ParamRules.CleanFieldStable | src/config/trading_config.py:141-386 | a value already in range is stored again, unchanged up to int/float, with no message |
| ParamRules.CleanFromFails | src/config/trading_config.py:141-386 | the cleaning raises exactly when some present recognised key fails to convert, and it names such a key |
| ParamRules.CleanFromNoSessions | src/config/trading_config.py:141-331 | without the sessions rule, the cleaning adds exactly the written values and messages to what was collected |
| ParamRules.CleanFromAppend | src/config/trading_config.py:141-386 | cleaning over two runs of keys is cleaning the first run and then the second |
| ParamRules.WrittenAppend | src/config/trading_config.py:141-386 | the values and messages of two runs of keys are the union of each run's |
| ParamRules.SessionsOnce | src/config/trading_config.py:333-342 | `allowed_sessions` stores its list, switches the session flag off when the value is `'DISABLED'`, and writes no message |
| ParamRules.CombineRuns | src/config/trading_config.py:330-345 | the runs before and after the sessions rule, together with it, add up to one union with the session flag switched off |
| ParamRules.ThreeRuns | src/config/trading_config.py:141-386 | cleaning around `allowed_sessions` is the three runs one after the other, none raising |
| ParamRules.CleanAroundSessions | src/config/trading_config.py:141-386 | the whole cleaning, when it does not raise, stores the written values with the session flag switched off on `'DISABLED'`, and adds the written messages |
| ParamRules.WrittenInRange | src/config/trading_config.py:141-386 | under a table of sound rules, every written value lies in its key's range |
| ParamRules.CleanFieldNote | src/config/trading_config.py:154 | only the margin and leverage rules write messages, each its own |
| ParamRules.NotesOnly | src/config/trading_config.py:154-164 | messages are written only under `margin` and `leverage` |
| ParamRules.WrittenCovers | src/config/trading_config.py:141-386 | without a raise, every present key of the run that has a rule is written |
| ParamRules.WrittenValue | src/config/trading_config.py:141-386 | a present key whose rule stores writes what its rule makes of the input |
| ParamRules.FlagInRange | src/config/trading_config.py:337-338 | switching the session flag off keeps every written value in range |
| ParamRules.RecleanInRange | src/config/trading_config.py:141-386 | cleaning in-range values raises nothing, keeps the keys and values (up to int/float) and writes no message |
| ParamRules.SessionRuleOnce | src/config/trading_config.py:333 | the sessions rule sits under `allowed_sessions` only |
| ParamRules.CleanAllCharacterised | src/config/trading_config.py:141-386 | the cleaning raises exactly when a recognised key fails to convert, on such a key. Otherwise it stores `Expected(updates)` and adds `Messages(updates)` |
| ParamRules.CleanAllRaises | src/config/trading_config.py:141-386 | the cleaning pass raises exactly when some recognised key cannot be converted |
| ParamRules.CleanAllRaisedOn | src/config/trading_config.py:141-386 | the key it raises on is a recognised key of the update whose conversion fails |
| ParamRules.CleanAllStores | src/config/trading_config.py:141-386 | when it does not raise, it stores the cleaned values and adds the margin and leverage messages to the safety messages |
| ParamRules.CleanKeys | src/config/trading_config.py:141-386 | the key loop, stopping at the first raise, computes the fold over the keys |
| ParamRules.CleanUpdates | src/config/trading_config.py:141-386 | the cleaning pass raises exactly when a recognised key fails, names that key, and otherwise returns the cleaned values with the safety and cleaning messages |
| ParamRules.ExpectedKeys | src/config/trading_config.py:141-386 | only recognised keys are stored, every present recognised key is stored, and a stored key absent from the update is the session flag that `'DISABLED'` switched off |
| ParamRules.ExpectedInRange | src/config/trading_config.py:141-386 | every stored value lies in the range its key declares |
| ParamRules.ExpectedValue | src/config/trading_config.py:141-386 | each present key other than a switched-off session flag stores exactly what its rule makes of the input |
| ParamRules.NotesOnlyMarginAndLeverage | src/config/trading_config.py:150-164 | the cleaning writes messages only for `margin` and `leverage`, each its own |
| ParamRules.MessageOf | src/config/trading_config.py:150-164 | a present recognised key has a message exactly when its rule writes one, and it is that message |
| ParamRules.MessagesKeys | src/config/trading_config.py:150-164 | messages are written only for keys of the update |
| ParamRules.SingleUpdate | src/config/trading_config.py:141-386 | an update of one key whose rule stores writes that one value and at most its message |
| ParamRules.OneKeyUpdate | src/config/trading_config.py:141-386 | an update of a single recognised key other than `allowed_sessions` raises nothing and stores what its rule makes of the value |
| ParamRules.ExpectedStable | src/config/trading_config.py:141-386 | cleaning what the cleaning stored raises nothing, keeps the keys and values (up to int/float) and writes no message |
| StrategyCatalog.SetDefaults | src/config/trading_config.py:443-502 | a run of `setdefault`s keeps every present key's value and adds exactly the absent default keys with their defaults |
| StrategyCatalog.Presets | src/config/trading_config.py:505-583 | the fallback presets are exactly the four named ones |
| StrategyCatalog.ConfiguredAll | src/config/trading_config.py:434-502 | one configured strategy per override |
| StrategyCatalog.AllStrategiesKeys | src/config/trading_config.py:428-592 | the result holds exactly the overridden names and the four preset names |
| StrategyCatalog.OverrideWins | src/config/trading_config.py:437-440 | an override value is never replaced, not by the defaults, a back-fill or a preset |
| StrategyCatalog.BackfillOnlyAbsent | src/config/trading_config.py:437-502 | a key the override lacks takes the universal default, else the family back-fill, else the common back-fill; a key in none of them is absent |
| StrategyCatalog.PresetOnlyWhenAbsent | src/config/trading_config.py:586-588 | a preset appears only under a name no override uses |
| StrategyCatalog.OverriddenConfigured | src/config/trading_config.py:434-502 | every overridden name, a preset name or not, is configured from its override |
| StrategyCatalog.NoOverridesGivesPresets | src/config/trading_config.py:504-588 | with no overrides the result is exactly the four presets |
| StrategyCatalog.ConfiguredComplete | src/config/trading_config.py:436-502 | every configured strategy holds the universal keys, its family's back-fill keys and the common back-fill keys |
| StrategyCatalog.RsiOversoldFamily | src/config/trading_config.py:443 | `rsi_oversold` is in the RSI family |
| StrategyCatalog.MacdDivergenceFamily | src/config/trading_config.py:450 | `macd_divergence` is in the MACD family |
| StrategyCatalog.SmartMoneyReversalFamily | src/config/trading_config.py:465 | `smart_money_reversal` is in the smart-money family |
| StrategyCatalog.EngulfingPatternBtcFamily | src/config/trading_config.py:477 | `engulfing_pattern_btc` is in the engulfing family |
| StrategyCatalog.PresetFixed | src/config/trading_config.py:437-502 | a preset that already holds its family's and the common back-fill keys passes through configuration unchanged |
| StrategyCatalog.PresetsAreFixedPoints | src/config/trading_config.py:505-583 | each preset, saved as the override of its own name, comes back unchanged from `get_all_strategies` |
| StrategyCatalog.HistogramThresholdRuleOf | src/config/trading_config.py:242-245 | the update rule of `min_histogram_threshold` is the range [0.0001, 0.01] with fallback 0.0001 |
| StrategyCatalog.MacdThresholdAsWrittenOutOfRange | src/config/trading_config.py:455 | the MACD back-fill as written holds 0.00001, which its own update rule treats as out of range and replaces by 0.0001 |
| StrategyCatalog.MacdThresholdCorrected | src/config/trading_config.py:534 | the corrected back-fill agrees with the MACD preset, lies in range and is stored unchanged by an update |
| StrategyCatalog.MacdBackfillAsWritten | src/config/trading_config.py:450-455 | as written, every overridden MACD-family strategy whose override lacks `min_histogram_threshold` is handed 0.00001, which its update rule (lines 242-245) rejects and replaces by 0.0001 |
| StrategyCatalog.MacdBackfillExample | src/config/trading_config.py:428-455 | the store `{"macd_divergence": {}}` yields a `macd_divergence` strategy with threshold 0.00001 |
| StrategyCatalog.MacdBackfillCorrected | src/config/trading_config.py:450-455 | with the corrected back-fill the same strategy holds 0.0001, which lies in range and which an update stores unchanged |
| StrategyCatalog.CorrectedConfigured | src/config/trading_config.py:434-502 | with the correction, every overridden name is configured from its override |
| StrategyCatalog.CorrectedAgreesElsewhere | src/config/trading_config.py:428-592 | the corrected result has the same strategies and keys as the written one, and the same values everywhere except the back-filled MACD threshold |
| StrategyCatalog.LiquidityKeysUnmanaged | src/config/trading_config.py:488-497 | no liquidity back-fill key has an update rule, so the dashboard cannot set them |
| TradingConfig.ResolveConfig | src/config/trading_config.py:86-98 | a cache miss holds `name`, `enabled`, the six default keys and the override's keys. Override values win, and the defaults fill the rest. `name` is the strategy's name and `enabled` is true unless the override sets them |
| TradingConfig.Cleared | src/config/trading_config.py:600-610 | a non-empty name loses only its own entry; `None` or `""` empties the cache; surviving entries are unchanged |
| TradingConfig.Pushed | src/config/trading_config.py:410-419 | a running bot keeps its strategy names. Only the updated strategy changes, and only when the bot runs it, by merging the updates in |
| TradingConfig.Screened | src/config/trading_config.py:124-138 | with the lock off the updates pass unchanged with no messages. With it on, the keys are kept and every critical key is a non-zero number |
| TradingConfig.Merge | src/config/trading_config.py:121-122 | the strategy's entry exists afterwards, and every other strategy's override is unchanged |
| TradingConfig.Update | src/config/trading_config.py:114-389 | after an update the strategy's entry exists, and every other strategy's override is unchanged |
| TradingConfig.MergeOutcome | src/config/trading_config.py:389 | a raise leaves the (possibly new, empty) entry as it was; otherwise the cleaned values are merged over it and the messages returned |
| TradingConfig.MergeIdempotent | src/config/trading_config.py:389 | merging the same cleaning result twice is merging it once |
| TradingConfig.MergeKeepsCoherent | src/config/trading_config.py:389-398 | clearing the strategy's cache entry keeps a coherent cache coherent; after a raise no clearing is needed |
| TradingConfig.MergeKeepsRange | src/config/trading_config.py:389 | merging in-range values keeps every stored value in range |
| TradingConfig.UpdateRaisesIff | src/config/trading_config.py:141-386 | an update raises exactly when a recognised key of the screened update cannot be converted |
| TradingConfig.UpdateRaisedOn | src/config/trading_config.py:121-122 | a raising update names a recognised key of the update whose conversion fails, and leaves only the entry created for the name |
| TradingConfig.UpdateApplied | src/config/trading_config.py:389-408 | an update that does not raise merges the cleaned values into the override and returns the safety messages together with the cleaning's margin and leverage messages |
| TradingConfig.UpdateIsPartial | src/config/trading_config.py:389 | a field-level upsert: cleaned keys take their cleaned values, every other key of the old override keeps its value |
| TradingConfig.UpdateStoresOnlyRecognised | src/config/trading_config.py:141-389 | every new key of the override is recognised, and every recognised key of the update is stored |
| TradingConfig.UpdateIdempotent | src/config/trading_config.py:141-389 | applying the same update twice leaves the store as applying it once, with the same outcome |
| TradingConfig.UpdateKeepsRange | src/config/trading_config.py:141-389 | when every stored value lies in its declared range, it still does after any update |
| TradingConfig.ScreenedCriticalAccepted | src/config/trading_config.py:126-138 | with the lock on, the screened critical parameters never raise in the cleaning |
| TradingConfig.LockedCriticalNeverRaises | src/config/trading_config.py:126-157 | with the lock on, an update never raises on a critical parameter |
| TradingConfig.ResolveSeesUpdate | src/config/trading_config.py:389-398 | after an applied update, a cache miss resolves every cleaned key to its cleaned value |
| TradingConfig.UpdateKeepsCoherent | src/config/trading_config.py:389-398 | an update followed by clearing the strategy's cache entry keeps the cache coherent |
| TradingConfig.DefaultsChangeStalesCache | src/config/trading_config.py:594-598 | when the default margin changes, a fresh resolution sees the new margin while a configuration cached earlier still holds the old one |
| TradingConfig.UpdateAsWritten | src/config/trading_config.py:114-126 | as written, the update keeps every other strategy's override and leaves an entry for the strategy, whether or not the import succeeds |
| TradingConfig.AttributeErrorDropsUpdate | src/config/trading_config.py:121-126 | once the import succeeds, the missing attribute makes every update raise: the override stays as it was (empty for a new name), and every strategy resolves exactly as before |
| TradingConfig.AttributeErrorZeroMargin | src/config/trading_config.py:121-126 | as written, `{margin: 0}` sent for a new strategy leaves an empty entry, and the strategy keeps the default margin |
| TradingConfig.ZeroMarginUnlocked | src/config/trading_config.py:147-154 | with the lock off, a zero margin is stored as 50.0 and reported by the margin message |
| TradingConfig.NonPositiveMarginUpdate | src/config/trading_config.py:126-154 | for either lock setting, an applied update whose margin converts to a number at or below zero stores margin 50.0 and reports `margin`: with the cleaning's message when the lock is off or the margin is negative, with the validator's zero message when the lock is on and the margin is zero |
| TradingConfig.ScreenedMarginCleaned | src/config/validation_safety.py:21-48 | after the safety pass, such a margin is one the cleaning stores as 50.0, and the validator reports it exactly when the lock is on and it is zero |
| TradingConfig.MarginZeroCleaned | src/config/trading_config.py:147-154 | cleaning `{margin: 0}` stores 50.0 with the margin message |
| TradingConfig.ZeroMarginLocked | src/config/trading_config.py:126-154 | with the lock on, a zero margin is stored as 50.0 and reported by the validator's zero message only |
| TradingConfig.ZeroMarginScreened | src/config/validation_safety.py:41-45 | the safety pass turns a zero margin into 50.0 with the zero message |
| TradingConfig.MarginFiftyCleaned | src/config/trading_config.py:147-151 | a margin of 50.0 passes the cleaning unchanged and without a message |
| TradingConfig.HighLeverageUnlocked | src/config/trading_config.py:156-164 | a leverage of 200 is stored as 5, with no message |
| TradingConfig.HighLeverageCleaned | src/config/trading_config.py:156-164 | cleaning `{leverage: 200}` stores 5 with no message |
| TradingConfig.UnknownTimeframeUnlocked | src/config/trading_config.py:166-169 | an update to timeframe `'7m'` stores `'15m'` |
| TradingConfig.UnknownTimeframeCleaned | src/config/trading_config.py:166-169 | cleaning `{timeframe: '7m'}` stores `'15m'` with no message |
| TradingConfig.ScreenAndClean | src/config/trading_config.py:124-386 | the safety pass when the lock is on, then the cleaning loop, yields the cleaning of the screened update, and on success the values merged are `Delta` |
| TradingConfig.TradingConfigManager.constructor | src/config/trading_config.py:27-58 | a new manager holds the factory defaults, an empty cache and the overrides read from the file (none when unreadable), and its cache is coherent |
| TradingConfig.TradingConfigManager.GetStrategyConfig | src/config/trading_config.py:77-112 | a hit returns the cached entry and changes nothing. A miss returns the resolved configuration and caches it. A coherent cache stays coherent, and the configuration returned is then always the current resolution |
| TradingConfig.TradingConfigManager.ClearConfigCache | src/config/trading_config.py:600-610 | the cache becomes `Cleared(cache, name)` and nothing else changes |
| TradingConfig.TradingConfigManager.ForceUpdateRunningBot | src/config/trading_config.py:410-426 | the live map becomes `Pushed(live, name, updates)` and nothing else changes |
| TradingConfig.TradingConfigManager.UpdateStrategyParams | src/config/trading_config.py:114-408 | the new store and the outcome are `Update` of the old store. On success the new store is saved, the cleaned values are pushed to the bot and the strategy's cache entry is cleared. A raise changes nothing else. The defaults are unchanged and cache coherence is preserved |
| TradingConfig.TradingConfigManager.StoreCleaned | src/config/trading_config.py:389-398 | the new store and the outcome are `Merge` of the cleaning result; it saves, pushes and clears on success only, and preserves cache coherence |
| TradingConfig.TradingConfigManager.UpdateDefaultParams | src/config/trading_config.py:594-598 | the `setattr` loop sets the defaults to `WithUpdates(old, updates)` and leaves the store and the cache as they were |
| TradingConfig.TradingConfigManager.GetAllStrategies | src/config/trading_config.py:428-592 | the result is `AllStrategies(defaults, overrides)` and nothing changes |
| TradingConfig.ConfigureOverrides | src/config/trading_config.py:434-502 | the first loop yields one configured strategy per override, as `ConfiguredAll` |
| TradingConfig.ConfigureStrategy | src/config/trading_config.py:436-502 | the loop body builds `Configured(name, defaults, web)` |
| TradingConfig.AddFallbacks | src/config/trading_config.py:585-588 | the fallback loop adds each fallback only under a name not present, which is `fallbacks + strategies` |

## Left out

- JSON load and save (`_load_web_dashboard_configs`, `_save_web_dashboard_configs`). The file is the snapshot `saved`; the constructor takes its content. Directory creation and save failures are not modelled.
- Logging, throughout both files: it has no effect on the state.
- Finding the running bot through `sys.modules['__main__']`, and the exception swallowing around it. The bot is the optional field `liveStrategies`.
- The import of `validation_safety` itself. Its two results, success and the `ImportError` fallback to `None`, are the parameter `imported` of `UpdateAsWritten`. The class method `UpdateStrategyParams` models the gate as the flag `lockEnabled`, not the `AttributeError`.
- Python's full `int()`/`float()` string syntax: whitespace, underscores, exponents, `inf` and `nan` are not accepted by the model's parser. Floats are exact reals, so rounding is not modelled.
- `float()` beyond the float range. For an int that large Python raises `OverflowError`, which `validate_parameter` does not catch; a digit string that large becomes `inf`. `PyFloat` returns the exact real in both cases.
- `str.upper()`/`str.lower()` on letters outside ASCII.
- `str()` of a float covers positional notation only, with up to 17 fraction digits. It does not model Python's shortest round-trip repr or the exponent form.
- Dictionary iteration order.
  - Maps have no order; this is sound because each key of a batch is processed independently.
  - In the cleaning table, the order of rules is kept. The first raising key in table order is the one reported.
- Aliasing. The model works on values. In Python:
  - `get_strategy_config` returns the cached dictionary object itself;
  - `strategies[name].update(web_config)` in `get_all_strategies` copies references to nested values, such as the `allowed_sessions` list, out of the override store;
  - the bot's `update` mutates a shared dict.
- Concurrency between the web thread and the trading worker: the source has no locks.
- `update_default_params` with a key naming a method or dunder attribute. `hasattr` is true for those, so `setattr` would replace a method. The model ignores every key that is not one of the six dataclass fields.
- The rest of the repository: process supervision, the exchange client, the ML command menu and the Telegram capture script are not part of this model.

## Findings

| source | as written | input that shows it | evidently intended | confidence | as-written member | corrected member |
|---|---|---|---|---|---|---|
| src/config/trading_config.py:455 | the MACD family back-fill sets `min_histogram_threshold` to 0.00001 | any overridden MACD-family strategy without the key, e.g. the store `{"macd_divergence": {}}`: `get_all_strategies` reports 0.00001, which the update rule of lines 242-245 would replace by 0.0001 | 0.0001, the rule's minimum and fallback and the value of the `macd_divergence` preset (line 534) | not executed | StrategyCatalog.MacdBackfillAsWritten | StrategyCatalog.MacdBackfillCorrected |
| src/config/trading_config.py:126 | the gate reads `validation_safety.lock_mechanism_enabled`, an attribute the `ValidationSafety` constructor never defines (src/config/validation_safety.py:12-19) and that trading_config.py, validation_safety.py and main.py never assign; whether another module assigns it is unverified | any update once the import succeeds, e.g. `update_strategy_params("new", {"margin": 0})`: `AttributeError` after line 122 created `{}` for `"new"`, so nothing is cleaned, saved or pushed | a Boolean flag of the validator that switches the safety pass on or off | not executed | TradingConfig.AttributeErrorDropsUpdate | TradingConfig.LockedCriticalNeverRaises |

The model of `get_all_strategies` uses the back-fill as written: `AllStrategies` and every member built on it hand out 0.00001.
`AllStrategiesCorrected` is the same computation with 0.0001, and `CorrectedAgreesElsewhere` shows that the two results differ in that one value only.
The update pipeline reads the gate as the flag `lockEnabled`; `ZeroMarginLocked` and `LockedCriticalNeverRaises` show what the safety pass does when that flag is on.
