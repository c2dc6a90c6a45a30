/**
 * `TradingParameters`: the six universal defaults every resolved strategy
 * configuration starts from. Python does not type-check `setattr`, so each
 * field holds an arbitrary value.
 */
module TradingParams {
  import opened PyValues

  datatype TradingParameters = TradingParameters(
    symbol: Value,
    margin: Value,
    leverage: Value,
    timeframe: Value,
    maxLossPct: Value,
    assessmentInterval: Value)

  /** The dataclass defaults. */
  const Factory: TradingParameters :=
    TradingParameters(VStr("BTCUSDT"), VReal(50.0), VInt(5), VStr("15m"), VReal(10.0), VInt(60))

  /** The attribute names, which are also the keys of `to_dict()`. */
  const BaseKeys: set<string> := {"symbol", "margin", "leverage", "timeframe", "max_loss_pct", "assessment_interval"}

  /** `to_dict`. */
  function ToDict(p: TradingParameters): (d: Params)
    ensures d.Keys == BaseKeys
  {
    map[
      "symbol" := p.symbol,
      "margin" := p.margin,
      "leverage" := p.leverage,
      "timeframe" := p.timeframe,
      "max_loss_pct" := p.maxLossPct,
      "assessment_interval" := p.assessmentInterval]
  }

  /** `setattr(p, key, value)` when `p` has attribute `key`; any other key leaves `p` as it is. */
  function SetAttribute(p: TradingParameters, key: string, value: Value): TradingParameters
  {
    match key
    case "symbol" => p.(symbol := value)
    case "margin" => p.(margin := value)
    case "leverage" => p.(leverage := value)
    case "timeframe" => p.(timeframe := value)
    case "max_loss_pct" => p.(maxLossPct := value)
    case "assessment_interval" => p.(assessmentInterval := value)
    case _ => p
  }

  /** The parameters after `update_default_params(updates)`: each known attribute named in `updates` takes its value. */
  function WithUpdates(p: TradingParameters, updates: Params): TradingParameters
  {
    TradingParameters(
      if "symbol" in updates then updates["symbol"] else p.symbol,
      if "margin" in updates then updates["margin"] else p.margin,
      if "leverage" in updates then updates["leverage"] else p.leverage,
      if "timeframe" in updates then updates["timeframe"] else p.timeframe,
      if "max_loss_pct" in updates then updates["max_loss_pct"] else p.maxLossPct,
      if "assessment_interval" in updates then updates["assessment_interval"] else p.assessmentInterval)
  }

  /** Updating defaults overwrites exactly the known keys that were supplied; unknown keys are ignored. */
  lemma WithUpdatesToDict(p: TradingParameters, updates: Params)
    ensures ToDict(WithUpdates(p, updates)) == ToDict(p) + map k | k in updates && k in BaseKeys :: updates[k]
  {
  }

  /** Feeding `to_dict()` of some parameters back as default updates reproduces those parameters. */
  lemma WithUpdatesFromDict(p: TradingParameters, q: TradingParameters)
    ensures WithUpdates(p, ToDict(q)) == q
  {
  }

  /** One `setattr` step agrees with the batch update restricted to the keys done so far. */
  lemma SetAttributeStep(p: TradingParameters, done: Params, key: string, value: Value)
    requires key !in done
    ensures SetAttribute(WithUpdates(p, done), key, value) == WithUpdates(p, done[key := value])
  {
  }
}
