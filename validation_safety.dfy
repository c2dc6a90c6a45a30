/**
 * The critical-zero safety validator: only `margin`, `leverage` and
 * `assessment_interval` are inspected, and the only thing refused is a value
 * that is zero or cannot be converted to the parameter's numeric type.
 */
module ValidationSafety {
  import opened Wrappers
  import opened PyValues
  import opened MapLemmas

  /** The critical parameters, in the order of the rule table. */
  const CriticalNames: seq<string> := ["margin", "leverage", "assessment_interval"]

  /** A value that is the number zero (int or float). */
  predicate IsZeroNumber(v: Value)
  {
    v == VInt(0) || v == VReal(0.0)
  }

  /** The rule table: the safe default of each critical parameter. */
  function CriticalDefault(name: string): (d: Option<Value>)
    ensures d.Some? <==> name in CriticalNames
    ensures d.Some? ==> AsNumber(d.value).Some? && !IsZeroNumber(d.value)
  {
    match name
    case "margin" => Some(VReal(50.0))
    case "leverage" => Some(VInt(5))
    case "assessment_interval" => Some(VInt(60))
    case _ => None
  }

  predicate IsCritical(name: string)
  {
    CriticalDefault(name).Some?
  }

  /** `leverage` and `assessment_interval` are converted with `int()`, `margin` with `float()`. */
  function CoerceCritical(name: string, v: Value): (r: Option<Value>)
    ensures r.Some? ==> AsNumber(r.value).Some?
  {
    if name == "leverage" || name == "assessment_interval" then
      match PyInt(v)
      case None => None
      case Some(n) => Some(VInt(n))
    else
      match PyFloat(v)
      case None => None
      case Some(x) => Some(VReal(x))
  }

  function TypeErrorMessage(name: string): string
  {
    "Invalid value type for " + name
  }

  function ZeroErrorMessage(name: string): string
  {
    "\U{1F6AB} " + name + " cannot be zero - this would break the bot"
  }

  /** The result triple of `validate_parameter`: accepted, value to use, error message. */
  datatype Verdict = Verdict(valid: bool, value: Value, error: Option<string>)

  /** `validate_parameter`. */
  function ValidateParameter(name: string, value: Value): (r: Verdict)
    // a non-critical name passes through untouched
    ensures !IsCritical(name) ==> r == Verdict(true, value, None)
    // a critical value is accepted exactly when it converts and the result is not zero
    ensures IsCritical(name) ==>
      (r.valid <==> CoerceCritical(name, value).Some? && !IsZeroNumber(CoerceCritical(name, value).value))
    ensures IsCritical(name) && r.valid ==> r.value == CoerceCritical(name, value).value && r.error == None
    ensures IsCritical(name) && !r.valid ==> r.value == CriticalDefault(name).value
    ensures IsCritical(name) && CoerceCritical(name, value).None? ==> r.error == Some(TypeErrorMessage(name))
    ensures IsCritical(name) && CoerceCritical(name, value).Some? && IsZeroNumber(CoerceCritical(name, value).value)
      ==> r.error == Some(ZeroErrorMessage(name))
    // what leaves the validator for a critical name is a non-zero number
    ensures IsCritical(name) ==> AsNumber(r.value).Some? && !IsZeroNumber(r.value)
  {
    if !IsCritical(name) then Verdict(true, value, None)
    else
      match CoerceCritical(name, value)
      case None => Verdict(false, CriticalDefault(name).value, Some(TypeErrorMessage(name)))
      case Some(c) =>
        if IsZeroNumber(c) then Verdict(false, CriticalDefault(name).value, Some(ZeroErrorMessage(name)))
        else Verdict(true, c, None)
  }

  /** A value the validator produced is accepted unchanged when validated again. */
  lemma ValidateParameterStable(name: string, value: Value)
    ensures var r := ValidateParameter(name, value);
            ValidateParameter(name, r.value) == Verdict(true, r.value, None)
  {
    var r := ValidateParameter(name, value);
    if IsCritical(name) {
      assert CoerceCritical(name, r.value) == Some(r.value) by {
        if name == "leverage" || name == "assessment_interval" {
          assert r.value.VInt?;
        } else {
          assert r.value.VReal?;
        }
      }
    }
  }

  /** The corrected dictionary of `validate_multiple_parameters`. */
  function SafetyCorrected(updates: Params): (r: Params)
    ensures r.Keys == updates.Keys
  {
    map k | k in updates :: ValidateParameter(k, updates[k]).value
  }

  /** The error dictionary of `validate_multiple_parameters`. */
  function SafetyErrors(updates: Params): (e: map<string, string>)
    ensures e.Keys <= updates.Keys
  {
    map k | k in updates && ValidateParameter(k, updates[k]).error.Some? :: ValidateParameter(k, updates[k]).error.value
  }

  /** Running the batch validator on its own output corrects nothing further. */
  lemma SafetyCorrectedIdempotent(updates: Params)
    ensures SafetyCorrected(SafetyCorrected(updates)) == SafetyCorrected(updates)
    ensures SafetyErrors(SafetyCorrected(updates)) == map[]
  {
    var once := SafetyCorrected(updates);
    forall k | k in once
      ensures ValidateParameter(k, once[k]) == Verdict(true, once[k], None)
    {
      ValidateParameterStable(k, updates[k]);
    }
  }

  /** The batch result, entry by entry: every input keeps its key with its validated value, the error keys are
      exactly the inputs that failed, each with its own message, and no critical key is left at zero. */
  lemma SafetyBatch(updates: Params)
    ensures forall k :: k in updates ==> SafetyCorrected(updates)[k] == ValidateParameter(k, updates[k]).value
    ensures forall k :: k in SafetyErrors(updates) <==> k in updates && !ValidateParameter(k, updates[k]).valid
    ensures forall k :: k in SafetyErrors(updates) ==> Some(SafetyErrors(updates)[k]) == ValidateParameter(k, updates[k]).error
    ensures forall k :: k in SafetyCorrected(updates) && IsCritical(k) ==> !IsZeroNumber(SafetyCorrected(updates)[k])
  {
  }

  /** `validate_multiple_parameters`: validates every entry, collecting corrections and messages. */
  method ValidateMultipleParameters(updates: Params) returns (validated: Params, errors: map<string, string>)
    ensures validated == SafetyCorrected(updates) && errors == SafetyErrors(updates)
  {
    validated, errors := map[], map[];
    var pending := updates.Keys;
    while pending != {}
      invariant pending <= updates.Keys
      invariant validated.Keys == updates.Keys - pending
      invariant forall k :: k in validated ==> validated[k] == ValidateParameter(k, updates[k]).value
      invariant forall k :: k in errors <==> k in validated && ValidateParameter(k, updates[k]).error.Some?
      invariant forall k :: k in errors ==> errors[k] == ValidateParameter(k, updates[k]).error.value
      decreases pending
    {
      var name :| name in pending;
      var verdict := ValidateParameter(name, updates[name]);
      validated := validated[name := verdict.value];
      if verdict.error.Some? {
        errors := errors[name := verdict.error.value];
      }
      pending := pending - {name};
    }
    MapsEqual(validated, SafetyCorrected(updates));
    MapsEqual(errors, SafetyErrors(updates));
  }

  /** `validate_strategy_config`: an empty configuration is refused; otherwise every critical parameter present must validate. */
  method ValidateStrategyConfig(config: Params) returns (safe: bool)
    ensures safe <==> |config| > 0 && forall k :: k in config && IsCritical(k) ==> ValidateParameter(k, config[k]).valid
  {
    if |config| == 0 {
      return false;
    }
    var i := 0;
    while i < |CriticalNames|
      invariant 0 <= i <= |CriticalNames|
      invariant forall j :: 0 <= j < i && CriticalNames[j] in config ==> ValidateParameter(CriticalNames[j], config[CriticalNames[j]]).valid
    {
      var name := CriticalNames[i];
      if name in config {
        var verdict := ValidateParameter(name, config[name]);
        if !verdict.valid {
          return false;
        }
      }
      i := i + 1;
    }
    forall k | k in config && IsCritical(k) ensures ValidateParameter(k, config[k]).valid {
      assert k == CriticalNames[0] || k == CriticalNames[1] || k == CriticalNames[2];
    }
    return true;
  }
}
