/** The configuration and options forms: the key lists, and the loop that
    validates and normalises a submitted form key by key before anything is
    saved. The initial step and the options step run the same loop; they differ
    only in what a missing required key does. */
module ConfigFlow {
  import opened Text
  import opened PyValue
  import opened Const

  /** Every key the integration stores, in the order the forms are validated. */
  const AllConfKeys: seq<string> := [
    ConfChargerDevice, ConfStatusSensor, ConfChargerEnabledSwitchId, ConfPriceSensor,
    ConfTimeScheduleEntity, ConfHousePowerSensor, ConfSolarProductionSensor,
    ConfSolarScheduleEntity, ConfChargerMaxCurrentLimitSensor, ConfChargerDynamicCurrentSensor,
    ConfScanInterval, ConfEvSocSensor, ConfTargetSocLimit, ConfDebugLogging
  ]

  /** Entity keys that may be left empty. */
  const OptionalEntityConfKeys: seq<string> := [
    ConfTimeScheduleEntity, ConfHousePowerSensor, ConfSolarProductionSensor,
    ConfSolarScheduleEntity, ConfChargerMaxCurrentLimitSensor, ConfChargerDynamicCurrentSensor,
    ConfEvSocSensor
  ]

  /** Keys that the initial step insists on. */
  const RequiredConfSetupKeys: seq<string> := [
    ConfChargerDevice, ConfStatusSensor, ConfChargerEnabledSwitchId, ConfPriceSensor
  ]

  const MinScanIntervalSeconds := 10
  const MaxScanIntervalSeconds := 3600

  datatype FlowError = RequiredField | InvalidTargetSoc | InvalidScanInterval

  /** What the loop does with one key: store a value, or record an error. */
  datatype KeyOutcome = Save(value: Value) | Reject(error: FlowError)

  /** The form shown again with its errors, or the entry (or options) created. */
  datatype FlowResult = ShowForm(errors: map<string, FlowError>) | CreateEntry(data: map<string, Value>)

  /** The initial step, or the options step with the entry's merged data and options. */
  datatype Step = UserStep | OptionsStep(currentSettings: map<string, Value>)

  /** `coerce_empty_string_to_none`. */
  function CoerceEmptyStringToNone(v: Value): (r: Value)
    ensures r != StrV("")
    ensures r != v <==> v == StrV("")
  {
    if v == StrV("") then NoneV else v
  }

  /** Coercing twice is coercing once. */
  lemma CoerceIdempotent(v: Value)
    ensures CoerceEmptyStringToNone(CoerceEmptyStringToNone(v)) == CoerceEmptyStringToNone(v)
  {
  }

  /** The rule one iteration of the loop applies to `key` with the submitted `value`. */
  function ValidateKey(step: Step, key: string, value: Value): KeyOutcome {
    if key == ConfDebugLogging then
      Save(BoolV(value.BoolV? && value.b))
    else if key in OptionalEntityConfKeys then
      Save(if value == StrV("") || value.NoneV? then NoneV else value)
    else if key == ConfTargetSocLimit then
      TargetSocOutcome(value)
    else if key == ConfScanInterval then
      ScanIntervalOutcome(value)
    else if !value.NoneV? then
      Save(value)
    else if key in RequiredConfSetupKeys then
      match step
      case UserStep => Reject(RequiredField)
      case OptionsStep(current) => Save(DictGet(current, key))
    else
      Save(NoneV)
  }

  /** The rule for the target state of charge: blank is no limit, else a number in [0, 100]. */
  function TargetSocOutcome(value: Value): KeyOutcome {
    if IsBlank(value) then Save(NoneV)
    else match PyFloat(value)
      case None => Reject(InvalidTargetSoc)
      case Some(soc) => if 0.0 <= soc <= 100.0 then Save(FloatV(soc)) else Reject(InvalidTargetSoc)
  }

  /** The rule for the scan interval: blank is the default, else an integer in [10, 3600]. */
  function ScanIntervalOutcome(value: Value): KeyOutcome {
    if IsBlank(value) then Save(IntV(DefaultScanIntervalSeconds))
    else match PyInt(value)
      case None => Reject(InvalidScanInterval)
      case Some(n) =>
        if MinScanIntervalSeconds <= n <= MaxScanIntervalSeconds then Save(IntV(n)) else Reject(InvalidScanInterval)
  }

  function Outcome(step: Step, input: map<string, Value>, key: string): KeyOutcome {
    ValidateKey(step, key, DictGet(input, key))
  }

  /** The values the loop stores. */
  function SavedValues(step: Step, input: map<string, Value>): map<string, Value> {
    map k | k in AllConfKeys && Outcome(step, input, k).Save? :: Outcome(step, input, k).value
  }

  /** The errors the loop records. */
  function Errors(step: Step, input: map<string, Value>): map<string, FlowError> {
    map k | k in AllConfKeys && Outcome(step, input, k).Reject? :: Outcome(step, input, k).error
  }

  /** What a submitted form leads to: the entry when no key was rejected, else the form with its errors. */
  function Validation(step: Step, input: map<string, Value>): FlowResult {
    if Errors(step, input) == map[] then CreateEntry(SavedValues(step, input)) else ShowForm(Errors(step, input))
  }

  /** Each key's outcome on a submitted form, as a function of the key. */
  function OutcomeOf(step: Step, input: map<string, Value>): string -> KeyOutcome {
    k => Outcome(step, input, k)
  }

  /** What the loop has stored after its first `n` keys, `f` giving each key's outcome. */
  function SavedPrefix(f: string -> KeyOutcome, n: nat): map<string, Value>
    requires n <= |AllConfKeys|
  {
    if n == 0 then map[]
    else if f(AllConfKeys[n - 1]).Save? then SavedPrefix(f, n - 1)[AllConfKeys[n - 1] := f(AllConfKeys[n - 1]).value]
    else SavedPrefix(f, n - 1)
  }

  /** The errors the loop has recorded after its first `n` keys, `f` giving each key's outcome. */
  function ErrorsPrefix(f: string -> KeyOutcome, n: nat): map<string, FlowError>
    requires n <= |AllConfKeys|
  {
    if n == 0 then map[]
    else if f(AllConfKeys[n - 1]).Reject? then ErrorsPrefix(f, n - 1)[AllConfKeys[n - 1] := f(AllConfKeys[n - 1]).error]
    else ErrorsPrefix(f, n - 1)
  }

  /** After `n` keys the loop holds a value for `k` exactly when `k` is among those keys and
      was saved, and that value is the saved one. */
  lemma {:induction false} SavedPrefixAt(f: string -> KeyOutcome, n: nat, k: string)
    requires n <= |AllConfKeys|
    ensures k in SavedPrefix(f, n) <==> k in AllConfKeys[..n] && f(k).Save?
    ensures k in SavedPrefix(f, n) ==> SavedPrefix(f, n)[k] == f(k).value
  {
    if n > 0 {
      SavedPrefixAt(f, n - 1, k);
      assert AllConfKeys[..n] == AllConfKeys[..n - 1] + [AllConfKeys[n - 1]];
    }
  }

  /** After `n` keys the loop holds an error for `k` exactly when `k` is among those keys and
      was rejected, and that error is the rejection's. */
  lemma {:induction false} ErrorsPrefixAt(f: string -> KeyOutcome, n: nat, k: string)
    requires n <= |AllConfKeys|
    ensures k in ErrorsPrefix(f, n) <==> k in AllConfKeys[..n] && f(k).Reject?
    ensures k in ErrorsPrefix(f, n) ==> ErrorsPrefix(f, n)[k] == f(k).error
  {
    if n > 0 {
      ErrorsPrefixAt(f, n - 1, k);
      assert AllConfKeys[..n] == AllConfKeys[..n - 1] + [AllConfKeys[n - 1]];
    }
  }

  /** One more key adds its outcome to what was stored, or to the errors. */
  lemma PrefixStep(f: string -> KeyOutcome, n: nat)
    requires n < |AllConfKeys|
    ensures var key := AllConfKeys[n];
      && SavedPrefix(f, n + 1) == (if f(key).Save? then SavedPrefix(f, n)[key := f(key).value] else SavedPrefix(f, n))
      && ErrorsPrefix(f, n + 1) == (if f(key).Reject? then ErrorsPrefix(f, n)[key := f(key).error] else ErrorsPrefix(f, n))
  {
  }

  /** The whole loop stores `SavedValues` and records `Errors`. */
  lemma FullPrefix(step: Step, input: map<string, Value>)
    ensures SavedPrefix(OutcomeOf(step, input), |AllConfKeys|) == SavedValues(step, input)
    ensures ErrorsPrefix(OutcomeOf(step, input), |AllConfKeys|) == Errors(step, input)
  {
    assert AllConfKeys[..|AllConfKeys|] == AllConfKeys;
    var f := OutcomeOf(step, input);
    var saved, errors := SavedPrefix(f, |AllConfKeys|), ErrorsPrefix(f, |AllConfKeys|);
    forall k
      ensures k in saved <==> k in SavedValues(step, input)
      ensures k in saved ==> saved[k] == SavedValues(step, input)[k]
    {
      SavedPrefixAt(f, |AllConfKeys|, k);
    }
    forall k
      ensures k in errors <==> k in Errors(step, input)
      ensures k in errors ==> errors[k] == Errors(step, input)[k]
    {
      ErrorsPrefixAt(f, |AllConfKeys|, k);
    }
  }

  /** The body of the loop for one key, written out as the loop runs it: the rule for its kind of
      key, applied to the submitted value. It exists as the loop body only; `ValidateKey` is the
      same rule as a function, for the lemmas. */
  method CheckKey(step: Step, key: string, value: Value) returns (outcome: KeyOutcome)
    ensures outcome == ValidateKey(step, key, value)
  {
    if key == ConfDebugLogging {
      outcome := Save(BoolV(value.BoolV? && value.b));
    } else if key in OptionalEntityConfKeys {
      outcome := Save(if value == StrV("") || value.NoneV? then NoneV else value);
    } else if key == ConfTargetSocLimit {
      if IsBlank(value) {
        outcome := Save(NoneV);
      } else {
        var soc := PyFloat(value);
        if soc.None? || !(0.0 <= soc.value <= 100.0) {
          outcome := Reject(InvalidTargetSoc);
        } else {
          outcome := Save(FloatV(soc.value));
        }
      }
    } else if key == ConfScanInterval {
      if IsBlank(value) {
        outcome := Save(IntV(DefaultScanIntervalSeconds));
      } else {
        var scan := PyInt(value);
        if scan.None? || !(MinScanIntervalSeconds <= scan.value <= MaxScanIntervalSeconds) {
          outcome := Reject(InvalidScanInterval);
        } else {
          outcome := Save(IntV(scan.value));
        }
      }
    } else if !value.NoneV? {
      outcome := Save(value);
    } else if key in RequiredConfSetupKeys {
      match step
      case UserStep =>
        outcome := Reject(RequiredField);
      case OptionsStep(current) =>
        outcome := Save(DictGet(current, key));
    } else {
      outcome := Save(NoneV);
    }
  }

  /** The loop over `ALL_CONF_KEYS` that both steps run on a submitted form: each key's value
      is stored, or its error recorded and the form marked invalid. */
  method ValidateInput(step: Step, input: map<string, Value>)
    returns (dataToSave: map<string, Value>, errors: map<string, FlowError>, validationOk: bool)
    ensures dataToSave == SavedValues(step, input)
    ensures errors == Errors(step, input)
    ensures validationOk <==> errors == map[]
  {
    dataToSave, errors, validationOk := map[], map[], true;
    var i := 0;
    while i < |AllConfKeys|
      invariant 0 <= i <= |AllConfKeys|
      invariant dataToSave == SavedPrefix(OutcomeOf(step, input), i)
      invariant errors == ErrorsPrefix(OutcomeOf(step, input), i)
      invariant validationOk <==> errors == map[]
    {
      var key := AllConfKeys[i];
      var outcome := CheckKey(step, key, DictGet(input, key));
      assert outcome == OutcomeOf(step, input)(key);
      PrefixStep(OutcomeOf(step, input), i);
      match outcome {
        case Save(v) =>
          dataToSave := dataToSave[key := v];
        case Reject(e) =>
          errors := errors[key := e];
          assert key in errors;
          validationOk := false;
      }
      i := i + 1;
    }
    FullPrefix(step, input);
  }

  /** `async_step_user`: with no input the empty form; otherwise the validated entry or the form with its errors. */
  method AsyncStepUser(userInput: Option<map<string, Value>>) returns (r: FlowResult)
    ensures userInput.None? ==> r == ShowForm(map[])
    ensures userInput.Some? ==> r == Validation(UserStep, userInput.value)
  {
    if userInput.None? {
      return ShowForm(map[]);
    }
    var dataToSave, errors, validationOk := ValidateInput(UserStep, userInput.value);
    if !validationOk {
      return ShowForm(errors);
    }
    r := CreateEntry(dataToSave);
  }

  /** `async_step_init` of the options flow; a missing required key falls back to the
      entry's current value, its data merged with its options. */
  method AsyncStepInit(entryData: map<string, Value>, entryOptions: map<string, Value>,
                       userInput: Option<map<string, Value>>) returns (r: FlowResult)
    ensures userInput.None? ==> r == ShowForm(map[])
    ensures userInput.Some? ==> r == Validation(OptionsStep(MergeDicts(entryData, entryOptions)), userInput.value)
  {
    var currentSettings := MergeDicts(entryData, entryOptions);
    if userInput.None? {
      return ShowForm(map[]);
    }
    var optionsToSave, errors, validationOk := ValidateInput(OptionsStep(currentSettings), userInput.value);
    if !validationOk {
      return ShowForm(errors);
    }
    r := CreateEntry(optionsToSave);
  }

  // ----- Properties -----

  /** The four key lists partition the stored keys: each key falls under exactly one rule, so
      the final fallback of the loop (save `None`) is never taken. */
  lemma KeyClasses()
    ensures |AllConfKeys| == 14 && |OptionalEntityConfKeys| == 7 && |RequiredConfSetupKeys| == 4
    ensures forall k :: k in AllConfKeys <==>
      (k == ConfDebugLogging || k in OptionalEntityConfKeys || k == ConfTargetSocLimit
       || k == ConfScanInterval || k in RequiredConfSetupKeys)
    ensures ConfDebugLogging !in OptionalEntityConfKeys && ConfDebugLogging !in RequiredConfSetupKeys
    ensures ConfTargetSocLimit !in OptionalEntityConfKeys && ConfTargetSocLimit !in RequiredConfSetupKeys
    ensures ConfScanInterval !in OptionalEntityConfKeys && ConfScanInterval !in RequiredConfSetupKeys
    ensures forall k :: k in OptionalEntityConfKeys ==> k !in RequiredConfSetupKeys
  {
  }

  /** All or nothing: an entry is created exactly when no key is rejected, and it then holds every key;
      otherwise the errors name exactly the rejected keys. */
  lemma AllOrNothing(step: Step, input: map<string, Value>)
    ensures Validation(step, input).CreateEntry? <==> forall k :: k in AllConfKeys ==> Outcome(step, input, k).Save?
    ensures Validation(step, input).CreateEntry? ==> Validation(step, input).data.Keys == set k | k in AllConfKeys
    ensures Validation(step, input).ShowForm? ==>
      && Validation(step, input).errors != map[]
      && Validation(step, input).errors.Keys == set k | k in AllConfKeys && Outcome(step, input, k).Reject?
  {
    if forall k :: k in AllConfKeys ==> Outcome(step, input, k).Save? {
      assert Errors(step, input) == map[];
    } else {
      var k :| k in AllConfKeys && !Outcome(step, input, k).Save?;
      assert k in Errors(step, input);
    }
  }

  /** Target state of charge: blank is saved as `None`, a number in [0, 100] as that float;
      anything else is rejected and no entry is created. */
  lemma TargetSocRule(step: Step, input: map<string, Value>)
    ensures var v := DictGet(input, ConfTargetSocLimit);
      && (IsBlank(v) ==> Outcome(step, input, ConfTargetSocLimit) == Save(NoneV))
      && (!IsBlank(v) && PyFloat(v).Some? && 0.0 <= PyFloat(v).value <= 100.0 ==>
            Outcome(step, input, ConfTargetSocLimit) == Save(FloatV(PyFloat(v).value)))
      && (!IsBlank(v) && (PyFloat(v).None? || !(0.0 <= PyFloat(v).value <= 100.0)) ==>
            && Validation(step, input).ShowForm?
            && ConfTargetSocLimit in Validation(step, input).errors
            && Validation(step, input).errors[ConfTargetSocLimit] == InvalidTargetSoc)
    ensures Validation(step, input).CreateEntry? ==>
      && ConfTargetSocLimit in Validation(step, input).data
      && var saved := Validation(step, input).data[ConfTargetSocLimit];
         saved.NoneV? || (saved.FloatV? && 0.0 <= saved.r <= 100.0)
  {
    KeyClasses();
    AllOrNothing(step, input);
  }

  /** Scan interval: blank is saved as the default 30, an integer in [10, 3600] as that integer;
      anything else is rejected and no entry is created. */
  lemma ScanIntervalRule(step: Step, input: map<string, Value>)
    ensures var v := DictGet(input, ConfScanInterval);
      && (IsBlank(v) ==> Outcome(step, input, ConfScanInterval) == Save(IntV(DefaultScanIntervalSeconds)))
      && (!IsBlank(v) && PyInt(v).Some? && 10 <= PyInt(v).value <= 3600 ==>
            Outcome(step, input, ConfScanInterval) == Save(IntV(PyInt(v).value)))
      && (!IsBlank(v) && (PyInt(v).None? || !(10 <= PyInt(v).value <= 3600)) ==>
            && Validation(step, input).ShowForm?
            && ConfScanInterval in Validation(step, input).errors
            && Validation(step, input).errors[ConfScanInterval] == InvalidScanInterval)
    ensures Validation(step, input).CreateEntry? ==>
      && ConfScanInterval in Validation(step, input).data
      && var saved := Validation(step, input).data[ConfScanInterval];
         saved.IntV? && 10 <= saved.i <= 3600
  {
    KeyClasses();
    AllOrNothing(step, input);
  }

  /** Optional entity keys: "" and `None` are saved as `None`, anything else unchanged; the debug
      flag is saved as true only for the boolean true. Neither ever rejects a form. */
  lemma OptionalAndDebugRules(step: Step, input: map<string, Value>, k: string)
    requires k in OptionalEntityConfKeys
    ensures var v := DictGet(input, k);
      Outcome(step, input, k) == Save(if v == StrV("") || v == NoneV then NoneV else v)
    ensures Outcome(step, input, ConfDebugLogging) == Save(BoolV(DictGet(input, ConfDebugLogging) == BoolV(true)))
    ensures Validation(step, input).ShowForm? ==>
      k !in Validation(step, input).errors && ConfDebugLogging !in Validation(step, input).errors
  {
    KeyClasses();
    AllOrNothing(step, input);
  }

  /** Initial step: a required key that is missing or None is reported as "required_field" and blocks the entry;
      in a created entry every required key holds the submitted value. */
  lemma RequiredKeysInUserStep(input: map<string, Value>, k: string)
    requires k in RequiredConfSetupKeys
    ensures DictGet(input, k) == NoneV ==>
      Validation(UserStep, input).ShowForm? && k in Validation(UserStep, input).errors
      && Validation(UserStep, input).errors[k] == RequiredField
    ensures Validation(UserStep, input).CreateEntry? ==>
      DictGet(input, k) != NoneV && k in Validation(UserStep, input).data
      && Validation(UserStep, input).data[k] == DictGet(input, k)
  {
    KeyClasses();
    var v := DictGet(input, k);
    assert k in AllConfKeys;
    assert Outcome(UserStep, input, k) == if v == NoneV then Reject(RequiredField) else Save(v);
    if v == NoneV {
      assert k in Errors(UserStep, input);
    } else {
      AllOrNothing(UserStep, input);
    }
  }

  /** Options step: a required key that is missing or None takes its current value, so "required_field" is never reported. */
  lemma RequiredKeysInOptionsStep(current: map<string, Value>, input: map<string, Value>, k: string)
    requires k in RequiredConfSetupKeys
    ensures Outcome(OptionsStep(current), input, k) ==
      Save(if DictGet(input, k) == NoneV then DictGet(current, k) else DictGet(input, k))
    ensures forall key :: key in Errors(OptionsStep(current), input) ==>
      Errors(OptionsStep(current), input)[key] != RequiredField
  {
    KeyClasses();
  }

  /** Validating a value that one step already saved saves it unchanged. */
  lemma ValidateKeyIdempotent(step: Step, key: string, value: Value)
    requires ValidateKey(step, key, value).Save?
    ensures ValidateKey(step, key, ValidateKey(step, key, value).value) == ValidateKey(step, key, value)
  {
    if key == ConfTargetSocLimit {
      assert ConfTargetSocLimit != ConfDebugLogging && ConfTargetSocLimit !in OptionalEntityConfKeys;
      SavedTargetSocIsStable(value);
    } else if key == ConfScanInterval {
      assert ConfScanInterval != ConfDebugLogging && ConfScanInterval !in OptionalEntityConfKeys;
      SavedScanIntervalIsStable(value);
    }
  }

  lemma SavedTargetSocIsStable(value: Value)
    requires TargetSocOutcome(value).Save?
    ensures TargetSocOutcome(TargetSocOutcome(value).value) == TargetSocOutcome(value)
  {
    if !IsBlank(value) {
      SavedSocIsAccepted(PyFloat(value).value);
    }
  }

  /** A state of charge in [0, 100], given as a float, is accepted as it is. */
  lemma SavedSocIsAccepted(soc: real)
    requires 0.0 <= soc <= 100.0
    ensures TargetSocOutcome(FloatV(soc)) == Save(FloatV(soc))
  {
  }

  lemma SavedScanIntervalIsStable(value: Value)
    requires ScanIntervalOutcome(value).Save?
    ensures ScanIntervalOutcome(ScanIntervalOutcome(value).value) == ScanIntervalOutcome(value)
  {
    if !IsBlank(value) {
      var n := PyInt(value).value;
      assert ScanIntervalOutcome(value) == Save(IntV(n));
      assert PyInt(IntV(n)) == Some(n);
    }
  }

  /** Submitting a created entry again, on the same step, creates the same entry. */
  lemma ResubmitIsIdempotent(step: Step, input: map<string, Value>)
    requires Validation(step, input).CreateEntry?
    ensures Validation(step, Validation(step, input).data) == Validation(step, input)
  {
    var d := Validation(step, input).data;
    AllOrNothing(step, input);
    forall k | k in AllConfKeys
      ensures Outcome(step, d, k) == Save(d[k])
    {
      ValidateKeyIdempotent(step, k, DictGet(input, k));
    }
    assert Errors(step, d) == map[];
    assert SavedValues(step, d) == d;
  }
}
