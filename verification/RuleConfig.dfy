/** Configurations of payment rules (backend/src/modules/compensation/payment-rule-config.ts). */
module RuleConfig {
  import opened Common
  import opened Json

  datatype RuleType = ZoneRate | PerKm | PerOrder | Bonus | Penalty | MinimumGuarantee

  datatype Error =
    | NegativeValue | ZoneRequired | MetricAndThresholdRequired | PeriodRequired
    | ConfigNotAnObject | ConfigValueMissing

  datatype Payload = Payload(value: real, conditions: Js)

  /** White space, as `trim` removes it. */
  predicate IsSpace(c: char) {
    var n := c as int;
    || 9 <= n <= 13 || n == 32 || n == 0xA0 || n == 0x1680 || 0x2000 <= n <= 0x200A
    || n == 0x2028 || n == 0x2029 || n == 0x202F || n == 0x205F || n == 0x3000 || n == 0xFEFF
  }

  function ReadString(v: Js): Option<string> {
    if v.Str? && exists i :: 0 <= i < |v.text| && !IsSpace(v.text[i]) then Some(v.text) else None
  }

  function ReadNumber(v: Js): Option<real> {
    if v.Num? then Some(v.number) else None
  }

  function NormalizeConditions(conditions: Js): Js {
    if IsPlainObject(conditions) then conditions else Null
  }

  function Validate(ruleType: RuleType, value: real, conditions: Js): Option<Error> {
    if value < 0.0 then Some(NegativeValue)
    else
      match ruleType
      case ZoneRate =>
        if ReadString(Field(conditions, "zoneId")).Some? then None else Some(ZoneRequired)
      case PerKm => None
      case PerOrder => None
      case MinimumGuarantee =>
        var period := ReadString(Field(conditions, "period"));
        if period in [Some("daily"), Some("weekly"), Some("monthly")] then None else Some(PeriodRequired)
      case _ =>
        if ReadString(Field(conditions, "metric")).Some? && ReadNumber(Field(conditions, "threshold")).Some? then None
        else Some(MetricAndThresholdRequired)
  }

  /** `buildPaymentRuleConfig`. */
  function Build(ruleType: RuleType, value: real, conditions: Js): Result<Js, Error> {
    var normalized := NormalizeConditions(conditions);
    var error := Validate(ruleType, value, normalized);
    if error.Some? then Err(error.value)
    else Ok(Obj([Entry("value", Num(value)), Entry("conditions", Normalize(normalized))]))
  }

  /** `parsePaymentRuleConfig`. */
  function Parse(config: Js): Result<Payload, Error> {
    if !IsPlainObject(config) then Err(ConfigNotAnObject)
    else if ReadNumber(Field(config, "value")) == None then Err(ConfigValueMissing)
    else
      var conditions := Field(config, "conditions");
      Ok(Payload(ReadNumber(Field(config, "value")).value, if IsPlainObject(conditions) then conditions else Null))
  }

  lemma FieldsOfConfig(value: Js, conditions: Js)
    ensures
      var config := Obj([Entry("value", value), Entry("conditions", conditions)]);
      Field(config, "value") == value && Field(config, "conditions") == conditions
  {
    var first, second := [Entry("value", value)], Entry("conditions", conditions);
    LookupAppend(first, second, "value");
    LookupAppend(first, second, "conditions");
    assert first + [second] == [Entry("value", value), second];
    assert |"value"| != |"conditions"|;
  }

  /** Parsing a built configuration returns the value and the normalised conditions. */
  lemma RoundTrip(ruleType: RuleType, value: real, conditions: Js)
    requires Build(ruleType, value, conditions).Ok?
    ensures
      Parse(Build(ruleType, value, conditions).value)
      == Ok(Payload(value, if conditions.Obj? then Normalize(conditions) else Null))
  {
    hide Field, Validate;
    FieldsOfConfig(Num(value), Normalize(NormalizeConditions(conditions)));
  }

  /** What is parsed is what was stored, exactly if the conditions were not a date. */
  lemma StoredConditionsAreParsed(ruleType: RuleType, value: real, conditions: Js)
    requires Build(ruleType, value, conditions).Ok?
    ensures
      var config := Build(ruleType, value, conditions).value;
      && Parse(config).Ok?
      && (Parse(config).value.conditions == Field(config, "conditions") <==> !conditions.Date?)
  {
    hide Field, Validate;
    FieldsOfConfig(Num(value), Normalize(NormalizeConditions(conditions)));
  }

  /** A conditions value that survives being stored, parsed and built again. */
  predicate Stable(conditions: Js) {
    !conditions.Date? && (conditions.Obj? ==> CallableFree(conditions))
  }

  /** Normalising keeps what the checks read. */
  lemma ValidateNormalized(ruleType: RuleType, value: real, conditions: Js)
    requires conditions.Obj? && IsJs(conditions) && Validate(ruleType, value, conditions) == None
    ensures Validate(ruleType, value, Normalize(conditions)) == None
  {
    hide Field, IsSpace;
    FieldOfNormalized(conditions, "zoneId");
    FieldOfNormalized(conditions, "metric");
    FieldOfNormalized(conditions, "threshold");
    FieldOfNormalized(conditions, "period");
  }

  /**
   Building again from what was parsed, as an update that changes neither does, gives the same
   configuration, exactly if the conditions are stable.
   */
  lemma RebuildIff(ruleType: RuleType, value: real, conditions: Js)
    requires Build(ruleType, value, conditions).Ok? && IsJs(conditions)
    ensures
      var config := Build(ruleType, value, conditions).value;
      && Parse(config).Ok?
      && (Build(ruleType, value, Parse(config).value.conditions) == Ok(config) <==> Stable(conditions))
  {
    hide Validate, Normalize, CallableFree, Parse;
    RoundTrip(ruleType, value, conditions);
    if conditions.Obj? {
      ValidateNormalized(ruleType, value, conditions);
      NormalizeIdempotent(conditions);
      NormalizeOfObject(conditions);
    } else {
      NormalizeOfNull();
      if conditions.Date? {
        NormalizeOfDate(conditions);
      }
    }
  }

  /** It always gives some configuration. */
  lemma RebuildSucceeds(ruleType: RuleType, value: real, conditions: Js)
    requires Build(ruleType, value, conditions).Ok? && IsJs(conditions)
    ensures
      var config := Build(ruleType, value, conditions).value;
      Parse(config).Ok? && Build(ruleType, value, Parse(config).value.conditions).Ok?
  {
    hide Normalize, Parse;
    RoundTrip(ruleType, value, conditions);
    if conditions.Obj? {
      ValidateNormalized(ruleType, value, conditions);
      NormalizeOfObject(conditions);
    }
  }

  lemma NormalizeOfObject(v: Js)
    requires v.Obj?
    ensures Normalize(v).Obj?
  {
  }

  lemma NormalizeOfNull()
    ensures Normalize(Null) == Null
  {
  }

  lemma NormalizeOfDate(v: Js)
    requires v.Date?
    ensures Normalize(v).Str?
  {
  }

  // ---- What is accepted ---------------------------------------------------------------------------------------

  /** A text with a character that is no white space. */
  ghost predicate IsText(v: Js) {
    v.Str? && exists i :: 0 <= i < |v.text| && !IsSpace(v.text[i])
  }

  ghost predicate HasConditions(ruleType: RuleType, conditions: Js) {
    match ruleType
    case ZoneRate => IsText(Field(conditions, "zoneId"))
    case PerKm => true
    case PerOrder => true
    case Bonus => IsText(Field(conditions, "metric")) && Field(conditions, "threshold").Num?
    case Penalty => IsText(Field(conditions, "metric")) && Field(conditions, "threshold").Num?
    case MinimumGuarantee => Field(conditions, "period") in [Str("daily"), Str("weekly"), Str("monthly")]
  }

  /** A configuration is built exactly from a value that is not negative and the conditions of its type. */
  lemma BuildIff(ruleType: RuleType, value: real, conditions: Js)
    ensures
      match Build(ruleType, value, conditions)
      case Ok(_) => value >= 0.0 && HasConditions(ruleType, conditions)
      case Err(NegativeValue) => value < 0.0
      case Err(error) =>
        && value >= 0.0 && !HasConditions(ruleType, conditions)
        && error ==
             (match ruleType
              case ZoneRate => ZoneRequired
              case MinimumGuarantee => PeriodRequired
              case _ => MetricAndThresholdRequired)
  {
    hide Lookup, IsSpace, Normalize;
    PeriodsAreTexts();
  }

  lemma PeriodsAreTexts()
    ensures IsText(Str("daily")) && IsText(Str("weekly")) && IsText(Str("monthly"))
  {
    assert !IsSpace("daily"[0]) && !IsSpace("weekly"[0]) && !IsSpace("monthly"[0]);
  }

  /** A configuration is parsed exactly if it is an object with a number as its value. */
  lemma ParseIff(config: Js)
    ensures
      match Parse(config)
      case Ok(payload) =>
        && Field(config, "value") == Num(payload.value)
        && payload.conditions ==
             (if Field(config, "conditions").Obj? || Field(config, "conditions").Date? then Field(config, "conditions")
              else Null)
      case Err(ConfigNotAnObject) => !config.Obj? && !config.Date?
      case Err(error) => error == ConfigValueMissing && (config.Obj? || config.Date?) && !Field(config, "value").Num?
  {
    hide Lookup;
  }
}
