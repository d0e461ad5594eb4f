/**
 * The emergency-alert schema check `validate_emergency_schema`
 * (tests/contract/test_mqtt_emergency.py).
 */
module EmergencySchema {
  import opened Wrappers
  import opened Json
  import opened Schema

  const Required: seq<string> :=
    ["timestamp", "emergency_type", "severity_level", "triggered_by", "response_sequence", "manual_disable"]
  const EmergencyTypes: seq<string> := ["gas_detected", "system_failure", "fire_detected", "power_failure"]
  const Responses: seq<string> :=
    ["open_doors", "open_windows", "activate_fan", "sound_alarm", "flash_lights",
     "send_notifications", "call_emergency", "shutdown_gas", "activate_sprinklers"]

  function EmergencyTypeErrors(m: Obj): seq<SchemaError> {
    match Get(m, "emergency_type")
    case Some(v) => if InStrings(v, EmergencyTypes) then [] else [NotInEnum("emergency_type", v)]
    case None => []
  }

  /** `isinstance(v, int)` admits booleans, so `True` passes as severity 1. */
  predicate SeverityOk(v: Json) {
    IsPyInt(v) && 1 <= PyIntValue(v) <= 5
  }

  function SeverityErrors(m: Obj): seq<SchemaError> {
    match Get(m, "severity_level")
    case Some(v) => if SeverityOk(v) then [] else [OutOfRange("severity_level", v)]
    case None => []
  }

  function TriggeredByErrors(m: Obj): seq<SchemaError> {
    match Get(m, "triggered_by")
    case Some(v) => if IsNonEmptyStr(v) then [] else [EmptyOrNotString("triggered_by")]
    case None => []
  }

  /** A non-list is one error; a list gives one error per element outside the allowed responses. */
  function ResponseErrors(m: Obj): seq<SchemaError> {
    match Get(m, "response_sequence")
    case Some(v) =>
      if v.JList? then ElementErrors("response_sequence", v.items, Responses)
      else [WrongType("response_sequence")]
    case None => []
  }

  function ManualDisableErrors(m: Obj): seq<SchemaError> {
    match Get(m, "manual_disable")
    case Some(v) => if v.JBool? then [] else [WrongType("manual_disable")]
    case None => []
  }

  /** The error list in the order the checks run. */
  function EmergencyErrors(m: Obj): seq<SchemaError> {
    MissingErrors(Required, m) + EmergencyTypeErrors(m) + SeverityErrors(m)
      + TriggeredByErrors(m) + ResponseErrors(m) + ManualDisableErrors(m)
  }

  method ValidateEmergencySchema(m: Obj) returns (errors: seq<SchemaError>)
    ensures errors == EmergencyErrors(m)
  {
    errors := CheckRequired(Required, m);
    var kind := Get(m, "emergency_type");
    if kind.Some? && !InStrings(kind.value, EmergencyTypes) {
      errors := errors + [NotInEnum("emergency_type", kind.value)];
    }
    assert errors == MissingErrors(Required, m) + EmergencyTypeErrors(m);
    var severity := Get(m, "severity_level");
    if severity.Some? && !SeverityOk(severity.value) {
      errors := errors + [OutOfRange("severity_level", severity.value)];
    }
    assert errors == MissingErrors(Required, m) + EmergencyTypeErrors(m) + SeverityErrors(m);
    var trigger := Get(m, "triggered_by");
    if trigger.Some? && !IsNonEmptyStr(trigger.value) {
      errors := errors + [EmptyOrNotString("triggered_by")];
    }
    assert errors == MissingErrors(Required, m) + EmergencyTypeErrors(m) + SeverityErrors(m)
                     + TriggeredByErrors(m);
    var sequence := Get(m, "response_sequence");
    if sequence.Some? {
      if !sequence.value.JList? {
        errors := errors + [WrongType("response_sequence")];
      } else {
        var bad := CheckElements("response_sequence", sequence.value.items, Responses);
        errors := errors + bad;
      }
    }
    assert errors == MissingErrors(Required, m) + EmergencyTypeErrors(m) + SeverityErrors(m)
                     + TriggeredByErrors(m) + ResponseErrors(m);
    var disable := Get(m, "manual_disable");
    if disable.Some? && !disable.value.JBool? {
      errors := errors + [WrongType("manual_disable")];
    }
  }

  /** A conforming emergency alert, stated field by field. */
  predicate ConformsToEmergencySchema(m: Obj) {
    && Has(m, "timestamp")
    && (match Get(m, "emergency_type")
        case Some(v) => InStrings(v, EmergencyTypes)
        case None => false)
    && (match Get(m, "severity_level")
        case Some(v) => SeverityOk(v)
        case None => false)
    && (match Get(m, "triggered_by")
        case Some(v) => IsNonEmptyStr(v)
        case None => false)
    && (match Get(m, "response_sequence")
        case Some(JList(xs)) => forall x :: x in xs ==> InStrings(x, Responses)
        case _ => false)
    && (match Get(m, "manual_disable")
        case Some(JBool(_)) => true
        case _ => false)
  }

  lemma NoErrorsIffConforms(m: Obj)
    ensures EmergencyErrors(m) == [] <==> ConformsToEmergencySchema(m)
  {
    NoMissingErrorsIff(Required, m);
    match Get(m, "response_sequence") {
      case Some(JList(xs)) => ElementErrorsExact("response_sequence", xs, Responses);
      case _ =>
    }
    var sections := [MissingErrors(Required, m), EmergencyTypeErrors(m), SeverityErrors(m),
                     TriggeredByErrors(m), ResponseErrors(m), ManualDisableErrors(m)];
    assert |EmergencyErrors(m)| == |sections[0]| + |sections[1]| + |sections[2]|
                                   + |sections[3]| + |sections[4]| + |sections[5]|;
    if EmergencyErrors(m) == [] {
      assert Has(m, Required[0]) && Has(m, Required[1]) && Has(m, Required[2]);
      assert Has(m, Required[3]) && Has(m, Required[4]) && Has(m, Required[5]);
    }
    if ConformsToEmergencySchema(m) {
      forall i | 0 <= i < |Required|
        ensures Has(m, Required[i])
      {
        assert i == 0 || i == 1 || i == 2 || i == 3 || i == 4 || i == 5;
      }
      assert sections[0] == [];
    }
  }

  /** A response sequence is never checked for order or repetition: any arrangement of allowed actions passes. */
  lemma ResponseOrderIgnored(m: Obj, xs: seq<Json>)
    requires Get(m, "response_sequence") == Some(JList(xs))
    requires forall x :: x in xs ==> InStrings(x, Responses)
    ensures ResponseErrors(m) == []
  {
    ElementErrorsExact("response_sequence", xs, Responses);
  }

  // The messages of the test methods.

  /** The actions listed for each severity in `test_severity_level_variations`. */
  function SeverityResponses(k: int): seq<Json> {
    if k == 1 then [JStr("send_notifications")]
    else if k == 2 then [JStr("flash_lights")]
    else if k == 3 then [JStr("sound_alarm"), JStr("flash_lights")]
    else if k == 4 then [JStr("open_doors"), JStr("sound_alarm")]
    else [JStr("open_doors"), JStr("open_windows"), JStr("activate_fan"), JStr("sound_alarm")]
  }

  function SeverityAlert(k: int): Obj {
    [("timestamp", JStr("2025-09-18T10:33:00Z")), ("emergency_type", JStr("gas_detected")),
     ("severity_level", JInt(k)), ("triggered_by", JStr("gas_sensor_pin23")),
     ("response_sequence", JList(SeverityResponses(k))), ("manual_disable", JBool(false))]
  }

  function InvalidEmergency(): Obj {
    [("timestamp", JStr("2025-09-18T10:35:00Z")), ("emergency_type", JStr("invalid_emergency")),
     ("severity_level", JInt(10)), ("triggered_by", JStr("")),
     ("response_sequence", JStr("not_array")), ("manual_disable", JStr("yes"))]
  }

  lemma SeverityAlertFields(k: int)
    ensures Get(SeverityAlert(k), "timestamp").Some?
    ensures Get(SeverityAlert(k), "emergency_type") == Some(JStr("gas_detected"))
    ensures Get(SeverityAlert(k), "severity_level") == Some(JInt(k))
    ensures Get(SeverityAlert(k), "triggered_by") == Some(JStr("gas_sensor_pin23"))
    ensures Get(SeverityAlert(k), "response_sequence") == Some(JList(SeverityResponses(k)))
    ensures Get(SeverityAlert(k), "manual_disable") == Some(JBool(false))
  {
    var m := SeverityAlert(k);
    GetAt(m, 0, "timestamp");
    GetAt(m, 1, "emergency_type");
    GetAt(m, 2, "severity_level");
    GetAt(m, 3, "triggered_by");
    GetAt(m, 4, "response_sequence");
    GetAt(m, 5, "manual_disable");
  }

  lemma SeverityResponsesAllowed(k: int)
    ensures forall x :: x in SeverityResponses(k) ==> InStrings(x, Responses)
  {
    assert Responses[0] == "open_doors" && Responses[1] == "open_windows" && Responses[2] == "activate_fan";
    assert Responses[3] == "sound_alarm" && Responses[4] == "flash_lights";
    assert Responses[5] == "send_notifications";
  }

  /** Every alert of the severity table, levels 1 to 5, validates with no errors. */
  lemma SeverityAlertsValid(k: int)
    requires 1 <= k <= 5
    ensures EmergencyErrors(SeverityAlert(k)) == []
  {
    SeverityAlertFields(k);
    SeverityResponsesAllowed(k);
    assert EmergencyTypes[0] == "gas_detected";
    assert ConformsToEmergencySchema(SeverityAlert(k));
    NoErrorsIffConforms(SeverityAlert(k));
  }

  /** One error for each of the five bad fields of the invalid sample. */
  lemma InvalidEmergencyRejected()
    ensures |EmergencyErrors(InvalidEmergency())| >= 4
  {
    var m := InvalidEmergency();
    assert Get(m, "emergency_type") == Some(JStr("invalid_emergency"));
    assert Get(m, "severity_level") == Some(JInt(10));
    assert Get(m, "triggered_by") == Some(JStr(""));
    assert Get(m, "response_sequence") == Some(JStr("not_array"));
    assert Get(m, "manual_disable") == Some(JStr("yes"));
    assert |SeverityErrors(m)| == 1 && |TriggeredByErrors(m)| == 1;
    assert |ResponseErrors(m)| == 1 && |ManualDisableErrors(m)| == 1;
  }
}
