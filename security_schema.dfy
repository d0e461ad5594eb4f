/**
 * The security-event schema check `validate_security_schema`
 * (tests/contract/test_mqtt_security.py).
 */
module SecuritySchema {
  import opened Wrappers
  import opened Json
  import opened Schema

  const Required: seq<string> :=
    ["timestamp", "event_type", "severity", "triggered_by", "response_actions", "location"]
  const EventTypes: seq<string> := ["motion", "pir", "manual_override", "system_arm", "system_disarm"]
  const Severities: seq<string> := ["info", "warning", "alert", "critical"]
  const Actions: seq<string> :=
    ["led_on", "led_off", "fan_start", "fan_stop", "buzzer_on", "buzzer_off",
     "rgb_flash", "display_alert", "door_lock", "door_unlock"]

  function EventTypeErrors(m: Obj): seq<SchemaError> {
    match Get(m, "event_type")
    case Some(v) => if InStrings(v, EventTypes) then [] else [NotInEnum("event_type", v)]
    case None => []
  }

  function SeverityErrors(m: Obj): seq<SchemaError> {
    match Get(m, "severity")
    case Some(v) => if InStrings(v, Severities) then [] else [NotInEnum("severity", v)]
    case None => []
  }

  /** A non-list is one error; a list gives one error per element outside the allowed actions. */
  function ActionErrors(m: Obj): seq<SchemaError> {
    match Get(m, "response_actions")
    case Some(v) =>
      if v.JList? then ElementErrors("response_actions", v.items, Actions)
      else [WrongType("response_actions")]
    case None => []
  }

  function TriggeredByErrors(m: Obj): seq<SchemaError> {
    match Get(m, "triggered_by")
    case Some(v) => if IsNonEmptyStr(v) then [] else [EmptyOrNotString("triggered_by")]
    case None => []
  }

  /** The error list in the order the checks run; location is only required, never inspected. */
  function SecurityErrors(m: Obj): seq<SchemaError> {
    MissingErrors(Required, m) + EventTypeErrors(m) + SeverityErrors(m)
      + ActionErrors(m) + TriggeredByErrors(m)
  }

  method ValidateSecuritySchema(m: Obj) returns (errors: seq<SchemaError>)
    ensures errors == SecurityErrors(m)
  {
    errors := CheckRequired(Required, m);
    var kind := Get(m, "event_type");
    if kind.Some? && !InStrings(kind.value, EventTypes) {
      errors := errors + [NotInEnum("event_type", kind.value)];
    }
    assert errors == MissingErrors(Required, m) + EventTypeErrors(m);
    var severity := Get(m, "severity");
    if severity.Some? && !InStrings(severity.value, Severities) {
      errors := errors + [NotInEnum("severity", severity.value)];
    }
    assert errors == MissingErrors(Required, m) + EventTypeErrors(m) + SeverityErrors(m);
    var actions := Get(m, "response_actions");
    if actions.Some? {
      if !actions.value.JList? {
        errors := errors + [WrongType("response_actions")];
      } else {
        var bad := CheckElements("response_actions", actions.value.items, Actions);
        errors := errors + bad;
      }
    }
    assert errors == MissingErrors(Required, m) + EventTypeErrors(m) + SeverityErrors(m) + ActionErrors(m);
    var trigger := Get(m, "triggered_by");
    if trigger.Some? && !IsNonEmptyStr(trigger.value) {
      errors := errors + [EmptyOrNotString("triggered_by")];
    }
  }

  /** A conforming security event, stated field by field. */
  predicate ConformsToSecuritySchema(m: Obj) {
    && Has(m, "timestamp")
    && Has(m, "location")
    && (match Get(m, "event_type")
        case Some(v) => InStrings(v, EventTypes)
        case None => false)
    && (match Get(m, "severity")
        case Some(v) => InStrings(v, Severities)
        case None => false)
    && (match Get(m, "response_actions")
        case Some(JList(xs)) => forall x :: x in xs ==> InStrings(x, Actions)
        case _ => false)
    && (match Get(m, "triggered_by")
        case Some(v) => IsNonEmptyStr(v)
        case None => false)
  }

  lemma NoErrorsIffConforms(m: Obj)
    ensures SecurityErrors(m) == [] <==> ConformsToSecuritySchema(m)
  {
    NoMissingErrorsIff(Required, m);
    match Get(m, "response_actions") {
      case Some(JList(xs)) => ElementErrorsExact("response_actions", xs, Actions);
      case _ =>
    }
    var sections := [MissingErrors(Required, m), EventTypeErrors(m), SeverityErrors(m),
                     ActionErrors(m), TriggeredByErrors(m)];
    assert |SecurityErrors(m)| == |sections[0]| + |sections[1]| + |sections[2]|
                                  + |sections[3]| + |sections[4]|;
    if SecurityErrors(m) == [] {
      assert Has(m, Required[0]) && Has(m, Required[1]) && Has(m, Required[2]);
      assert Has(m, Required[3]) && Has(m, Required[4]) && Has(m, Required[5]);
    }
    if ConformsToSecuritySchema(m) {
      forall i | 0 <= i < |Required|
        ensures Has(m, Required[i])
      {
        assert i == 0 || i == 1 || i == 2 || i == 3 || i == 4 || i == 5;
      }
      assert sections[0] == [];
    }
  }

  /** Whatever location holds (a number, an empty string, null), it never adds an error once present. */
  lemma LocationOnlyRequired(m: Obj, v: Json)
    requires Get(m, "location") == Some(v)
    ensures forall e :: e in SecurityErrors(m) ==> e != Missing("location") && e != WrongType("location")
  {
    MissingErrorsExact(Required, m, Missing("location"));
    forall e | e in SecurityErrors(m)
      ensures e != Missing("location") && e != WrongType("location")
    {
      if e in MissingErrors(Required, m) {
        MissingErrorsExact(Required, m, e);
      } else if e in ActionErrors(m) && Get(m, "response_actions").Some? && Get(m, "response_actions").value.JList? {
        var xs := Get(m, "response_actions").value.items;
        ElementErrorsExact("response_actions", xs, Actions);
        var k :| 0 <= k < |ElementErrors("response_actions", xs, Actions)| && ElementErrors("response_actions", xs, Actions)[k] == e;
      }
    }
  }

  // The messages of the test methods.

  function ArmEvent(): Obj {
    [("timestamp", JStr("2025-09-18T10:33:00Z")), ("event_type", JStr("system_arm")),
     ("severity", JStr("info")), ("triggered_by", JStr("manual")),
     ("response_actions", JList([JStr("display_alert")])), ("location", JStr("system"))]
  }

  function DisarmEvent(): Obj {
    [("timestamp", JStr("2025-09-18T10:34:00Z")), ("event_type", JStr("system_disarm")),
     ("severity", JStr("info")), ("triggered_by", JStr("manual")),
     ("response_actions", JList([JStr("led_off"), JStr("buzzer_off")])), ("location", JStr("system"))]
  }

  function InvalidSecurity(): Obj {
    [("timestamp", JStr("2025-09-18T10:35:00Z")), ("event_type", JStr("invalid_event")),
     ("severity", JStr("invalid_severity")), ("triggered_by", JStr("")),
     ("response_actions", JStr("not_array")), ("location", JStr("test"))]
  }

  lemma ArmEventFields()
    ensures Get(ArmEvent(), "timestamp").Some? && Get(ArmEvent(), "location").Some?
    ensures Get(ArmEvent(), "event_type") == Some(JStr("system_arm"))
    ensures Get(ArmEvent(), "severity") == Some(JStr("info"))
    ensures Get(ArmEvent(), "triggered_by") == Some(JStr("manual"))
    ensures Get(ArmEvent(), "response_actions") == Some(JList([JStr("display_alert")]))
  {
    GetAt(ArmEvent(), 0, "timestamp");
    GetAt(ArmEvent(), 1, "event_type");
    GetAt(ArmEvent(), 2, "severity");
    GetAt(ArmEvent(), 3, "triggered_by");
    GetAt(ArmEvent(), 4, "response_actions");
    GetAt(ArmEvent(), 5, "location");
  }

  lemma DisarmEventFields()
    ensures Get(DisarmEvent(), "timestamp").Some? && Get(DisarmEvent(), "location").Some?
    ensures Get(DisarmEvent(), "event_type") == Some(JStr("system_disarm"))
    ensures Get(DisarmEvent(), "severity") == Some(JStr("info"))
    ensures Get(DisarmEvent(), "triggered_by") == Some(JStr("manual"))
    ensures Get(DisarmEvent(), "response_actions") == Some(JList([JStr("led_off"), JStr("buzzer_off")]))
  {
    GetAt(DisarmEvent(), 0, "timestamp");
    GetAt(DisarmEvent(), 1, "event_type");
    GetAt(DisarmEvent(), 2, "severity");
    GetAt(DisarmEvent(), 3, "triggered_by");
    GetAt(DisarmEvent(), 4, "response_actions");
    GetAt(DisarmEvent(), 5, "location");
  }

  /** The arm message of `test_system_arm_disarm_events` validates with no errors. */
  lemma ArmEventValid()
    ensures SecurityErrors(ArmEvent()) == []
  {
    ArmEventFields();
    assert EventTypes[3] == "system_arm" && Severities[0] == "info" && Actions[7] == "display_alert";
    assert ConformsToSecuritySchema(ArmEvent());
    NoErrorsIffConforms(ArmEvent());
  }

  /** So does the disarm message. */
  lemma DisarmEventValid()
    ensures SecurityErrors(DisarmEvent()) == []
  {
    DisarmEventFields();
    assert EventTypes[4] == "system_disarm" && Severities[0] == "info";
    assert Actions[1] == "led_off" && Actions[5] == "buzzer_off";
    assert ConformsToSecuritySchema(DisarmEvent());
    NoErrorsIffConforms(DisarmEvent());
  }

  /** Four of the invalid sample's fields are rejected. */
  lemma InvalidSecurityRejected()
    ensures |SecurityErrors(InvalidSecurity())| >= 3
  {
    var m := InvalidSecurity();
    GetAt(m, 1, "event_type");
    GetAt(m, 2, "severity");
    GetAt(m, 3, "triggered_by");
    GetAt(m, 4, "response_actions");
    assert |EventTypeErrors(m)| == 1 && |SeverityErrors(m)| == 1;
    assert |ActionErrors(m)| == 1 && |TriggeredByErrors(m)| == 1;
  }
}
