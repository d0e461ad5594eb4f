/**
 * The system-status schema check `validate_system_status_schema`
 * (tests/contract/test_mqtt_system.py).
 */
module SystemSchema {
  import opened Wrappers
  import opened Json
  import opened Schema

  const Required: seq<string> :=
    ["timestamp", "pir_enabled", "gas_alarm_active", "manual_overrides",
     "device_status", "network_status", "uptime_seconds", "memory_free_bytes"]
  const BooleanFields: seq<string> := ["pir_enabled", "gas_alarm_active"]
  const OverrideKeys: seq<string> := ["gas_alarm", "pir_system", "motion_sensor", "door_lock"]
  const DeviceStatuses: seq<string> := ["online", "offline", "error", "unknown"]
  const NetworkStatuses: seq<string> := ["connected", "disconnected", "connecting", "error"]
  const CountFields: seq<string> := ["uptime_seconds", "memory_free_bytes"]

  // ---------------------------------------------------------------------------
  // The boolean-field loop

  /** The errors of the loop over `BooleanFields`: a present field that is not a bool. */
  function BoolFieldErrors(fields: seq<string>, m: Obj): seq<SchemaError> {
    if fields == [] then []
    else
      var f := fields[|fields| - 1];
      BoolFieldErrors(fields[..|fields| - 1], m)
        + (match Get(m, f) case Some(v) => if v.JBool? then [] else [WrongType(f)] case None => [])
  }

  method CheckBoolFields(fields: seq<string>, m: Obj) returns (errors: seq<SchemaError>)
    ensures errors == BoolFieldErrors(fields, m)
  {
    errors := [];
    var i := 0;
    while i < |fields|
      invariant 0 <= i <= |fields|
      invariant errors == BoolFieldErrors(fields[..i], m)
    {
      assert fields[..i + 1][..i] == fields[..i];
      var v := Get(m, fields[i]);
      if v.Some? && !v.value.JBool? {
        errors := errors + [WrongType(fields[i])];
      }
      i := i + 1;
    }
    assert fields[..i] == fields;
  }

  /** A field's error is reported exactly when the field is listed, present and not a bool. */
  lemma {:induction false} BoolFieldErrorsExact(fields: seq<string>, m: Obj, e: SchemaError)
    ensures e in BoolFieldErrors(fields, m) <==>
              e.WrongType? && e.field in fields && Has(m, e.field) && !Get(m, e.field).value.JBool?
  {
    if fields != [] {
      BoolFieldErrorsExact(fields[..|fields| - 1], m, e);
      assert fields == fields[..|fields| - 1] + [fields[|fields| - 1]];
    }
  }

  // ---------------------------------------------------------------------------
  // The manual_overrides loop

  /** The errors for one override entry: its key, then its value; one entry may give both. */
  function OverrideEntryErrors(key: string, value: Json): seq<SchemaError> {
    (if key in OverrideKeys then [] else [BadKey("manual_overrides", key)])
      + (if value.JBool? then [] else [BadEntry("manual_overrides", key, value)])
  }

  function OverrideErrors(entries: Obj): seq<SchemaError> {
    if entries == [] then []
    else
      var (k, v) := entries[|entries| - 1];
      OverrideErrors(entries[..|entries| - 1]) + OverrideEntryErrors(k, v)
  }

  method CheckOverrides(entries: Obj) returns (errors: seq<SchemaError>)
    ensures errors == OverrideErrors(entries)
  {
    errors := [];
    var i := 0;
    while i < |entries|
      invariant 0 <= i <= |entries|
      invariant errors == OverrideErrors(entries[..i])
    {
      assert entries[..i + 1][..i] == entries[..i];
      var (key, value) := entries[i];
      if key !in OverrideKeys {
        errors := errors + [BadKey("manual_overrides", key)];
      }
      if !value.JBool? {
        errors := errors + [BadEntry("manual_overrides", key, value)];
      }
      i := i + 1;
    }
    assert entries[..i] == entries;
  }

  /** No override error iff every key is a known override and every value a bool. */
  lemma {:induction false} NoOverrideErrorsIff(entries: Obj)
    ensures OverrideErrors(entries) == [] <==>
              forall i :: 0 <= i < |entries| ==> entries[i].0 in OverrideKeys && entries[i].1.JBool?
  {
    if entries != [] {
      var init := entries[..|entries| - 1];
      NoOverrideErrorsIff(init);
      assert forall i :: 0 <= i < |init| ==> init[i] == entries[i];
    }
  }

  // ---------------------------------------------------------------------------
  // The device_status loop

  /** One error per device whose status is not allowed; the device names themselves are not checked. */
  function DeviceErrors(entries: Obj): seq<SchemaError> {
    if entries == [] then []
    else
      var (device, status) := entries[|entries| - 1];
      DeviceErrors(entries[..|entries| - 1])
        + (if InStrings(status, DeviceStatuses) then [] else [BadEntry("device_status", device, status)])
  }

  method CheckDevices(entries: Obj) returns (errors: seq<SchemaError>)
    ensures errors == DeviceErrors(entries)
  {
    errors := [];
    var i := 0;
    while i < |entries|
      invariant 0 <= i <= |entries|
      invariant errors == DeviceErrors(entries[..i])
    {
      assert entries[..i + 1][..i] == entries[..i];
      var (device, status) := entries[i];
      if !InStrings(status, DeviceStatuses) {
        errors := errors + [BadEntry("device_status", device, status)];
      }
      i := i + 1;
    }
    assert entries[..i] == entries;
  }

  /** No device error iff every status is allowed, whatever the device names are. */
  lemma {:induction false} NoDeviceErrorsIff(entries: Obj)
    ensures DeviceErrors(entries) == [] <==>
              forall i :: 0 <= i < |entries| ==> InStrings(entries[i].1, DeviceStatuses)
  {
    if entries != [] {
      var init := entries[..|entries| - 1];
      NoDeviceErrorsIff(init);
      assert forall i :: 0 <= i < |init| ==> init[i] == entries[i];
    }
  }

  // ---------------------------------------------------------------------------
  // The numeric-field loop

  /** `isinstance(v, int) and v >= 0`, with Python's bools counting as 0 and 1. */
  predicate IsCount(v: Json) {
    IsPyInt(v) && PyIntValue(v) >= 0
  }

  function CountErrors(fields: seq<string>, m: Obj): seq<SchemaError> {
    if fields == [] then []
    else
      var f := fields[|fields| - 1];
      CountErrors(fields[..|fields| - 1], m)
        + (match Get(m, f) case Some(v) => if IsCount(v) then [] else [OutOfRange(f, v)] case None => [])
  }

  method CheckCounts(fields: seq<string>, m: Obj) returns (errors: seq<SchemaError>)
    ensures errors == CountErrors(fields, m)
  {
    errors := [];
    var i := 0;
    while i < |fields|
      invariant 0 <= i <= |fields|
      invariant errors == CountErrors(fields[..i], m)
    {
      assert fields[..i + 1][..i] == fields[..i];
      var v := Get(m, fields[i]);
      if v.Some? && !IsCount(v.value) {
        errors := errors + [OutOfRange(fields[i], v.value)];
      }
      i := i + 1;
    }
    assert fields[..i] == fields;
  }

  // ---------------------------------------------------------------------------
  // The whole check

  function ManualOverrideErrors(m: Obj): seq<SchemaError> {
    match Get(m, "manual_overrides")
    case Some(v) => if v.JObject? then OverrideErrors(v.members) else [WrongType("manual_overrides")]
    case None => []
  }

  function DeviceStatusErrors(m: Obj): seq<SchemaError> {
    match Get(m, "device_status")
    case Some(v) => if v.JObject? then DeviceErrors(v.members) else [WrongType("device_status")]
    case None => []
  }

  function NetworkErrors(m: Obj): seq<SchemaError> {
    match Get(m, "network_status")
    case Some(v) => if InStrings(v, NetworkStatuses) then [] else [NotInEnum("network_status", v)]
    case None => []
  }

  /** The error list in the order the checks run. */
  function SystemErrors(m: Obj): seq<SchemaError> {
    MissingErrors(Required, m) + BoolFieldErrors(BooleanFields, m) + ManualOverrideErrors(m)
      + DeviceStatusErrors(m) + NetworkErrors(m) + CountErrors(CountFields, m)
  }

  method ValidateSystemStatusSchema(m: Obj) returns (errors: seq<SchemaError>)
    ensures errors == SystemErrors(m)
  {
    errors := CheckRequired(Required, m);
    var flags := CheckBoolFields(BooleanFields, m);
    errors := errors + flags;
    ghost var done := MissingErrors(Required, m) + BoolFieldErrors(BooleanFields, m);
    assert errors == done;
    var overrides := Get(m, "manual_overrides");
    if overrides.Some? {
      if !overrides.value.JObject? {
        errors := errors + [WrongType("manual_overrides")];
      } else {
        var bad := CheckOverrides(overrides.value.members);
        errors := errors + bad;
      }
    }
    done := done + ManualOverrideErrors(m);
    assert errors == done;
    var devices := Get(m, "device_status");
    if devices.Some? {
      if !devices.value.JObject? {
        errors := errors + [WrongType("device_status")];
      } else {
        var bad := CheckDevices(devices.value.members);
        errors := errors + bad;
      }
    }
    done := done + DeviceStatusErrors(m);
    assert errors == done;
    var network := Get(m, "network_status");
    if network.Some? && !InStrings(network.value, NetworkStatuses) {
      errors := errors + [NotInEnum("network_status", network.value)];
    }
    done := done + NetworkErrors(m);
    assert errors == done;
    var counts := CheckCounts(CountFields, m);
    errors := errors + counts;
  }

  /** A conforming status message, stated field by field. */
  predicate ConformsToSystemSchema(m: Obj) {
    && Has(m, "timestamp")
    && (match Get(m, "pir_enabled")
        case Some(JBool(_)) => true
        case _ => false)
    && (match Get(m, "gas_alarm_active")
        case Some(JBool(_)) => true
        case _ => false)
    && (match Get(m, "manual_overrides")
        case Some(JObject(es)) =>
          forall i :: 0 <= i < |es| ==> es[i].0 in OverrideKeys && es[i].1.JBool?
        case _ => false)
    && (match Get(m, "device_status")
        case Some(JObject(es)) => forall i :: 0 <= i < |es| ==> InStrings(es[i].1, DeviceStatuses)
        case _ => false)
    && (match Get(m, "network_status")
        case Some(v) => InStrings(v, NetworkStatuses)
        case None => false)
    && (match Get(m, "uptime_seconds")
        case Some(v) => IsCount(v)
        case None => false)
    && (match Get(m, "memory_free_bytes")
        case Some(v) => IsCount(v)
        case None => false)
  }

  lemma BoolFieldsSection(m: Obj)
    ensures BoolFieldErrors(BooleanFields, m) == [] <==>
              (Has(m, "pir_enabled") ==> Get(m, "pir_enabled").value.JBool?)
              && (Has(m, "gas_alarm_active") ==> Get(m, "gas_alarm_active").value.JBool?)
  {
    var first := BooleanFields[..1];
    assert first == ["pir_enabled"] && first[..0] == [];
    assert BoolFieldErrors(first, m) == BoolFieldErrors([], m)
      + (match Get(m, "pir_enabled") case Some(v) => if v.JBool? then [] else [WrongType("pir_enabled")] case None => []);
  }

  lemma CountsSection(m: Obj)
    ensures CountErrors(CountFields, m) == [] <==>
              (Has(m, "uptime_seconds") ==> IsCount(Get(m, "uptime_seconds").value))
              && (Has(m, "memory_free_bytes") ==> IsCount(Get(m, "memory_free_bytes").value))
  {
    var first := CountFields[..1];
    assert first == ["uptime_seconds"] && first[..0] == [];
    assert CountErrors(first, m) == CountErrors([], m)
      + (match Get(m, "uptime_seconds") case Some(v) => if IsCount(v) then [] else [OutOfRange("uptime_seconds", v)] case None => []);
  }

  /** The facts both directions of `NoErrorsIffConforms` start from. */
  lemma SectionFacts(m: Obj)
    ensures MissingErrors(Required, m) == [] <==> forall i :: 0 <= i < |Required| ==> Has(m, Required[i])
    ensures BoolFieldErrors(BooleanFields, m) == [] <==>
              (Has(m, "pir_enabled") ==> Get(m, "pir_enabled").value.JBool?)
              && (Has(m, "gas_alarm_active") ==> Get(m, "gas_alarm_active").value.JBool?)
    ensures CountErrors(CountFields, m) == [] <==>
              (Has(m, "uptime_seconds") ==> IsCount(Get(m, "uptime_seconds").value))
              && (Has(m, "memory_free_bytes") ==> IsCount(Get(m, "memory_free_bytes").value))
    ensures SystemErrors(m) == [] <==>
              MissingErrors(Required, m) == [] && BoolFieldErrors(BooleanFields, m) == []
              && ManualOverrideErrors(m) == [] && DeviceStatusErrors(m) == []
              && NetworkErrors(m) == [] && CountErrors(CountFields, m) == []
  {
    NoMissingErrorsIff(Required, m);
    BoolFieldsSection(m);
    CountsSection(m);
  }

  lemma ErrorsFreeConforms(m: Obj)
    requires SystemErrors(m) == []
    ensures ConformsToSystemSchema(m)
  {
    SectionFacts(m);
    match Get(m, "manual_overrides") {
      case Some(JObject(es)) => NoOverrideErrorsIff(es);
      case _ =>
    }
    match Get(m, "device_status") {
      case Some(JObject(es)) => NoDeviceErrorsIff(es);
      case _ =>
    }
    assert Has(m, Required[0]) && Has(m, Required[1]) && Has(m, Required[2]) && Has(m, Required[3]);
    assert Has(m, Required[4]) && Has(m, Required[5]) && Has(m, Required[6]) && Has(m, Required[7]);
  }

  lemma ConformsErrorsFree(m: Obj)
    requires ConformsToSystemSchema(m)
    ensures SystemErrors(m) == []
  {
    SectionFacts(m);
    assert ManualOverrideErrors(m) == [] by {
      var es := Get(m, "manual_overrides").value.members;
      NoOverrideErrorsIff(es);
    }
    assert DeviceStatusErrors(m) == [] by {
      var es := Get(m, "device_status").value.members;
      NoDeviceErrorsIff(es);
    }
    assert MissingErrors(Required, m) == [] by {
      forall i | 0 <= i < |Required|
        ensures Has(m, Required[i])
      {
        assert i == 0 || i == 1 || i == 2 || i == 3 || i == 4 || i == 5 || i == 6 || i == 7;
      }
    }
  }

  lemma NoErrorsIffConforms(m: Obj)
    ensures SystemErrors(m) == [] <==> ConformsToSystemSchema(m)
  {
    if SystemErrors(m) == [] {
      ErrorsFreeConforms(m);
    }
    if ConformsToSystemSchema(m) {
      ConformsErrorsFree(m);
    }
  }

  /** An override entry with an unknown key and a non-boolean value is reported twice. */
  lemma OneOverrideTwoErrors()
    ensures OverrideErrors([("garage", JStr("on"))])
         == [BadKey("manual_overrides", "garage"), BadEntry("manual_overrides", "garage", JStr("on"))]
  {
    assert "garage" !in OverrideKeys;
    assert OverrideErrors([("garage", JStr("on"))])
        == OverrideErrors([]) + OverrideEntryErrors("garage", JStr("on"));
  }

  // The messages of the test methods, all with the eight required keys in the same order.

  function StatusMessage(timestamp: Json, pir: Json, gas: Json, overrides: Json, devices: Json,
                         network: Json, uptime: Json, memory: Json): Obj {
    [("timestamp", timestamp), ("pir_enabled", pir), ("gas_alarm_active", gas),
     ("manual_overrides", overrides), ("device_status", devices), ("network_status", network),
     ("uptime_seconds", uptime), ("memory_free_bytes", memory)]
  }

  lemma StatusMessageFields(timestamp: Json, pir: Json, gas: Json, overrides: Json, devices: Json,
                            network: Json, uptime: Json, memory: Json)
    ensures var m := StatusMessage(timestamp, pir, gas, overrides, devices, network, uptime, memory);
      && Get(m, "timestamp") == Some(timestamp) && Get(m, "pir_enabled") == Some(pir)
      && Get(m, "gas_alarm_active") == Some(gas) && Get(m, "manual_overrides") == Some(overrides)
      && Get(m, "device_status") == Some(devices) && Get(m, "network_status") == Some(network)
      && Get(m, "uptime_seconds") == Some(uptime) && Get(m, "memory_free_bytes") == Some(memory)
  {
    var m := StatusMessage(timestamp, pir, gas, overrides, devices, network, uptime, memory);
    GetAt(m, 0, "timestamp");
    GetAt(m, 1, "pir_enabled");
    GetAt(m, 2, "gas_alarm_active");
    GetAt(m, 3, "manual_overrides");
    GetAt(m, 4, "device_status");
    GetAt(m, 5, "network_status");
    GetAt(m, 6, "uptime_seconds");
    GetAt(m, 7, "memory_free_bytes");
  }

  function NormalOverrides(): Obj {
    [("gas_alarm", JBool(false)), ("pir_system", JBool(false))]
  }

  function NormalDevices(): Obj {
    [("temperature_sensor", JStr("online")), ("motion_sensor", JStr("online")),
     ("rfid_reader", JStr("online")), ("gas_sensor", JStr("online")), ("oled_display", JStr("online"))]
  }

  function NormalStatus(): Obj {
    StatusMessage(JStr("2025-09-18T10:30:00Z"), JBool(true), JBool(false), JObject(NormalOverrides()),
                  JObject(NormalDevices()), JStr("connected"), JInt(3600), JInt(45000))
  }

  function InvalidStatus(): Obj {
    StatusMessage(JStr("2025-09-18T10:36:00Z"), JStr("yes"), JInt(1), JStr("not_object"),
                  JList([]), JStr("invalid_status"), JInt(-100), JStr("low"))
  }

  lemma NormalEntriesValid()
    ensures OverrideErrors(NormalOverrides()) == [] && DeviceErrors(NormalDevices()) == []
  {
    assert OverrideKeys[0] == "gas_alarm" && OverrideKeys[1] == "pir_system";
    NoOverrideErrorsIff(NormalOverrides());
    assert DeviceStatuses[0] == "online";
    var devices := NormalDevices();
    forall i | 0 <= i < |devices|
      ensures InStrings(devices[i].1, DeviceStatuses)
    {
      assert i == 0 || i == 1 || i == 2 || i == 3 || i == 4;
    }
    NoDeviceErrorsIff(devices);
  }

  /** The status of `test_normal_system_status` validates with no errors. */
  lemma NormalStatusValid()
    ensures SystemErrors(NormalStatus()) == []
  {
    StatusMessageFields(JStr("2025-09-18T10:30:00Z"), JBool(true), JBool(false), JObject(NormalOverrides()),
                        JObject(NormalDevices()), JStr("connected"), JInt(3600), JInt(45000));
    NormalEntriesValid();
    NoOverrideErrorsIff(NormalOverrides());
    NoDeviceErrorsIff(NormalDevices());
    assert NetworkStatuses[0] == "connected";
    ConformsErrorsFree(NormalStatus());
  }

  /** Seven errors: both flags, both objects, the network status and both counts. */
  lemma InvalidStatusRejected()
    ensures |SystemErrors(InvalidStatus())| >= 6
  {
    StatusMessageFields(JStr("2025-09-18T10:36:00Z"), JStr("yes"), JInt(1), JStr("not_object"),
                        JList([]), JStr("invalid_status"), JInt(-100), JStr("low"));
    var m := InvalidStatus();
    assert |BoolFieldErrors(BooleanFields, m)| == 2 by {
      assert BooleanFields[..1] == ["pir_enabled"] && BooleanFields[..1][..0] == [];
    }
    assert |CountErrors(CountFields, m)| == 2 by {
      assert CountFields[..1] == ["uptime_seconds"] && CountFields[..1][..0] == [];
    }
    assert |ManualOverrideErrors(m)| == 1 && |DeviceStatusErrors(m)| == 1 && |NetworkErrors(m)| == 1;
  }
}
