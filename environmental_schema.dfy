/**
 * The environmental-reading schema check `validate_message_schema`
 * (tests/contract/test_mqtt_environmental.py).
 *
 * Unlike the other checks, this one can raise: `len()` of a location that is
 * a number, a boolean or null raises TypeError before the list is returned.
 */
module EnvironmentalSchema {
  import opened Wrappers
  import opened Json
  import opened Schema

  const Required: seq<string> := ["timestamp", "sensor_type", "value", "unit"]
  const SensorTypes: seq<string> := ["temperature", "humidity", "gas"]
  const Units: seq<string> := ["celsius", "percent", "ppm"]
  const Statuses: seq<string> := ["normal", "warning", "critical"]
  const MaxLocation: nat := 50

  /** What a call of the check ends with. */
  datatype Validation = Returned(errors: seq<SchemaError>) | RaisedTypeError

  function SensorTypeErrors(m: Obj): seq<SchemaError> {
    match Get(m, "sensor_type")
    case Some(v) => if InStrings(v, SensorTypes) then [] else [NotInEnum("sensor_type", v)]
    case None => []
  }

  function UnitErrors(m: Obj): seq<SchemaError> {
    match Get(m, "unit")
    case Some(v) => if InStrings(v, Units) then [] else [NotInEnum("unit", v)]
    case None => []
  }

  function ValueErrors(m: Obj): seq<SchemaError> {
    match Get(m, "value")
    case Some(v) => if IsPyNumber(v) then [] else [WrongType("value")]
    case None => []
  }

  function StatusErrors(m: Obj): seq<SchemaError> {
    match Get(m, "status")
    case Some(v) => if InStrings(v, Statuses) then [] else [NotInEnum("status", v)]
    case None => []
  }

  /** The errors of every check before the location check, in order. */
  function ErrorsBeforeLocation(m: Obj): seq<SchemaError> {
    MissingErrors(Required, m) + SensorTypeErrors(m) + UnitErrors(m) + ValueErrors(m) + StatusErrors(m)
  }

  /** The outcome of the whole check. */
  function EnvironmentalResult(m: Obj): Validation {
    match Get(m, "location")
    case None => Returned(ErrorsBeforeLocation(m))
    case Some(v) =>
      match PyLen(v)
      case None => RaisedTypeError
      case Some(n) => Returned(ErrorsBeforeLocation(m) + (if n > MaxLocation then [BadLength("location", n)] else []))
  }

  method ValidateMessageSchema(m: Obj) returns (r: Validation)
    ensures r == EnvironmentalResult(m)
  {
    var errors := CheckRequired(Required, m);
    var kind := Get(m, "sensor_type");
    if kind.Some? && !InStrings(kind.value, SensorTypes) {
      errors := errors + [NotInEnum("sensor_type", kind.value)];
    }
    ghost var done := MissingErrors(Required, m) + SensorTypeErrors(m);
    assert errors == done;
    var unit := Get(m, "unit");
    if unit.Some? && !InStrings(unit.value, Units) {
      errors := errors + [NotInEnum("unit", unit.value)];
    }
    done := done + UnitErrors(m);
    assert errors == done;
    var value := Get(m, "value");
    if value.Some? && !IsPyNumber(value.value) {
      errors := errors + [WrongType("value")];
    }
    done := done + ValueErrors(m);
    assert errors == done;
    var status := Get(m, "status");
    if status.Some? && !InStrings(status.value, Statuses) {
      errors := errors + [NotInEnum("status", status.value)];
    }
    assert errors == ErrorsBeforeLocation(m);
    var location := Get(m, "location");
    if location.Some? {
      var n := PyLen(location.value);
      if n.None? {
        return RaisedTypeError;
      }
      if n.value > MaxLocation {
        errors := errors + [BadLength("location", n.value)];
      }
    }
    r := Returned(errors);
  }

  /** A conforming reading: the four required fields valid, the two optional ones valid when present. */
  predicate ConformsToEnvironmentalSchema(m: Obj) {
    && Has(m, "timestamp")
    && (match Get(m, "sensor_type")
        case Some(v) => InStrings(v, SensorTypes)
        case None => false)
    && (match Get(m, "value")
        case Some(v) => IsPyNumber(v)
        case None => false)
    && (match Get(m, "unit")
        case Some(v) => InStrings(v, Units)
        case None => false)
    && (match Get(m, "status")
        case Some(v) => InStrings(v, Statuses)
        case None => true)
    && (match Get(m, "location")
        case Some(v) => PyLen(v).Some? && PyLen(v).value <= MaxLocation
        case None => true)
  }

  lemma NoErrorsIffConforms(m: Obj)
    ensures EnvironmentalResult(m) == Returned([]) <==> ConformsToEnvironmentalSchema(m)
  {
    NoMissingErrorsIff(Required, m);
    var sections := [MissingErrors(Required, m), SensorTypeErrors(m), UnitErrors(m),
                     ValueErrors(m), StatusErrors(m)];
    assert |ErrorsBeforeLocation(m)| == |sections[0]| + |sections[1]| + |sections[2]|
                                        + |sections[3]| + |sections[4]|;
    if EnvironmentalResult(m) == Returned([]) {
      assert ErrorsBeforeLocation(m) == [];
      assert Has(m, Required[0]) && Has(m, Required[1]) && Has(m, Required[2]) && Has(m, Required[3]);
    }
    if ConformsToEnvironmentalSchema(m) {
      forall i | 0 <= i < |Required|
        ensures Has(m, Required[i])
      {
        assert i == 0 || i == 1 || i == 2 || i == 3;
      }
      assert sections[0] == [];
    }
  }

  /** location and status are optional: their absence never produces an error. */
  lemma OptionalFieldsNotRequired(m: Obj)
    ensures EnvironmentalResult(m).Returned? ==>
              Missing("location") !in EnvironmentalResult(m).errors
              && Missing("status") !in EnvironmentalResult(m).errors
  {
    MissingErrorsExact(Required, m, Missing("location"));
    MissingErrorsExact(Required, m, Missing("status"));
  }

  /** A location that `len()` cannot measure makes the check raise instead of returning a list. */
  lemma UnsizedLocationRaises(m: Obj)
    requires Get(m, "location").Some? && !(Get(m, "location").value.JStr? || Get(m, "location").value.JList?
                                           || Get(m, "location").value.JObject?)
    ensures EnvironmentalResult(m) == RaisedTypeError
  {
  }

  /** A unit outside the enumeration is reported, for example the firmware's "C" and "%". */
  lemma UnitOutsideEnumReported(m: Obj, u: string)
    requires Get(m, "unit") == Some(JStr(u)) && u !in Units
    ensures EnvironmentalResult(m).Returned? ==> NotInEnum("unit", JStr(u)) in EnvironmentalResult(m).errors
  {
    assert UnitErrors(m) == [NotInEnum("unit", JStr(u))];
  }

  lemma FirmwareUnitsNotInEnum()
    ensures "C" !in Units && "%" !in Units
  {
    assert Units[0] != "C" && Units[1] != "C" && Units[2] != "C";
  }

  // The messages of the test methods, all with six keys in the same order.

  function Reading(timestamp: Json, sensorType: Json, value: Json, unit: Json, location: Json, status: Json): Obj {
    [("timestamp", timestamp), ("sensor_type", sensorType), ("value", value), ("unit", unit),
     ("location", location), ("status", status)]
  }

  lemma ReadingFields(timestamp: Json, sensorType: Json, value: Json, unit: Json, location: Json, status: Json)
    ensures var m := Reading(timestamp, sensorType, value, unit, location, status);
      && Get(m, "timestamp") == Some(timestamp) && Get(m, "sensor_type") == Some(sensorType)
      && Get(m, "value") == Some(value) && Get(m, "unit") == Some(unit)
      && Get(m, "location") == Some(location) && Get(m, "status") == Some(status)
  {
    var m := Reading(timestamp, sensorType, value, unit, location, status);
    GetAt(m, 0, "timestamp");
    GetAt(m, 1, "sensor_type");
    GetAt(m, 2, "value");
    GetAt(m, 3, "unit");
    GetAt(m, 4, "location");
    GetAt(m, 5, "status");
  }

  /** The temperature, humidity and gas readings of the test methods, indexed 0 to 2. */
  function ValidReading(k: nat): Obj
    requires k < 3
  {
    if k == 0 then
      Reading(JStr("2025-09-18T10:30:00Z"), JStr("temperature"), JFloat, JStr("celsius"), JStr("indoor"), JStr("normal"))
    else if k == 1 then
      Reading(JStr("2025-09-18T10:31:00Z"), JStr("humidity"), JFloat, JStr("percent"), JStr("indoor"), JStr("normal"))
    else
      Reading(JStr("2025-09-18T10:32:00Z"), JStr("gas"), JFloat, JStr("ppm"), JStr("indoor"), JStr("warning"))
  }

  function InvalidReading(): Obj {
    [("timestamp", JStr("2025-09-18T10:33:00Z")), ("sensor_type", JStr("invalid_type")),
     ("value", JStr("not_a_number")), ("unit", JStr("invalid_unit"))]
  }

  /** A six-field reading whose every field is valid passes with no errors. */
  lemma ReadingPasses(timestamp: Json, sensorType: Json, value: Json, unit: Json, location: string, status: Json)
    requires InStrings(sensorType, SensorTypes) && IsPyNumber(value) && InStrings(unit, Units)
    requires |location| <= MaxLocation && InStrings(status, Statuses)
    ensures EnvironmentalResult(Reading(timestamp, sensorType, value, unit, JStr(location), status)) == Returned([])
  {
    var m := Reading(timestamp, sensorType, value, unit, JStr(location), status);
    ReadingFields(timestamp, sensorType, value, unit, JStr(location), status);
    assert ConformsToEnvironmentalSchema(m);
    NoErrorsIffConforms(m);
  }

  /** The three valid readings of the test methods pass with no errors. */
  lemma ValidReadingsPass(k: nat)
    requires k < 3
    ensures EnvironmentalResult(ValidReading(k)) == Returned([])
  {
    assert SensorTypes[0] == "temperature" && SensorTypes[1] == "humidity" && SensorTypes[2] == "gas";
    assert Units[0] == "celsius" && Units[1] == "percent" && Units[2] == "ppm";
    assert Statuses[0] == "normal" && Statuses[1] == "warning";
    if k == 0 {
      ReadingPasses(JStr("2025-09-18T10:30:00Z"), JStr("temperature"), JFloat, JStr("celsius"), "indoor", JStr("normal"));
    } else if k == 1 {
      ReadingPasses(JStr("2025-09-18T10:31:00Z"), JStr("humidity"), JFloat, JStr("percent"), "indoor", JStr("normal"));
    } else {
      ReadingPasses(JStr("2025-09-18T10:32:00Z"), JStr("gas"), JFloat, JStr("ppm"), "indoor", JStr("warning"));
    }
  }

  /** The invalid sample has no location, so it returns, with three errors. */
  lemma InvalidReadingRejected()
    ensures EnvironmentalResult(InvalidReading()).Returned?
    ensures |EnvironmentalResult(InvalidReading()).errors| >= 3
  {
    var m := InvalidReading();
    GetAt(m, 1, "sensor_type");
    GetAt(m, 2, "value");
    GetAt(m, 3, "unit");
    assert Get(m, "location") == None && Get(m, "status") == None;
    assert |SensorTypeErrors(m)| == 1 && |UnitErrors(m)| == 1 && |ValueErrors(m)| == 1;
  }
}
