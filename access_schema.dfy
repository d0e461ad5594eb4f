/**
 * The RFID access-event schema check `validate_access_schema`
 * (tests/contract/test_mqtt_access.py).
 */
module AccessSchema {
  import opened Wrappers
  import opened Json
  import opened Schema

  const Required: seq<string> := ["timestamp", "card_uid", "access_granted", "door_action", "location"]
  const DoorActions: seq<string> := ["unlock", "lock", "blocked", "error"]

  /** At most one error for card_uid: not a string, not 8 long, or rejected by `int(s, 16)`, checked in that order. */
  function CardUidErrors(m: Obj): seq<SchemaError> {
    match Get(m, "card_uid")
    case None => []
    case Some(v) =>
      if !v.JStr? then [WrongType("card_uid")]
      else if |v.s| != 8 then [BadLength("card_uid", |v.s|)]
      else if !ParsesAsHex(v.s) then [NotHex("card_uid", v.s)]
      else []
  }

  function AccessGrantedErrors(m: Obj): seq<SchemaError> {
    match Get(m, "access_granted")
    case Some(v) => if v.JBool? then [] else [WrongType("access_granted")]
    case None => []
  }

  function DoorActionErrors(m: Obj): seq<SchemaError> {
    match Get(m, "door_action")
    case Some(v) => if InStrings(v, DoorActions) then [] else [NotInEnum("door_action", v)]
    case None => []
  }

  /** user_name may be absent or null; otherwise a string of 1 to 50 characters. */
  function UserNameErrors(m: Obj): seq<SchemaError> {
    match Get(m, "user_name")
    case Some(v) =>
      if v.JNull? then []
      else if !v.JStr? then [WrongType("user_name")]
      else if |v.s| < 1 || |v.s| > 50 then [BadLength("user_name", |v.s|)]
      else []
    case None => []
  }

  function LocationErrors(m: Obj): seq<SchemaError> {
    match Get(m, "location")
    case Some(v) => if IsNonEmptyStr(v) then [] else [EmptyOrNotString("location")]
    case None => []
  }

  /** The error list in the order the checks run. */
  function AccessErrors(m: Obj): seq<SchemaError> {
    MissingErrors(Required, m) + CardUidErrors(m) + AccessGrantedErrors(m)
      + DoorActionErrors(m) + UserNameErrors(m) + LocationErrors(m)
  }

  method ValidateAccessSchema(m: Obj) returns (errors: seq<SchemaError>)
    ensures errors == AccessErrors(m)
  {
    errors := CheckRequired(Required, m);
    var uid := Get(m, "card_uid");
    if uid.Some? {
      if !uid.value.JStr? {
        errors := errors + [WrongType("card_uid")];
      } else if |uid.value.s| != 8 {
        errors := errors + [BadLength("card_uid", |uid.value.s|)];
      } else if !ParsesAsHex(uid.value.s) {
        errors := errors + [NotHex("card_uid", uid.value.s)];
      }
    }
    assert errors == MissingErrors(Required, m) + CardUidErrors(m);
    var granted := Get(m, "access_granted");
    if granted.Some? && !granted.value.JBool? {
      errors := errors + [WrongType("access_granted")];
    }
    assert errors == MissingErrors(Required, m) + CardUidErrors(m) + AccessGrantedErrors(m);
    var action := Get(m, "door_action");
    if action.Some? && !InStrings(action.value, DoorActions) {
      errors := errors + [NotInEnum("door_action", action.value)];
    }
    assert errors == MissingErrors(Required, m) + CardUidErrors(m) + AccessGrantedErrors(m) + DoorActionErrors(m);
    var name := Get(m, "user_name");
    if name.Some? && !name.value.JNull? {
      if !name.value.JStr? {
        errors := errors + [WrongType("user_name")];
      } else if |name.value.s| < 1 || |name.value.s| > 50 {
        errors := errors + [BadLength("user_name", |name.value.s|)];
      }
    }
    assert errors == MissingErrors(Required, m) + CardUidErrors(m) + AccessGrantedErrors(m)
                     + DoorActionErrors(m) + UserNameErrors(m);
    var location := Get(m, "location");
    if location.Some? && !IsNonEmptyStr(location.value) {
      errors := errors + [EmptyOrNotString("location")];
    }
  }

  /** A conforming access event, stated field by field. */
  predicate ConformsToAccessSchema(m: Obj) {
    && Has(m, "timestamp")
    && (match Get(m, "card_uid")
        case Some(JStr(uid)) => |uid| == 8 && ParsesAsHex(uid)
        case _ => false)
    && (match Get(m, "access_granted")
        case Some(JBool(_)) => true
        case _ => false)
    && (match Get(m, "door_action")
        case Some(action) => InStrings(action, DoorActions)
        case None => false)
    && (match Get(m, "user_name")
        case None => true
        case Some(JNull) => true
        case Some(JStr(name)) => 1 <= |name| <= 50
        case Some(_) => false)
    && (match Get(m, "location")
        case Some(location) => IsNonEmptyStr(location)
        case None => false)
  }

  lemma NoErrorsIffConforms(m: Obj)
    ensures AccessErrors(m) == [] <==> ConformsToAccessSchema(m)
  {
    NoMissingErrorsIff(Required, m);
    var sections := [MissingErrors(Required, m), CardUidErrors(m), AccessGrantedErrors(m),
                     DoorActionErrors(m), UserNameErrors(m), LocationErrors(m)];
    assert |AccessErrors(m)| == |sections[0]| + |sections[1]| + |sections[2]|
                                + |sections[3]| + |sections[4]| + |sections[5]|;
    if AccessErrors(m) == [] {
      assert Has(m, Required[0]) && Has(m, Required[1]) && Has(m, Required[2]);
      assert Has(m, Required[3]) && Has(m, Required[4]);
    }
    if ConformsToAccessSchema(m) {
      forall i | 0 <= i < |Required|
        ensures Has(m, Required[i])
      {
        assert i == 0 || i == 1 || i == 2 || i == 3 || i == 4;
      }
      assert sections[0] == [];
    }
  }

  /** A field is reported missing exactly when it is required and absent; no later check reports one. */
  lemma MissingReportedIff(m: Obj, f: string)
    ensures Missing(f) in AccessErrors(m) <==> f in Required && !Has(m, f)
  {
    MissingErrorsExact(Required, m, Missing(f));
    assert Missing(f) !in CardUidErrors(m) + AccessGrantedErrors(m) + DoorActionErrors(m);
    assert Missing(f) !in UserNameErrors(m) + LocationErrors(m);
  }

  /** user_name is never reported missing. */
  lemma UserNameOptional(m: Obj)
    ensures Missing("user_name") !in AccessErrors(m)
  {
    MissingReportedIff(m, "user_name");
  }

  // The messages of the test methods.

  function AuthorizedAccess(): Obj {
    [("timestamp", JStr("2025-09-18T10:30:00Z")), ("card_uid", JStr("A1B2C3D4")),
     ("access_granted", JBool(true)), ("door_action", JStr("unlock")),
     ("user_name", JStr("John Doe")), ("location", JStr("main_door"))]
  }

  function UnauthorizedAccess(): Obj {
    [("timestamp", JStr("2025-09-18T10:31:00Z")), ("card_uid", JStr("E5F6G7H8")),
     ("access_granted", JBool(false)), ("door_action", JStr("blocked")),
     ("user_name", JNull), ("location", JStr("main_door"))]
  }

  function InvalidAccess(): Obj {
    [("timestamp", JStr("2025-09-18T10:35:00Z")), ("card_uid", JStr("INVALID_UID")),
     ("access_granted", JStr("yes")), ("door_action", JStr("invalid_action")),
     ("user_name", JStr(seq(60, _ => 'A'))), ("location", JStr(""))]
  }

  lemma AuthorizedAccessFields()
    ensures Get(AuthorizedAccess(), "timestamp").Some?
    ensures Get(AuthorizedAccess(), "card_uid") == Some(JStr("A1B2C3D4"))
    ensures Get(AuthorizedAccess(), "access_granted") == Some(JBool(true))
    ensures Get(AuthorizedAccess(), "door_action") == Some(JStr("unlock"))
    ensures Get(AuthorizedAccess(), "user_name") == Some(JStr("John Doe"))
    ensures Get(AuthorizedAccess(), "location") == Some(JStr("main_door"))
  {
  }

  lemma AuthorizedAccessValid()
    ensures AccessErrors(AuthorizedAccess()) == []
  {
    AuthorizedAccessFields();
    HexDigitsParse("A1B2C3D4");
    assert DoorActions[0] == "unlock";
    assert ConformsToAccessSchema(AuthorizedAccess());
    NoErrorsIffConforms(AuthorizedAccess());
  }

  lemma UnauthorizedAccessFields()
    ensures Get(UnauthorizedAccess(), "timestamp").Some?
    ensures Get(UnauthorizedAccess(), "card_uid") == Some(JStr("E5F6G7H8"))
    ensures Get(UnauthorizedAccess(), "access_granted") == Some(JBool(false))
    ensures Get(UnauthorizedAccess(), "door_action") == Some(JStr("blocked"))
    ensures Get(UnauthorizedAccess(), "user_name") == Some(JNull)
    ensures Get(UnauthorizedAccess(), "location") == Some(JStr("main_door"))
  {
  }

  lemma E5F6G7H8NotHex()
    ensures !ParsesAsHex("E5F6G7H8")
  {
    var s := "E5F6G7H8";
    assert TrimLeft(s) == s && TrimRight(s) == s;
    assert AfterPrefix(AfterSign(s)) == s;
    assert !IsHexDigit(s[4]);
  }

  /** A card UID with an underscore between its digits, `ABCD_123`, draws no card_uid error. */
  lemma UnderscoredUidAccepted(m: Obj)
    requires Get(m, "card_uid") == Some(JStr("ABCD_123"))
    ensures CardUidErrors(m) == []
  {
    assert "ABCD_123" == "ABCD" + "_" + "123";
    UnderscoreBetweenDigitsParses("ABCD", "123");
  }

  /** The unregistered-card fixture fails its own validator: 'G' and 'H' are not hexadecimal digits. */
  lemma UnauthorizedAccessRejectedForHex()
    ensures AccessErrors(UnauthorizedAccess()) == [NotHex("card_uid", "E5F6G7H8")]
  {
    var m := UnauthorizedAccess();
    UnauthorizedAccessFields();
    E5F6G7H8NotHex();
    NoMissingErrorsIff(Required, m);
    forall i | 0 <= i < |Required|
      ensures Has(m, Required[i])
    {
      assert i == 0 || i == 1 || i == 2 || i == 3 || i == 4;
    }
    assert DoorActions[2] == "blocked";
    var rest := AccessGrantedErrors(m) + DoorActionErrors(m) + UserNameErrors(m) + LocationErrors(m);
    assert rest == [];
    assert AccessErrors(m) == MissingErrors(Required, m) + CardUidErrors(m) + rest;
  }

  lemma InvalidAccessRejected()
    ensures |AccessErrors(InvalidAccess())| >= 4
  {
    var m := InvalidAccess();
    assert Get(m, "timestamp").Some?;
    assert Get(m, "card_uid") == Some(JStr("INVALID_UID"));
    assert Get(m, "access_granted") == Some(JStr("yes"));
    assert Get(m, "door_action") == Some(JStr("invalid_action"));
    assert Get(m, "location") == Some(JStr(""));
    assert |CardUidErrors(m)| == 1 && |AccessGrantedErrors(m)| == 1;
    assert |DoorActionErrors(m)| == 1 && |LocationErrors(m)| == 1;
  }
}
