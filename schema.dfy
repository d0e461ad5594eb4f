/**
 * What the contract-test validators share: the error kinds they report, the
 * loop over required fields, the loop over the elements of an action list,
 * and the test `int(s, 16)` applies to a card UID.
 *
 * An error records which check failed and the value it names; the wording of
 * the Python f-strings is not kept.
 */
module Schema {
  import opened Json

  datatype SchemaError =
    | Missing(field: string)                          // "Missing required field: <field>"
    | WrongType(field: string)                        // "<field> must be <type>"
    | NotInEnum(field: string, value: Json)           // "Invalid <field>: <value>"
    | BadLength(field: string, length: nat)           // a length bound failed; the message shows the length
    | NotHex(field: string, text: string)             // "card_uid must be hex format: <text>"
    | EmptyOrNotString(field: string)                 // "<field> must be non-empty string"
    | BadElement(field: string, value: Json)          // a list element outside the allowed actions
    | BadKey(field: string, key: string)              // "Invalid override key: <key>"
    | BadEntry(field: string, key: string, value: Json) // an object entry whose value is not allowed
    | OutOfRange(field: string, value: Json)          // an integer check failed

  /** The errors of `for field in required: if field not in m: errors.append(...)`. */
  function MissingErrors(required: seq<string>, m: Obj): seq<SchemaError>
  {
    if required == [] then []
    else
      var f := required[|required| - 1];
      MissingErrors(required[..|required| - 1], m) + (if Has(m, f) then [] else [Missing(f)])
  }

  method CheckRequired(required: seq<string>, m: Obj) returns (errors: seq<SchemaError>)
    ensures errors == MissingErrors(required, m)
  {
    errors := [];
    var i := 0;
    while i < |required|
      invariant 0 <= i <= |required|
      invariant errors == MissingErrors(required[..i], m)
    {
      assert required[..i + 1][..i] == required[..i];
      if !Has(m, required[i]) {
        errors := errors + [Missing(required[i])];
      }
      i := i + 1;
    }
    assert required[..i] == required;
  }

  /** Every error of the required-field loop names a missing required field, and every missing one is named. */
  lemma {:induction false} MissingErrorsExact(required: seq<string>, m: Obj, e: SchemaError)
    ensures e in MissingErrors(required, m) <==> e.Missing? && e.field in required && !Has(m, e.field)
  {
    if required != [] {
      var init := required[..|required| - 1];
      MissingErrorsExact(init, m, e);
      assert required == init + [required[|required| - 1]];
    }
  }

  /** With distinct required fields, each missing field is reported exactly once. */
  lemma {:induction false} MissingErrorsOnce(required: seq<string>, m: Obj, f: string)
    requires forall i, j :: 0 <= i < j < |required| ==> required[i] != required[j]
    requires f in required && !Has(m, f)
    ensures multiset(MissingErrors(required, m))[Missing(f)] == 1
  {
    var init := required[..|required| - 1];
    var last := required[|required| - 1];
    assert required == init + [last];
    if last == f {
      assert f !in init;
      MissingErrorsExact(init, m, Missing(f));
    } else {
      MissingErrorsOnce(init, m, f);
    }
  }

  lemma {:induction false} NoMissingErrorsIff(required: seq<string>, m: Obj)
    ensures MissingErrors(required, m) == [] <==> forall i :: 0 <= i < |required| ==> Has(m, required[i])
  {
    if MissingErrors(required, m) != [] {
      var e := MissingErrors(required, m)[0];
      MissingErrorsExact(required, m, e);
    }
    forall i | 0 <= i < |required| && !Has(m, required[i])
      ensures MissingErrors(required, m) != []
    {
      MissingErrorsExact(required, m, Missing(required[i]));
    }
  }

  /** The errors of `for x in xs: if x not in allowed: errors.append(...)`. */
  function ElementErrors(field: string, xs: seq<Json>, allowed: seq<string>): seq<SchemaError>
  {
    if xs == [] then []
    else
      var x := xs[|xs| - 1];
      ElementErrors(field, xs[..|xs| - 1], allowed)
        + (if InStrings(x, allowed) then [] else [BadElement(field, x)])
  }

  method CheckElements(field: string, xs: seq<Json>, allowed: seq<string>) returns (errors: seq<SchemaError>)
    ensures errors == ElementErrors(field, xs, allowed)
  {
    errors := [];
    var i := 0;
    while i < |xs|
      invariant 0 <= i <= |xs|
      invariant errors == ElementErrors(field, xs[..i], allowed)
    {
      assert xs[..i + 1][..i] == xs[..i];
      if !InStrings(xs[i], allowed) {
        errors := errors + [BadElement(field, xs[i])];
      }
      i := i + 1;
    }
    assert xs[..i] == xs;
  }

  /** One error per element outside the allowed list, in list order; order and repetition are not checked. */
  lemma {:induction false} ElementErrorsExact(field: string, xs: seq<Json>, allowed: seq<string>)
    ensures |ElementErrors(field, xs, allowed)| == |BadElements(xs, allowed)|
    ensures forall k :: 0 <= k < |ElementErrors(field, xs, allowed)| ==>
              ElementErrors(field, xs, allowed)[k] == BadElement(field, BadElements(xs, allowed)[k])
    ensures ElementErrors(field, xs, allowed) == [] <==> forall x :: x in xs ==> InStrings(x, allowed)
  {
    if xs != [] {
      var init := xs[..|xs| - 1];
      ElementErrorsExact(field, init, allowed);
      assert xs == init + [xs[|xs| - 1]];
    }
  }

  /** The elements of `xs` that are not among `allowed`, in order. */
  function BadElements(xs: seq<Json>, allowed: seq<string>): (r: seq<Json>)
    ensures forall x :: x in r <==> x in xs && !InStrings(x, allowed)
  {
    if xs == [] then []
    else
      var x := xs[|xs| - 1];
      assert xs == xs[..|xs| - 1] + [x];
      BadElements(xs[..|xs| - 1], allowed) + (if InStrings(x, allowed) then [] else [x])
  }

  // ---------------------------------------------------------------------------
  // `int(s, 16)`

  predicate IsHexDigit(c: char) {
    ('0' <= c <= '9') || ('a' <= c <= 'f') || ('A' <= c <= 'F')
  }

  predicate IsAsciiSpace(c: char) {
    c == ' ' || c == '\t' || c == '\n' || c == '\r' || c == '\U{0B}' || c == '\U{0C}'
  }

  /** `str.strip()` on the left, for the ASCII white space `int()` skips. */
  function TrimLeft(s: string): string
  {
    if s != [] && IsAsciiSpace(s[0]) then TrimLeft(s[1..]) else s
  }

  /** The same on the right. */
  function TrimRight(s: string): string
  {
    if s != [] && IsAsciiSpace(s[|s| - 1]) then TrimRight(s[..|s| - 1]) else s
  }

  /** Drops one leading `+` or `-`. */
  function AfterSign(t: string): string {
    if |t| > 0 && (t[0] == '+' || t[0] == '-') then t[1..] else t
  }

  /** Drops a leading `0x` or `0X`. */
  function AfterPrefix(u: string): string {
    if |u| >= 2 && u[0] == '0' && (u[1] == 'x' || u[1] == 'X') then u[2..] else u
  }

  predicate AllHexDigits(v: string) {
    forall i :: 0 <= i < |v| ==> IsHexDigit(v[i])
  }

  /**
   * A run MicroPython's integer parser reads to its end in base 16: each
   * character is a hexadecimal digit or `_`, which the parser steps over
   * wherever it stands.
   */
  predicate HexRun(v: string) {
    forall i :: 0 <= i < |v| ==> IsHexDigit(v[i]) || v[i] == '_'
  }

  /**
   * Whether MicroPython's `int(s, 16)` returns rather than raising ValueError:
   * surrounding white space, then an optional sign, then an optional `0x`/`0X`
   * prefix, then a non-empty run of hexadecimal digits and underscores.
   */
  predicate ParsesAsHex(s: string) {
    var digits := AfterPrefix(AfterSign(TrimRight(TrimLeft(s))));
    |digits| > 0 && HexRun(digits)
  }

  /** Any non-empty string of hexadecimal digits parses. */
  lemma HexDigitsParse(s: string)
    requires |s| > 0 && AllHexDigits(s)
    ensures ParsesAsHex(s)
  {
    assert IsHexDigit(s[0]) && IsHexDigit(s[|s| - 1]);
    assert TrimLeft(s) == s;
    assert TrimRight(s) == s;
    assert AfterSign(s) == s;
    assert AfterPrefix(s) == s;
  }

  /** Two digit strings joined by one `_` parse, as `ABCD_123` does. */
  lemma UnderscoreBetweenDigitsParses(a: string, b: string)
    requires |a| > 0 && AllHexDigits(a) && AllHexDigits(b)
    ensures ParsesAsHex(a + "_" + b)
  {
    var s := a + "_" + b;
    assert s[0] == a[0] && IsHexDigit(s[0]);
    assert TrimLeft(s) == s;
    assert s[|s| - 1] == (if |b| > 0 then b[|b| - 1] else '_');
    assert TrimRight(s) == s;
    assert AfterSign(s) == s;
    assert AfterPrefix(s) == s by {
      if |a| == 1 {
        assert s[1] == '_';
      } else {
        assert s[1] == a[1] && IsHexDigit(a[1]);
      }
    }
    forall i | 0 <= i < |s|
      ensures IsHexDigit(s[i]) || s[i] == '_'
    {
      if i < |a| {
        assert s[i] == a[i];
      } else if i > |a| {
        assert s[i] == b[i - |a| - 1];
      }
    }
  }
}
