/**
 * Decoded JSON values as the Python validators and handlers see them, with
 * the Python type tests those validators apply.
 *
 * An object keeps its members in insertion order, because the validators
 * iterate `dict.items()` and the order of their error lists follows it.  A
 * Python dict never repeats a key; lookups take the first member with the key.
 */
module Json {
  import opened Wrappers

  datatype Json =
    | JNull
    | JBool(b: bool)
    | JInt(i: int)
    | JFloat                                   // a Python float; no check reads its value
    | JStr(s: string)
    | JList(items: seq<Json>)
    | JObject(members: seq<(string, Json)>)

  type Obj = seq<(string, Json)>

  /** `message_json.get(key)`: the value stored under `key`, if any. */
  function Get(m: Obj, key: string): Option<Json>
  {
    if m == [] then None
    else if m[0].0 == key then Some(m[0].1)
    else Get(m[1..], key)
  }

  /** The lookup finds the first member with the key, and only a key some member has. */
  lemma {:induction false} GetFindsFirst(m: Obj, key: string)
    ensures Get(m, key).Some? <==> exists i :: 0 <= i < |m| && m[i].0 == key
    ensures Get(m, key).Some? ==>
              exists i :: 0 <= i < |m| && m[i] == (key, Get(m, key).value)
                       && forall j :: 0 <= j < i ==> m[j].0 != key
  {
    if m != [] && m[0].0 != key {
      GetFindsFirst(m[1..], key);
      if Get(m, key).Some? {
        var i :| 0 <= i < |m[1..]| && m[1..][i] == (key, Get(m, key).value)
                 && forall j :: 0 <= j < i ==> m[1..][j].0 != key;
        assert m[i + 1] == (key, Get(m, key).value);
      }
      if exists i :: 0 <= i < |m| && m[i].0 == key {
        var i :| 0 <= i < |m| && m[i].0 == key;
        assert m[1..][i - 1].0 == key;
      }
    }
  }

  /** The member at index `i` is the one found when no earlier member has its key. */
  lemma {:induction false} GetAt(m: Obj, i: nat, key: string)
    requires i < |m| && m[i].0 == key
    requires forall j :: 0 <= j < i ==> m[j].0 != key
    ensures Get(m, key) == Some(m[i].1)
  {
    if i > 0 {
      GetAt(m[1..], i - 1, key);
    }
  }

  /** `key in message_json` */
  predicate Has(m: Obj, key: string) {
    Get(m, key).Some?
  }

  /** `isinstance(v, int)`: Python's bool is a subclass of int, so booleans pass. */
  predicate IsPyInt(v: Json) {
    v.JInt? || v.JBool?
  }

  /** The integer a value that passes `isinstance(v, int)` compares as (True is 1, False is 0). */
  function PyIntValue(v: Json): int
    requires IsPyInt(v)
  {
    if v.JInt? then v.i else if v.b then 1 else 0
  }

  /** `isinstance(v, (int, float))` */
  predicate IsPyNumber(v: Json) {
    v.JInt? || v.JFloat? || v.JBool?
  }

  /** `v in options` for a list of strings: only an equal string matches. */
  predicate InStrings(v: Json, options: seq<string>) {
    v.JStr? && v.s in options
  }

  /** `isinstance(v, str) and len(v) > 0` */
  predicate IsNonEmptyStr(v: Json) {
    v.JStr? && |v.s| > 0
  }

  /** `len(v)`: defined on strings, lists and dicts; any other value raises TypeError (None here). */
  function PyLen(v: Json): (r: Option<nat>)
    ensures r.Some? <==> (v.JStr? || v.JList? || v.JObject?)
  {
    match v
    case JStr(s) => Some(|s|)
    case JList(xs) => Some(|xs|)
    case JObject(ms) => Some(|ms|)
    case _ => None
  }
}
