/**
 * Values decoded from JSON documents, as Python's `json` module yields them
 * (floating-point numbers as exact reals), with Python's truthiness, `dict.get`,
 * `int(...)`, `str(...)` and iteration over them.
 */
module Json {
  import opened Wrappers
  import Text

  datatype Json =
    | JNull
    | JBool(b: bool)
    | JInt(n: int)
    | JNum(r: real)
    | JStr(s: string)
    | JArr(items: seq<Json>)
    | JObj(fields: map<string, Json>)

  /** `bool(j)` in Python. */
  predicate Truthy(j: Json) {
    match j
    case JNull => false
    case JBool(b) => b
    case JInt(n) => n != 0
    case JNum(r) => r != 0.0
    case JStr(s) => |s| > 0
    case JArr(a) => |a| > 0
    case JObj(m) => |m| > 0
  }

  /** `o.get(k, default)`. */
  function Get(o: map<string, Json>, k: string, default: Json): Json {
    if k in o then o[k] else default
  }

  /** `a or b`. */
  function Or(a: Json, b: Json): Json {
    if Truthy(a) then a else b
  }

  /** A string literal as a JSON value. */
  function Str(s: string): Json { JStr(s) }

  /**
   * `str(j)`. A float is written out positionally (`Text.ShowReal`); a dict
   * lists `key: value` pairs, both through `repr`, in increasing key order.
   */
  function Show(j: Json): string
    decreases j, 2
  {
    match j
    case JNull => "None"
    case JBool(b) => if b then "True" else "False"
    case JInt(n) => Text.IntToString(n)
    case JNum(x) => Text.ShowReal(x)
    case JStr(s) => s
    case JArr(items) => "[" + ReprItems(items) + "]"
    case JObj(fields) => "{" + ReprFields(j, Text.SortedKeys(fields.Keys)) + "}"
  }

  /** The items of a list, each through `repr`, separated by ", ". */
  function ReprItems(items: seq<Json>): string
    decreases items, 0
  {
    if |items| == 0 then ""
    else if |items| == 1 then Repr(items[0])
    else Repr(items[0]) + ", " + ReprItems(items[1..])
  }

  /** The `key: value` pairs of a dict for the keys `ks`, separated by ", ". */
  function ReprFields(j: Json, ks: seq<string>): string
    requires j.JObj? && forall k :: k in ks ==> k in j.fields
    decreases j, 1, |ks|
  {
    if |ks| == 0 then ""
    else
      assert j.fields[ks[0]] in j.fields.Values;
      var pair := Quote(ks[0]) + ": " + Repr(j.fields[ks[0]]);
      if |ks| == 1 then pair else pair + ", " + ReprFields(j, ks[1..])
  }

  /** `repr(j)` as it appears inside a rendered list or dict. */
  function Repr(j: Json): string
    decreases j, 3
  {
    if j.JStr? then Quote(j.s) else Show(j)
  }

  /** `repr(s)` for a string. */
  function Quote(s: string): string { "'" + s + "'" }

  /** An empty dict shows as `{}`. */
  lemma ShowEmptyObject()
    ensures Show(JObj(map[])) == "{}"
  {
    var none: map<string, Json> := map[];
    assert Text.SortedKeys(none.Keys) == [];
  }

  /** A one-key dict shows as its quoted key, a colon and the value's `repr`, in braces. */
  lemma ShowSingletonObject(k: string, v: Json)
    ensures Show(JObj(map[k := v])) == "{" + Quote(k) + ": " + Repr(v) + "}"
  {
    var j := JObj(map[k := v]);
    var ks := Text.SortedKeys(j.fields.Keys);
    assert ks == [k] by {
      assert |ks| == 1 && k in ks;
    }
    assert ReprFields(j, [k]) == Quote(k) + ": " + Repr(v);
    assert Show(j) == "{" + ReprFields(j, ks) + "}";
  }

  /** A float written with at most 17 decimals, the last of them not zero, shows as written. */
  lemma ShowFloat(x: real, ip: nat, ds: string)
    requires forall i :: 0 <= i < |ds| ==> Text.IsAsciiDigit(ds[i])
    requires 1 <= |ds| <= 17 && ds[|ds| - 1] != '0'
    requires x == ip as real + Text.FracValue(ds)
    ensures Show(JNum(x)) == Text.NatToString(ip) + "." + ds
  {
    Text.ShowDecimal(x, ip, ds);
  }

  /** A negative float shows as a minus sign and its magnitude. */
  lemma ShowNegativeFloat(x: real)
    requires x > 0.0
    ensures Show(JNum(-x)) == "-" + Show(JNum(x))
  {
    Text.ShowNegative(x);
  }

  /** A whole float shows with ".0": `str(16.0)` is "16.0", unlike `str(16)`. */
  lemma ShowWholeFloat(n: int)
    ensures Show(JNum(n as real)) == Show(JInt(n)) + ".0"
  {
    Text.ShowWhole(n);
  }

  /** `type(j).__name__`. */
  function TypeName(j: Json): string {
    match j
    case JNull => "NoneType"
    case JBool(_) => "bool"
    case JInt(_) => "int"
    case JNum(_) => "float"
    case JStr(_) => "str"
    case JArr(_) => "list"
    case JObj(_) => "dict"
  }

  /** The `AttributeError` of `.get` on a value of the type named `t`. */
  function NoGet(t: string): string { "'" + t + "' object has no attribute 'get'" }

  /** `int(j)`: None where Python raises. */
  function IntOf(j: Json): Option<int> {
    match j
    case JInt(n) => Some(n)
    case JBool(b) => Some(if b then 1 else 0)
    case JNum(r) => Some(if r >= 0.0 then r.Floor else -((-r).Floor))
    case JStr(s) => Text.ParseInt(s)
    case _ => None
  }

  /** The keys of an object as JSON strings, in increasing order. */
  function KeysOf(fields: map<string, Json>): (r: seq<Json>)
    ensures |r| == |fields|
    ensures forall i :: 0 <= i < |r| ==> r[i].JStr? && r[i].s in fields
    ensures forall k :: k in fields ==> JStr(k) in r
  {
    var ks := Text.SortedKeys(fields.Keys);
    var r := seq(|ks|, i requires 0 <= i < |ks| => JStr(ks[i]));
    assert forall k :: k in fields ==> JStr(k) in r by {
      forall k | k in fields ensures JStr(k) in r {
        var i := Index(ks, k);
        assert r[i] == JStr(k);
      }
    }
    r
  }

  /** The position of `x` in `s`. */
  function Index(s: seq<string>, x: string): (i: nat)
    requires x in s
    ensures i < |s| && s[i] == x
  {
    if s[0] == x then 0 else 1 + Index(s[1..], x)
  }

  /**
   * The values a `for` loop visits: list items, the characters of a string,
   * or the keys of an object; None where Python raises "not iterable".
   */
  function Iter(j: Json): (r: Option<seq<Json>>)
    ensures r.None? <==> !(j.JArr? || j.JStr? || j.JObj?)
    ensures j.JArr? ==> r == Some(j.items)
    ensures j.JStr? ==> r.Some? && |r.value| == |j.s|
                        && forall i :: 0 <= i < |j.s| ==> r.value[i] == JStr([j.s[i]])
    ensures j.JObj? ==> r.Some? && |r.value| == |j.fields|
                        && (forall i :: 0 <= i < |r.value| ==> r.value[i].JStr? && r.value[i].s in j.fields)
                        && (forall k :: k in j.fields ==> JStr(k) in r.value)
  {
    match j
    case JArr(items) => Some(items)
    case JStr(s) => Some(seq(|s|, i requires 0 <= i < |s| => JStr([s[i]])))
    case JObj(fields) => Some(KeysOf(fields))
    case _ => None
  }

  /** `int(payload.get(key, default))`. */
  function PayloadInt(payload: map<string, Json>, key: string, default: int): Option<int> {
    IntOf(Get(payload, key, JInt(default)))
  }

  /** `int(payload.get("seed", 1337))`, the seed every job reads. */
  function Seed(payload: map<string, Json>): Option<int> { PayloadInt(payload, "seed", 1337) }

  /** The message of the `ValueError` or `TypeError` that `int(v)` raises. */
  function IntError(v: Json): string {
    if v.JStr? then "invalid literal for int() with base 10: '" + v.s + "'"
    else "int() argument must be a string, a bytes-like object or a real number, not '" + TypeName(v) + "'"
  }

  /** The message `int(payload.get("seed", 1337))` raises with. */
  function SeedError(payload: map<string, Json>): string { IntError(Get(payload, "seed", JInt(1337))) }

  /**
   * `int(payload.get(key, default))`, raising where `int` does: the default
   * when the key is absent, an integer as it is, a bool as 0 or 1, a float
   * truncated toward zero, a string by its decimal reading; anything else,
   * and a string that is not a decimal integer, raises with `int`'s message.
   */
  function IntArg(payload: map<string, Json>, key: string, default: int): (r: Result<int>)
    ensures key !in payload ==> r == Success(default)
    ensures key in payload ==> var v := payload[key];
      && (v.JInt? ==> r == Success(v.n))
      && (v.JBool? ==> r == Success(if v.b then 1 else 0))
      && (v.JNum? ==> r.Success? && (r.value as real) * v.r >= 0.0
                      && (v.r >= 0.0 ==> r.value as real <= v.r < r.value as real + 1.0)
                      && (v.r < 0.0 ==> r.value as real - 1.0 < v.r <= r.value as real))
      && (v.JStr? ==> (forall n :: v.s == Text.IntToString(n) ==> r == Success(n))
                      && (r.Failure? ==> r.error == "invalid literal for int() with base 10: '" + v.s + "'"))
      && (v.JNull? || v.JArr? || v.JObj? ==>
            r == Failure("int() argument must be a string, a bytes-like object or a real number, not '" + TypeName(v) + "'"))
    ensures r.Success? <==> PayloadInt(payload, key, default).Some?
  {
    var v := Get(payload, key, JInt(default));
    var n := IntOf(v);
    assert PayloadInt(payload, key, default) == n;
    IntOfKinds(v);
    if n.Some? then Success(n.value) else Failure(IntError(v))
  }

  /** What `int(v)` gives for each kind of JSON value. */
  lemma IntOfKinds(v: Json)
    ensures v.JInt? ==> IntOf(v) == Some(v.n)
    ensures v.JBool? ==> IntOf(v) == Some(if v.b then 1 else 0)
    ensures v.JNum? ==> IntOf(v).Some? && (IntOf(v).value as real) * v.r >= 0.0
                        && (v.r >= 0.0 ==> IntOf(v).value as real <= v.r < IntOf(v).value as real + 1.0)
                        && (v.r < 0.0 ==> IntOf(v).value as real - 1.0 < v.r <= IntOf(v).value as real)
    ensures v.JStr? ==> forall n :: v.s == Text.IntToString(n) ==> IntOf(v) == Some(n)
    ensures v.JNull? || v.JArr? || v.JObj? ==> IntOf(v).None?
  {
    IntOfText(v);
    if v.JNum? {
      Truncation(v.r);
    }
  }

  /** `int(x)` for a float: truncation toward zero keeps the sign and drops less than 1. */
  lemma Truncation(x: real)
    ensures var n := if x >= 0.0 then x.Floor else -((-x).Floor);
      (n as real) * x >= 0.0
      && (x >= 0.0 ==> n as real <= x < n as real + 1.0)
      && (x < 0.0 ==> n as real - 1.0 < x <= n as real)
  {
    var n := if x >= 0.0 then x.Floor else -((-x).Floor);
    if x >= 0.0 {
      assert n >= 0;
    } else {
      assert n <= 0;
    }
  }

  /** `int(str(n)) == n` for a JSON string. */
  lemma IntOfText(v: Json)
    ensures forall n :: v.JStr? && v.s == Text.IntToString(n) ==> IntOf(v) == Some(n)
  {
    forall n | v.JStr? && v.s == Text.IntToString(n) ensures IntOf(v) == Some(n) {
      Text.ParseIntOfIntToString(n);
    }
  }

  /**
   * `module_id not in ACTIONS` for a task's table of actions keyed by
   * `known`: an unknown id raises, and so does an unhashable one.
   */
  function ModuleCheck(moduleId: Json, known: set<string>): (r: Result<string>)
    ensures r.Success? <==> moduleId.JStr? && moduleId.s in known
    ensures r.Success? ==> r.value == moduleId.s
  {
    if moduleId.JArr? || moduleId.JObj? then Failure("unhashable type: '" + TypeName(moduleId) + "'")
    else if moduleId.JStr? && moduleId.s in known then Success(moduleId.s)
    else Failure("Unknown module_id: " + Show(moduleId))
  }

  /** A list of strings as a JSON value. */
  function StrList(ss: seq<string>): (j: Json)
    ensures j.JArr? && |j.items| == |ss|
  {
    JArr(seq(|ss|, i requires 0 <= i < |ss| => JStr(ss[i])))
  }

  /** Removes the entries whose value is null: `{k: v for k, v in d.items() if v is not None}`. */
  function DropNulls(o: map<string, Json>): (r: map<string, Json>)
    ensures forall k :: k in r <==> k in o && o[k] != JNull
    ensures forall k :: k in r ==> r[k] == o[k]
  {
    map k | k in o && o[k] != JNull :: o[k]
  }
}
