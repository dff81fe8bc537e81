/**
 * Reading metrics documents back: all documents of a capability, the newest
 * one (by timestamp string) for a model, and a document by file name.
 */
module Readers {
  import opened Wrappers
  import opened Text
  import opened Json
  import opened Fs
  import Recorder

  /** `ARTIFACTS_METRICS / capability`. */
  function CapabilityDir(capability: string): string { Child(MetricsDir, capability) }

  /** A directory that does not exist lists nothing. */
  lemma EmptyListing(t: Tree, dir: string, paths: seq<string>)
    requires Enumerates(t, dir, paths)
    ensures !Exists(t, dir) ==> paths == []
  {
    if |paths| > 0 {
      assert paths[0] in JsonGlob(t, dir);
      assert HasPrefix(paths[0], dir + "/");
    }
  }

  /** `list_metrics(capability)`: nothing when the directory is absent, else every document that loads. */
  method ListMetrics(t: Tree, capability: string, paths: seq<string>) returns (items: seq<Json>)
    requires Enumerates(t, CapabilityDir(capability), paths)
    ensures !Exists(t, CapabilityDir(capability)) ==> items == []
    ensures items == Loaded(t, paths)
    ensures forall v :: v in items <==> exists i :: 0 <= i < |paths| && LoadJson(t, paths[i]) == Success(v)
  {
    EmptyListing(t, CapabilityDir(capability), paths);
    if !Exists(t, CapabilityDir(capability)) {
      return [];
    }
    items := ListJson(t, paths);
    LoadedComplete(t, paths);
  }

  /** The documents as dictionaries; `x.get` on anything else raises. */
  function AsDicts(items: seq<Json>): (r: Result<seq<map<string, Json>>>)
    ensures r.Success? <==> forall i :: 0 <= i < |items| ==> items[i].JObj?
    ensures r.Success? ==> |r.value| == |items| && forall i :: 0 <= i < |items| ==> items[i] == JObj(r.value[i])
  {
    if |items| == 0 then Success([])
    else if !items[0].JObj? then Failure(NoGet(TypeName(items[0])))
    else
      var rest := AsDicts(items[1..]);
      if rest.Failure? then rest else Success([items[0].fields] + rest.value)
  }

  /** `(not model_id) or x.get("model_id") == model_id`. */
  predicate Matches(x: map<string, Json>, modelId: Option<string>) {
    modelId.None? || modelId.value == "" || Get(x, "model_id", JNull) == JStr(modelId.value)
  }

  /** `[x for x in items if Matches(x)]`. */
  function Matching(ds: seq<map<string, Json>>, modelId: Option<string>): (r: seq<map<string, Json>>)
    ensures |r| <= |ds|
    ensures forall x :: x in r <==> x in ds && Matches(x, modelId)
    ensures modelId.None? || modelId.value == "" ==> r == ds
  {
    if |ds| == 0 then []
    else if Matches(ds[0], modelId) then [ds[0]] + Matching(ds[1..], modelId)
    else Matching(ds[1..], modelId)
  }

  /** The sort key `x.get("timestamp", "")`. */
  function Stamp(x: map<string, Json>): Json { Get(x, "timestamp", JStr("")) }

  /** The families of values Python's `<` orders among themselves: numbers (with bools), and strings. */
  datatype Family = Numeric | Textual | Unordered

  function FamilyOf(j: Json): Family {
    match j
    case JInt(_) => Numeric
    case JBool(_) => Numeric
    case JNum(_) => Numeric
    case JStr(_) => Textual
    case _ => Unordered
  }

  /** The value a number or bool compares by. */
  function NumVal(j: Json): real
    requires FamilyOf(j) == Numeric
  {
    match j
    case JInt(n) => n as real
    case JBool(b) => if b then 1.0 else 0.0
    case JNum(r) => r
  }

  /** Python's `a < b` on two values of one ordered family; false otherwise. */
  predicate KeyLess(a: Json, b: Json) {
    if FamilyOf(a) == Numeric && FamilyOf(b) == Numeric then NumVal(a) < NumVal(b)
    else if a.JStr? && b.JStr? then LexLess(a.s, b.s)
    else false
  }

  /** Every timestamp belongs to the ordered family `f`. */
  predicate StampsIn(ds: seq<map<string, Json>>, f: Family) {
    forall i :: 0 <= i < |ds| ==> FamilyOf(Stamp(ds[i])) == f
  }

  /**
   * The sort can order the items: at most one item, or all timestamps
   * numbers and bools, or all strings.
   */
  predicate Sortable(ds: seq<map<string, Json>>) {
    |ds| <= 1 || StampsIn(ds, Numeric) || StampsIn(ds, Textual)
  }

  /**
   * `k` is the first item of the stable descending sort by timestamp: no
   * timestamp is greater than its own, and every earlier one is smaller.
   */
  predicate IsLatest(ds: seq<map<string, Json>>, k: nat) {
    k < |ds|
    && (forall j :: 0 <= j < |ds| ==> !KeyLess(Stamp(ds[k]), Stamp(ds[j])))
    && (forall j :: 0 <= j < k ==> KeyLess(Stamp(ds[j]), Stamp(ds[k])))
  }

  /** The first item of the descending sort is determined by the items. */
  lemma LatestUnique(ds: seq<map<string, Json>>, k: nat, k': nat)
    requires IsLatest(ds, k) && IsLatest(ds, k')
    ensures k == k'
  {
    var a, b := Stamp(ds[k]), Stamp(ds[k']);
    assert !KeyLess(a, b) && !KeyLess(b, a);
  }

  lemma KeyLessIrreflexive(a: Json)
    ensures !KeyLess(a, a)
  {
    if a.JStr? {
      LexLessIrreflexive(a.s);
    }
  }

  /** Within one ordered family: a value not above `a` is below anything above `a`. */
  lemma KeyLessStep(a: Json, b: Json, c: Json, f: Family)
    requires f != Unordered && FamilyOf(a) == f && FamilyOf(b) == f && FamilyOf(c) == f
    requires KeyLess(a, b) && !KeyLess(a, c)
    ensures KeyLess(c, b) && !KeyLess(b, c)
  {
    if f == Textual {
      if c.s != a.s {
        LexLessTotal(c.s, a.s);
        LexLessTrans(c.s, a.s, b.s);
      } else {
        assert c.s == a.s;
      }
      if LexLess(b.s, c.s) {
        LexLessTrans(b.s, c.s, b.s);
        LexLessIrreflexive(b.s);
      }
    }
  }

  /** The scan that finds the first item of the descending sort. */
  method FirstLatest(ds: seq<map<string, Json>>, f: Family) returns (k: nat)
    requires |ds| > 0 && f != Unordered && StampsIn(ds, f)
    ensures IsLatest(ds, k)
  {
    k := 0;
    var i := 1;
    KeyLessIrreflexive(Stamp(ds[0]));
    while i < |ds|
      invariant k < i <= |ds|
      invariant forall j :: 0 <= j < i ==> !KeyLess(Stamp(ds[k]), Stamp(ds[j]))
      invariant forall j :: 0 <= j < k ==> KeyLess(Stamp(ds[j]), Stamp(ds[k]))
    {
      var a := Stamp(ds[k]);
      var b := Stamp(ds[i]);
      if KeyLess(a, b) {
        forall j | 0 <= j < i
          ensures KeyLess(Stamp(ds[j]), b) && !KeyLess(b, Stamp(ds[j]))
        {
          KeyLessStep(a, b, Stamp(ds[j]), f);
        }
        KeyLessIrreflexive(b);
        k := i;
      }
      i := i + 1;
    }
  }

  /**
   * `items.sort(key=timestamp, reverse=True); items[0] if items else {}`.
   * Python's sort compares every pair it places next to each other, so it
   * raises exactly when two or more items carry timestamps that `<` cannot
   * order: a string beside a number, or None, a dict or a list.
   */
  method Newest(ds: seq<map<string, Json>>) returns (r: Result<Json>)
    ensures |ds| == 0 ==> r == Success(JObj(map[]))
    ensures |ds| == 1 ==> r == Success(JObj(ds[0]))
    ensures |ds| > 0 && Sortable(ds) ==> exists k: nat :: IsLatest(ds, k) && r == Success(JObj(ds[k]))
    ensures !Sortable(ds) ==> r == Failure(CompareError)
  {
    if |ds| == 0 {
      return Success(JObj(map[]));
    }
    if |ds| == 1 {
      assert IsLatest(ds, 0) by { KeyLessIrreflexive(Stamp(ds[0])); }
      return Success(JObj(ds[0]));
    }
    if StampsIn(ds, Numeric) {
      var k := FirstLatest(ds, Numeric);
      return Success(JObj(ds[k]));
    }
    if StampsIn(ds, Textual) {
      var k := FirstLatest(ds, Textual);
      return Success(JObj(ds[k]));
    }
    return Failure(CompareError);
  }

  const CompareError: string := "'<' not supported between instances of the timestamp types"

  /** `latest_metric(capability, model_id)`. */
  method LatestMetric(t: Tree, capability: string, paths: seq<string>, modelId: Option<string>) returns (r: Result<Json>)
    requires Enumerates(t, CapabilityDir(capability), paths)
    ensures AsDicts(Loaded(t, paths)).Failure? ==> r == Failure(AsDicts(Loaded(t, paths)).error)
    ensures AsDicts(Loaded(t, paths)).Success? ==>
      var ms := Matching(AsDicts(Loaded(t, paths)).value, modelId);
      (|ms| == 0 ==> r == Success(JObj(map[])))
      && (|ms| > 0 && Sortable(ms) ==> exists k: nat :: IsLatest(ms, k) && r == Success(JObj(ms[k])))
      && (!Sortable(ms) ==> r == Failure(CompareError))
      && (|ms| == 1 ==> r == Success(JObj(ms[0])))
  {
    var items := ListMetrics(t, capability, paths);
    var ds := AsDicts(items);
    if ds.Failure? {
      return Failure(ds.error);
    }
    r := Newest(Matching(ds.value, modelId));
  }

  /** `dirs[i]` is the first directory of the listing that holds `filename`. */
  predicate FirstHolder(t: Tree, dirs: seq<string>, filename: string, i: int) {
    0 <= i < |dirs| && Exists(t, Child(dirs[i], filename))
    && forall j :: 0 <= j < i ==> !Exists(t, Child(dirs[j], filename))
  }

  /** The document the first directory holding `filename` yields, if it loads. */
  function ByFilename(t: Tree, dirs: seq<string>, filename: string): Option<Json>
    decreases |dirs|
  {
    if |dirs| == 0 then None
    else if Exists(t, Child(dirs[0], filename)) then
      match LoadJson(t, Child(dirs[0], filename))
      case Success(v) => Some(v)
      case Failure(_) => None
    else ByFilename(t, dirs[1..], filename)
  }

  /**
   * The search stops at the first directory holding the file: it yields that
   * file's document when it loads, and nothing otherwise, whatever later
   * directories hold.
   */
  lemma {:induction false} ByFilenameFirst(t: Tree, dirs: seq<string>, filename: string)
    ensures ByFilename(t, dirs, filename).None? ==>
      forall i :: FirstHolder(t, dirs, filename, i) ==> LoadJson(t, Child(dirs[i], filename)).Failure?
    ensures ByFilename(t, dirs, filename).Some? ==>
      exists i :: FirstHolder(t, dirs, filename, i)
                  && LoadJson(t, Child(dirs[i], filename)) == Success(ByFilename(t, dirs, filename).value)
    decreases |dirs|
  {
    if |dirs| > 0 && !Exists(t, Child(dirs[0], filename)) {
      var rest := dirs[1..];
      ByFilenameFirst(t, rest, filename);
      forall i | FirstHolder(t, dirs, filename, i) ensures i > 0 && FirstHolder(t, rest, filename, i - 1) {
        forall j | 0 <= j < i - 1 ensures !Exists(t, Child(rest[j], filename)) {
          assert rest[j] == dirs[j + 1];
        }
      }
      if ByFilename(t, dirs, filename).Some? {
        var i :| FirstHolder(t, rest, filename, i)
                 && LoadJson(t, Child(rest[i], filename)) == Success(ByFilename(t, dirs, filename).value);
        forall j | 0 <= j < i + 1 ensures !Exists(t, Child(dirs[j], filename)) {
          if j > 0 {
            assert dirs[j] == rest[j - 1];
          }
        }
        assert FirstHolder(t, dirs, filename, i + 1);
      }
    } else if |dirs| > 0 {
      assert FirstHolder(t, dirs, filename, 0);
      forall i | FirstHolder(t, dirs, filename, i) ensures i == 0 { }
    }
  }

  /**
   * Recording metrics for a model makes `metric_by_filename("<model>.json")`
   * return the recorded document, when the capability's directory is the
   * first one listed that holds that file name.
   */
  lemma RecordedThenFound(t: Tree, enc: Encoder, dirs: seq<string>, capability: string, modelId: string,
                          doc: map<string, Json>, i: nat)
    requires i < |dirs| && dirs[i] == CapabilityDir(capability)
    requires var t' := t[Recorder.MetricsPath(capability, modelId) := enc.Node(JObj(doc))];
      forall j :: 0 <= j < i ==> !Exists(t', Child(dirs[j], modelId + ".json"))
    ensures var t' := t[Recorder.MetricsPath(capability, modelId) := enc.Node(JObj(doc))];
      ByFilename(t', dirs, modelId + ".json") == Some(JObj(doc))
  {
    var t' := t[Recorder.MetricsPath(capability, modelId) := enc.Node(JObj(doc))];
    var f := modelId + ".json";
    assert Child(dirs[i], f) == Recorder.MetricsPath(capability, modelId);
    assert FirstHolder(t', dirs, f, i);
    ByFilenameFirst(t', dirs, f);
    forall k | FirstHolder(t', dirs, f, k) ensures k == i { }
  }

  /** `metric_by_filename(filename)` over the listing `dirs` of the metrics directory. */
  method MetricByFilename(t: Tree, dirs: seq<string>, filename: string) returns (r: Option<Json>)
    requires EnumeratesChildren(t, MetricsDir, dirs)
    ensures r == ByFilename(t, dirs, filename)
    ensures r.Some? <==> exists i :: FirstHolder(t, dirs, filename, i) && LoadJson(t, Child(dirs[i], filename)).Success?
    ensures r.Some? ==> exists i :: FirstHolder(t, dirs, filename, i) && LoadJson(t, Child(dirs[i], filename)) == Success(r.value)
  {
    ByFilenameFirst(t, dirs, filename);
    var i := 0;
    while i < |dirs|
      invariant 0 <= i <= |dirs|
      invariant forall j :: 0 <= j < i ==> !Exists(t, Child(dirs[j], filename))
      invariant ByFilename(t, dirs, filename) == ByFilename(t, dirs[i..], filename)
    {
      var candidate := Child(dirs[i], filename);
      if Exists(t, candidate) {
        var doc := LoadJson(t, candidate);
        if doc.Success? {
          return Some(doc.value);
        }
        return None;
      }
      assert dirs[i..][1..] == dirs[i + 1..];
      i := i + 1;
    }
    return None;
  }
}
