/**
 * Module discovery: every `app/modules/<dir>/manifest.json` yields one record,
 * either the manifest annotated with its path or an error record naming the
 * directory and the reason.
 */
module Loader {
  import opened Wrappers
  import opened Json
  import opened Text
  import opened Fs

  /** The keys every manifest must have, in the order they are checked. */
  const RequiredFields: seq<string> := [
    "id", "name", "version", "description",
    "capabilities", "task", "inputs", "outputs",
    "ui_panels", "model_constraints", "pipelines",
    "resources", "guardrails", "autotrain", "schema_version"
  ]

  function ManifestPath(dirName: string): string { Child(Child(ModulesDir, dirName), "manifest.json") }

  /** `{"id": <dir name>, "error": str(e)}`. */
  function ErrorRecord(dirName: string, reason: string): Json {
    JObj(map["id" := JStr(dirName), "error" := JStr(reason)])
  }

  /** The first key of `keys` for which `has` is false. */
  function FirstMissing(keys: seq<string>, has: string -> bool): (r: Option<string>)
    ensures r.None? <==> forall i :: 0 <= i < |keys| ==> has(keys[i])
    ensures r.Some? ==> exists i :: 0 <= i < |keys| && keys[i] == r.value && !has(keys[i])
                                  && forall j :: 0 <= j < i ==> has(keys[j])
  {
    if |keys| == 0 then None
    else if !has(keys[0]) then Some(keys[0])
    else
      var r := FirstMissing(keys[1..], has);
      if r.Some? then
        ghost var i :| 0 <= i < |keys[1..]| && keys[1..][i] == r.value && !has(keys[1..][i])
                       && forall j :: 0 <= j < i ==> has(keys[1..][j]);
        assert keys[i + 1] == r.value && forall j :: 0 <= j < i + 1 ==> has(keys[j]);
        r
      else r
  }

  /** The first failing key is the one at the first failing index. */
  lemma FirstMissingAt(keys: seq<string>, has: string -> bool, i: nat)
    requires i < |keys| && !has(keys[i]) && forall j :: 0 <= j < i ==> has(keys[j])
    ensures FirstMissing(keys, has) == Some(keys[i])
  {
    var r := FirstMissing(keys, has);
    var i' :| 0 <= i' < |keys| && keys[i'] == r.value && !has(keys[i'])
              && forall j :: 0 <= j < i' ==> has(keys[j]);
    assert i' == i;
  }

  function HasKey(o: map<string, Json>): string -> bool { k => k in o }

  /** The required-field check and path annotation applied to a decoded manifest. */
  function Check(dirName: string, path: string, data: Json): (r: Json)
    ensures r.JObj?
  {
    match data
    case JObj(o) =>
      (match FirstMissing(RequiredFields, HasKey(o))
       case Some(k) => ErrorRecord(dirName, "manifest missing field: " + k)
       case None => JObj(o["_manifest_path" := JStr(path)]))
    case JArr(items) =>
      // `k not in data` tests list membership; the final item assignment then fails.
      (match FirstMissing(RequiredFields, k => JStr(k) in items)
       case Some(k) => ErrorRecord(dirName, "manifest missing field: " + k)
       case None => ErrorRecord(dirName, "list indices must be integers or slices, not str"))
    case JStr(s) =>
      // `k not in data` tests substrings; the final item assignment then fails.
      (match FirstMissing(RequiredFields, k => Contains(s, k))
       case Some(k) => ErrorRecord(dirName, "manifest missing field: " + k)
       case None => ErrorRecord(dirName, "'str' object does not support item assignment"))
    case _ => ErrorRecord(dirName, "argument of type '" + TypeName(data) + "' is not iterable")
  }

  /** The record discovery produces for the module directory `dirName`. */
  function Record(t: Tree, dirName: string): (r: Json)
    ensures r.JObj?
  {
    match LoadJson(t, ManifestPath(dirName))
    case Failure(e) => ErrorRecord(dirName, e)
    case Success(data) => Check(dirName, ManifestPath(dirName), data)
  }

  /**
   * A manifest object is accepted exactly when every required key is present;
   * it is then returned with `_manifest_path` added. Otherwise the error names
   * the first missing key in declaration order.
   */
  lemma ObjectManifest(dirName: string, path: string, o: map<string, Json>)
    ensures (forall i :: 0 <= i < |RequiredFields| ==> RequiredFields[i] in o) ==>
              Check(dirName, path, JObj(o)) == JObj(o["_manifest_path" := JStr(path)])
    ensures forall i :: 0 <= i < |RequiredFields| && RequiredFields[i] !in o
                        && (forall j :: 0 <= j < i ==> RequiredFields[j] in o) ==>
              Check(dirName, path, JObj(o)) == ErrorRecord(dirName, "manifest missing field: " + RequiredFields[i])
  {
    forall i | 0 <= i < |RequiredFields| && RequiredFields[i] !in o
               && (forall j :: 0 <= j < i ==> RequiredFields[j] in o)
      ensures Check(dirName, path, JObj(o)) == ErrorRecord(dirName, "manifest missing field: " + RequiredFields[i])
    {
      FirstMissingAt(RequiredFields, HasKey(o), i);
    }
  }

  /** `dirName` names a directory directly inside the modules directory that holds a manifest. */
  predicate ManifestDir(t: Tree, dirName: string) {
    |dirName| > 0 && (forall i :: 0 <= i < |dirName| ==> dirName[i] != '/') && Exists(t, ManifestPath(dirName))
  }

  /** `found` is the glob listing of the manifests: each module directory once, in the order the file system gives. */
  ghost predicate ListsManifests(t: Tree, found: seq<string>) {
    (forall d :: d in found <==> ManifestDir(t, d))
    && forall i, j :: 0 <= i < j < |found| ==> found[i] != found[j]
  }

  /** `discover_modules()`: one record per manifest found, in glob order. */
  method DiscoverModules(t: Tree, found: seq<string>) returns (records: seq<Json>)
    requires ListsManifests(t, found)
    ensures |records| == |found|
    ensures forall d :: ManifestDir(t, d) ==> exists i :: 0 <= i < |records| && records[i] == Record(t, d)
    ensures forall i :: 0 <= i < |found| ==> records[i] == Record(t, found[i])
  {
    records := [];
    var i := 0;
    while i < |found|
      invariant 0 <= i <= |found|
      invariant |records| == i
      invariant forall j :: 0 <= j < i ==> records[j] == Record(t, found[j])
    {
      records := records + [Record(t, found[i])];
      i := i + 1;
    }
    forall d | ManifestDir(t, d)
      ensures exists i :: 0 <= i < |records| && records[i] == Record(t, d)
    {
      var k :| 0 <= k < |found| && found[k] == d;
      assert records[k] == Record(t, d);
    }
  }
}
