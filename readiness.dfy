/**
 * The readiness gate: the checks the backend runs before the runtime may
 * start. Each check contributes typed error items to one ordered list, and
 * the status is "ready" exactly when that list is empty. A `Run` carries the
 * items a stretch of checks produced and the exception that ended it early,
 * if any; where the source catches that exception the items so far are kept,
 * and where nothing catches it the whole gate is a Failure.
 */
module Readiness {
  import opened Wrappers
  import opened Json
  import opened Text
  import opened Fs
  import Recorder
  import Datasets
  import Backend
  import Guardrails
  import Loader

  // ---------------------------------------------------------------- error items

  /** Which error an item reports; each has its own code, message, hint and log file. */
  datatype Kind =
    | BadManifest | WorkspaceUnreadable | NoMappingsFile | MappingsUnreadable | NoModel | NoModelByCapability
    | ModelEntryMissing | NetEntryMissing | DatasetEntryMissing | DatasetFileMissing | ChecksumDiffers
    | NoMetrics | Unrunnable | NoWordnetRoot | NoWordnetIndex | NoSynthDialogs | ChatCheckRaised
    | NoPredictorSamples | BadMaxTokens | EmptyFileTypes | GuardrailsUnreadable | DirReadOnly

  /** An error item: its kind, the text its message is about, and its extra keys. */
  datatype Item = Item(kind: Kind, arg: string, extra: map<string, Json>)

  /** The `error_code` of each kind. */
  function Code(k: Kind): string {
    match k
    case BadManifest => "manifest_invalid"
    case WorkspaceUnreadable => "workspace_read_failed"
    case NoMappingsFile | NoModel | NoModelByCapability => "mapping_incomplete"
    case MappingsUnreadable => "mapping_read_failed"
    case ModelEntryMissing | NetEntryMissing | DatasetEntryMissing => "registry_missing"
    case DatasetFileMissing => "dataset_missing"
    case ChecksumDiffers => "dataset_checksum_mismatch"
    case NoMetrics => "artifact_missing"
    case Unrunnable => "model_not_runnable"
    case NoWordnetRoot => "wordnet_root_missing"
    case NoWordnetIndex => "wordnet_index_missing"
    case NoSynthDialogs => "wordnet_synth_missing"
    case ChatCheckRaised => "readiness_internal"
    case NoPredictorSamples => "predictor_dataset_missing"
    case BadMaxTokens | EmptyFileTypes => "guardrails_invalid"
    case GuardrailsUnreadable => "guardrails_read_failed"
    case DirReadOnly => "filesystem_readonly"
  }

  /** The `human_message` of an item of kind `k` about `arg`. */
  function Human(k: Kind, arg: string): string {
    match k
    case BadManifest => "Module manifest " + arg + " is invalid."
    case WorkspaceUnreadable => "Failed to read pending workspace: " + arg
    case NoMappingsFile => "One or more selected modules are not Ready (no model mappings)."
    case MappingsUnreadable => "Failed to read mappings.json: " + arg
    case NoModel => "Module " + arg + " has no mapped model."
    case NoModelByCapability => "Module " + arg + " has no mapped model via capability_map."
    case ModelEntryMissing | NetEntryMissing | DatasetEntryMissing => "Missing registry entry " + arg + "."
    case DatasetFileMissing => "Dataset file missing: " + arg
    case ChecksumDiffers => "Dataset checksum mismatch: " + arg
    case NoMetrics => "Missing artifact: " + arg
    case Unrunnable => "Model not runnable (no weights)."
    case NoWordnetRoot => "WordNet-3.0 folder not found at " + WordnetRoot
    case NoWordnetIndex => "WordNet index not found at " + IndexPath
    case NoSynthDialogs => "Synthetic dialog dataset not found under " + ArtifactDatasetsDir
    case ChatCheckRaised => "Error checking chat readiness: " + arg
    case NoPredictorSamples => "Predictor sample dataset not found at " + SampleCsv
    case BadMaxTokens => "Guardrails max_tokens must be an integer >= 1."
    case EmptyFileTypes => "Guardrails allowed_file_types cannot be empty when files are enabled."
    case GuardrailsUnreadable => "Failed to read guardrails: " + arg
    case DirReadOnly => "Artifacts directory not writable: " + arg
  }

  /** The `hint` of each kind. */
  function Hint(k: Kind): string {
    match k
    case BadManifest => "Validate fields against docs/specs/module_manifest_schema.json."
    case WorkspaceUnreadable => "Re-save your selection on Site 1."
    case NoMappingsFile => "Open Site 2 (Model Selection & Ops) and map exactly one compatible model per module."
    case MappingsUnreadable => "Re-save mappings on Site 2."
    case NoModel | NoModelByCapability => "Map exactly one compatible model for this module."
    case ModelEntryMissing => "Create model or import registry entry."
    case NetEntryMissing => "Create NN or import registry entry."
    case DatasetEntryMissing => "Register dataset or import registry entry."
    case DatasetFileMissing => "Re-import dataset or regenerate."
    case ChecksumDiffers => "Regenerate with the same seed or update registry."
    case NoMetrics => "Run evaluation to produce metrics."
    case Unrunnable =>
      "Train or attach local weights/tokenizer and set an inference_adapter, or switch the model to retrieval mode."
    case NoWordnetRoot => "Place the WordNet-3.0 folder at the repository root."
    case NoWordnetIndex => "Run modules/lexicon-wordnet3/pipelines/build_index.py to build the retrieval index."
    case NoSynthDialogs => "Run modules/lexicon-wordnet3/pipelines/synth_dialogs.py --seed 1337 to generate."
    case ChatCheckRaised => "See logs."
    case NoPredictorSamples => "Place ohlcv.csv under modules/predictor-finance/data/samples or generate synthetic data."
    case BadMaxTokens => "Open the Guardrails panel and set a valid max_tokens."
    case EmptyFileTypes => "Add at least one file extension or disable file access in modules."
    case GuardrailsUnreadable => "Reset guardrails via POST /api/guardrails."
    case DirReadOnly => "Fix permissions or path."
  }

  /** The log file named by `where_to_find_logs` for each kind. */
  function LogName(k: Kind): string {
    match k
    case BadManifest => "modules.txt"
    case WorkspaceUnreadable | NoMappingsFile | MappingsUnreadable | NoModel | NoModelByCapability => "workspace.txt"
    case ModelEntryMissing | NetEntryMissing | DatasetEntryMissing => "registry.txt"
    case DatasetFileMissing | ChecksumDiffers | NoPredictorSamples => "datasets.txt"
    case NoMetrics => "artifacts.txt"
    case Unrunnable => "runtime.txt"
    case NoWordnetRoot | NoWordnetIndex | NoSynthDialogs | ChatCheckRaised => "wordnet.txt"
    case BadMaxTokens | EmptyFileTypes | GuardrailsUnreadable => "guardrails.txt"
    case DirReadOnly => "fs.txt"
  }

  const FixedKeys: set<string> := {"error_code", "human_message", "hint", "where_to_find_logs"}

  /** `make_err(code, human, hint, log_name, extra)`: the four fixed keys, updated with the extra ones. */
  function MakeErr(code: string, human: string, hint: string, logName: string, extra: map<string, Json>)
    : (item: map<string, Json>)
    ensures item.Keys == FixedKeys + extra.Keys
    ensures forall k :: k in extra ==> item[k] == extra[k]
    ensures "error_code" !in extra ==> item["error_code"] == JStr(code)
    ensures "human_message" !in extra ==> item["human_message"] == JStr(human)
    ensures "where_to_find_logs" !in extra ==> item["where_to_find_logs"] == JStr(Child(LogsDir, logName))
  {
    var base := map["error_code" := JStr(code), "human_message" := JStr(human), "hint" := JStr(hint),
                    "where_to_find_logs" := JStr(Child(LogsDir, logName))];
    if |extra| > 0 then base + extra else base
  }

  function ItemJson(e: Item): Json {
    JObj(MakeErr(Code(e.kind), Human(e.kind, e.arg), Hint(e.kind), LogName(e.kind), e.extra))
  }

  function ManifestInvalid(v: map<string, Json>): Item {
    var id := Get(v, "id", JNull);
    Item(BadManifest, Show(id), map["details" := Get(v, "error", JNull), "module_id" := id])
  }

  function WorkspaceReadFailed(e: string): Item { Item(WorkspaceUnreadable, e, map[]) }

  function NoMappings(selected: Json): Item { Item(NoMappingsFile, "", map["selected_modules" := selected]) }

  function MappingReadFailed(e: string): Item { Item(MappingsUnreadable, e, map[]) }

  function Unmapped(mid: Json): Item { Item(NoModel, Show(mid), map["module_id" := mid]) }

  function UnmappedByCapability(mid: Json): Item { Item(NoModelByCapability, Show(mid), map["module_id" := mid]) }

  /** `registry_missing` for the model entry at `path`. */
  function ModelMissing(path: string, modelId: Json): Item { Item(ModelEntryMissing, path, map["model_id" := modelId]) }

  function DatasetMissing(fpath: string, ds: Json): Item { Item(DatasetFileMissing, fpath, map["dataset_id" := ds]) }

  function ChecksumMismatch(fpath: string, ds: Json, sha: Json, digest: string): Item {
    Item(ChecksumDiffers, fpath, map["dataset_id" := ds, "expected" := sha, "actual" := JStr(digest)])
  }

  function ArtifactMissing(mp: string, modelId: Json): Item { Item(NoMetrics, mp, map["model_id" := modelId]) }

  function NotRunnable(modelId: Json, fields: seq<string>, files: seq<string>): (e: Item)
    ensures "missing_fields" in e.extra <==> |fields| > 0
    ensures "missing_files" in e.extra <==> |files| > 0
    ensures |fields| > 0 ==> e.extra["missing_fields"] == StrList(fields)
    ensures |files| > 0 ==> e.extra["missing_files"] == StrList(files)
  {
    var base := map["model_id" := modelId];
    var withFields := if |fields| > 0 then base["missing_fields" := StrList(fields)] else base;
    Item(Unrunnable, "", if |files| > 0 then withFields["missing_files" := StrList(files)] else withFields)
  }

  const WordnetRootMissing: Item := Item(NoWordnetRoot, "", map[])
  const WordnetIndexMissing: Item := Item(NoWordnetIndex, "", map[])
  const SynthMissing: Item := Item(NoSynthDialogs, "", map[])

  function ChatInternal(e: string): Item { Item(ChatCheckRaised, e, map[]) }

  const PredictorDir: string := Child(ModulesDir, "predictor-finance")
  const PredictorManifest: string := Child(PredictorDir, "manifest.json")
  const SampleCsv: string := Child(Child(Child(PredictorDir, "data"), "samples"), "ohlcv.csv")

  const PredictorMissing: Item := Item(NoPredictorSamples, "", map[])
  const MaxTokensInvalid: Item := Item(BadMaxTokens, "", map[])
  const FileTypesEmpty: Item := Item(EmptyFileTypes, "", map[])

  function GuardrailsReadFailed(e: string): Item { Item(GuardrailsUnreadable, e, map[]) }

  function ReadOnly(dir: string, e: string): Item { Item(DirReadOnly, dir + " (" + e + ")", map[]) }

  // ---------------------------------------------------------------- runs of checks

  /** The items a stretch of checks appended, and the exception that ended it, if any. */
  datatype Run = Run(errs: seq<Item>, raised: Option<string>)

  /** `f` run on each element in order, stopping at the first exception. */
  function Steps<A>(xs: seq<A>, f: A -> Run): Run
    decreases |xs|
  {
    if |xs| == 0 then Run([], None)
    else
      var r := Steps(xs[..|xs| - 1], f);
      if r.raised.Some? then r
      else
        var s := f(xs[|xs| - 1]);
        Run(r.errs + s.errs, s.raised)
  }

  /** Once an element raises, the later ones change nothing. */
  lemma {:induction false} StepsStop<A>(xs: seq<A>, f: A -> Run, i: nat)
    requires i <= |xs| && Steps(xs[..i], f).raised.Some?
    ensures Steps(xs, f) == Steps(xs[..i], f)
    decreases |xs| - i
  {
    if i == |xs| {
      assert xs[..i] == xs;
    } else {
      assert xs[..i + 1][..i] == xs[..i];
      StepsStop(xs, f, i + 1);
    }
  }

  /** One more element after a stretch that did not raise. */
  lemma StepsSnoc<A>(xs: seq<A>, f: A -> Run, i: nat)
    requires i < |xs| && Steps(xs[..i], f).raised.None?
    ensures Steps(xs[..i + 1], f) == Run(Steps(xs[..i], f).errs + f(xs[i]).errs, f(xs[i]).raised)
  {
    assert xs[..i + 1][..i] == xs[..i];
  }

  /** Items all of whose kinds are among `kinds`. */
  predicate KindsIn(errs: seq<Item>, kinds: set<Kind>) {
    forall i :: 0 <= i < |errs| ==> errs[i].kind in kinds
  }

  /** A stretch only ever appends the kinds its single steps can produce. */
  lemma {:induction false} StepsKinds<A>(xs: seq<A>, f: A -> Run, kinds: set<Kind>)
    requires forall x :: x in xs ==> KindsIn(f(x).errs, kinds)
    ensures KindsIn(Steps(xs, f).errs, kinds)
    decreases |xs|
  {
    if |xs| > 0 {
      var init := xs[..|xs| - 1];
      assert forall x :: x in init ==> x in xs;
      StepsKinds(init, f, kinds);
      assert xs[|xs| - 1] in xs;
    }
  }

  predicate Hashable(j: Json) { !j.JArr? && !j.JObj? }

  function Unhashable(j: Json): string { "unhashable type: '" + TypeName(j) + "'" }

  function NotIterable(j: Json): string { "'" + TypeName(j) + "' object is not iterable" }

  // ---------------------------------------------------------------- module table

  /** The first module id that cannot key the table `{m.get("id"): m for m in modules if m.get("id")}`. */
  function TableError(views: seq<map<string, Json>>): Option<string>
    decreases |views|
  {
    if |views| == 0 then None
    else
      var id := Get(views[0], "id", JNull);
      if Truthy(id) && !Hashable(id) then Some(Unhashable(id)) else TableError(views[1..])
  }

  /** The number a boolean, integer or float stands for as a dictionary key. */
  function KeyNumber(j: Json): Option<real> {
    match j
    case JBool(b) => Some(if b then 1.0 else 0.0)
    case JInt(n) => Some(n as real)
    case JNum(x) => Some(x)
    case _ => None
  }

  /** Dictionary key equality: `1`, `1.0` and `True` are the same key; otherwise equal values. */
  predicate SameKey(a: Json, b: Json) {
    if KeyNumber(a).Some? then KeyNumber(a) == KeyNumber(b) else a == b
  }

  /** The table's entry for `key`: the last module with a (truthy) id that is the same key. */
  function Lookup(views: seq<map<string, Json>>, key: Json): (r: Option<map<string, Json>>)
    ensures r.Some? ==> r.value in views && SameKey(Get(r.value, "id", JNull), key) && Truthy(key)
    ensures r.None? <==> forall i :: 0 <= i < |views| ==>
      !(Truthy(Get(views[i], "id", JNull)) && SameKey(Get(views[i], "id", JNull), key))
    decreases |views|
  {
    if |views| == 0 then None
    else
      var last := views[|views| - 1];
      var id := Get(last, "id", JNull);
      if Truthy(id) && SameKey(id, key) then Some(last) else Lookup(views[..|views| - 1], key)
  }

  /** `(table.get(mid) or {})`. */
  function ModuleOf(views: seq<map<string, Json>>, mid: Json): map<string, Json> {
    match Lookup(views, mid)
    case Some(m) => m
    case None => map[]
  }

  // ---------------------------------------------------------------- manifests and workspace

  /** One `manifest_invalid` per listed module that carries an error, in listing order. */
  function ManifestErrors(views: seq<map<string, Json>>): (errs: seq<Item>)
    ensures |errs| <= |views|
    decreases |views|
  {
    if |views| == 0 then []
    else
      var last := views[|views| - 1];
      ManifestErrors(views[..|views| - 1])
      + (if Truthy(Get(last, "error", JNull)) then [ManifestInvalid(last)] else [])
  }

  /** The workspace the gate reads and the item a read failure adds. */
  function WorkspaceOf(t: Tree): (Json, seq<Item>) {
    var empty := JObj(map["selected_modules" := JArr([])]);
    if !Exists(t, PendingWorkspacePath) then (empty, [])
    else
      match LoadJson(t, PendingWorkspacePath)
      case Success(ws) => (ws, [])
      case Failure(e) => (empty, [WorkspaceReadFailed(e)])
  }

  // ---------------------------------------------------------------- datasets of a model

  /** The checks on one file description of a dataset entry. */
  function FileCheck(t: Tree, ds: Json, fdesc: Json): Run {
    if !fdesc.JObj? then Run([], Some(NoGet(TypeName(fdesc))))
    else
      var p := Get(fdesc.fields, "path", JNull);
      if !p.JStr? then Run([], Some("expected str, bytes or os.PathLike object, not " + TypeName(p)))
      else
        var fpath := Resolve(p.s);
        if !Exists(t, fpath) then Run([DatasetMissing(fpath, ds)], None)
        else
          var sha := Get(fdesc.fields, "sha256", JNull);
          if !Truthy(sha) then Run([], None)
          else
            match Sha256(t, fpath)
            case Failure(e) => Run([], Some(e))
            case Success(digest) =>
              if !sha.JStr? then Run([], Some("'" + TypeName(sha) + "' object has no attribute 'lower'"))
              else if Lower(sha.s) != Lower(digest) then Run([ChecksumMismatch(fpath, ds, sha, digest)], None)
              else Run([], None)
  }

  function FileFn(t: Tree, ds: Json): Json -> Run { f => FileCheck(t, ds, f) }

  /** The checks on one dataset id of a model entry; a raise while reading the entry ends them quietly. */
  function DatasetCheck(t: Tree, ds: Json): seq<Item> {
    var p := EntryPath(DatasetsDir, Show(ds));
    if !Exists(t, p) then [Item(DatasetEntryMissing, p, map["dataset_id" := ds])]
    else
      match LoadJson(t, p)
      case Failure(_) => []
      case Success(d) =>
        if !d.JObj? then []
        else
          match Iter(Get(d.fields, "files", JArr([])))
          case None => []
          case Some(files) => Steps(files, FileFn(t, ds)).errs
  }

  function DatasetFn(t: Tree): Json -> Run { ds => Run(DatasetCheck(t, ds), None) }

  /**
   * For a file description with a string path, the gate and `verify_dataset`
   * agree: the gate raises exactly when verification does, reports the file
   * missing exactly when verification does, and reports a checksum mismatch
   * exactly when verification reports one, with the same digests.
   */
  lemma AgreesWithVerify(t: Tree, ds: Json, fdesc: Json)
    requires fdesc.JObj? && Get(fdesc.fields, "path", JNull).JStr?
    ensures var run := FileCheck(t, ds, fdesc);
      var v := Datasets.FileProblem(t, fdesc);
      (run.raised.Some? <==> v.Failure?)
      && (v.Success? ==> |run.errs| == |v.value| <= 1)
      && (v.Success? && |v.value| == 1 ==>
            (run.errs[0].kind == DatasetFileMissing <==> v.value[0].fields["error"] == JStr("missing"))
            && (run.errs[0].kind == ChecksumDiffers <==>
                  v.value[0].fields["error"] == JStr("checksum_mismatch"))
            && (run.errs[0].kind == ChecksumDiffers ==>
                  run.errs[0].extra["expected"] == v.value[0].fields["expected"]
                  && run.errs[0].extra["actual"] == v.value[0].fields["actual"]))
  {
    var p := Get(fdesc.fields, "path", JNull);
    assert Get(fdesc.fields, "path", JStr("")) == p;
  }

  // ---------------------------------------------------------------- one mapped model

  /** `registry_missing` when the entry names a neural net whose registry file does not exist. */
  function NnCheck(t: Tree, o: map<string, Json>): seq<Item> {
    var nn := Get(o, "nn_id", JNull);
    if !Truthy(nn) then []
    else
      var p := EntryPath(NeuralNetsDir, Show(nn));
      if Exists(t, p) then [] else [Item(NetEntryMissing, p, map["nn_id" := nn])]
  }

  /** `caps[0]`. */
  function First(caps: Json): (r: Result<Json>)
    ensures caps.JArr? && |caps.items| > 0 ==> r == Success(caps.items[0])
  {
    match caps
    case JArr(items) => if |items| > 0 then Success(items[0]) else Failure("list index out of range")
    case JStr(s) => if |s| > 0 then Success(JStr([s[0]])) else Failure("string index out of range")
    case JObj(_) => Failure("0")
    case _ => Failure("'" + TypeName(caps) + "' object is not subscriptable")
  }

  /** The capability of a mapped model: its own, else the first capability of its module. */
  function Capability(views: seq<map<string, Json>>, mid: Json, o: map<string, Json>): (r: Result<Json>)
    ensures Truthy(Get(o, "capability", JNull)) ==> r == Success(o["capability"])
    ensures !Truthy(Get(o, "capability", JNull)) ==>
      r == First(Get(ModuleOf(views, mid), "capabilities", JArr([JNull])))
  {
    var own := Get(o, "capability", JNull);
    if Truthy(own) then Success(own)
    else First(Get(ModuleOf(views, mid), "capabilities", JArr([JNull])))
  }

  const RunFields: seq<string> := ["weights_path", "tokenizer_path", "inference_adapter"]

  /** The keys of `keys` whose value in `o` is missing or falsy, in the order of `keys`. */
  function Absent(o: map<string, Json>, keys: seq<string>): (r: seq<string>)
    ensures forall k :: k in r <==> k in keys && !Truthy(Get(o, k, JNull))
    ensures Guardrails.SubSeq(r, keys)
    decreases |keys|
  {
    if |keys| == 0 then []
    else if !Truthy(Get(o, keys[0], JNull)) then [keys[0]] + Absent(o, keys[1..])
    else Absent(o, keys[1..])
  }

  /** The resolved declared path when it names nothing or an empty file. */
  function DeclaredMissing(t: Tree, p: Json): (r: seq<string>)
    ensures |r| <= 1
    ensures |r| == 1 <==> p.JStr? && p.s != "" && (!Exists(t, Resolve(p.s)) || (IsFile(t, Resolve(p.s)) && t[Resolve(p.s)].size == 0))
    ensures |r| == 1 ==> r[0] == Resolve(p.s)
  {
    if !p.JStr? || p.s == "" then []
    else
      var q := Resolve(p.s);
      if !Exists(t, q) || (IsFile(t, q) && t[q].size == 0) then [q] else []
  }

  /** `model_not_runnable` for a chat model outside retrieval mode that lacks its fields or its files. */
  function Runnable(t: Tree, modelId: Json, o: map<string, Json>): (errs: seq<Item>)
    ensures |errs| <= 1
  {
    var mode := Get(o, "mode", JNull);
    if mode.JStr? && HasPrefix(mode.s, "retrieval") then []
    else
      var w := Get(o, "weights_path", JNull);
      var tk := Get(o, "tokenizer_path", JNull);
      if (Truthy(w) && !w.JStr?) || (Truthy(tk) && !tk.JStr?) then []
      else
        var fields := Absent(o, RunFields);
        var files := DeclaredMissing(t, w) + DeclaredMissing(t, tk);
        if |fields| == 0 && |files| == 0 then [] else [NotRunnable(modelId, fields, files)]
  }

  /** The metrics and runnability checks of a mapped model; a raise ends them quietly. */
  function ArtifactChecks(t: Tree, views: seq<map<string, Json>>, mid: Json, modelId: Json, o: map<string, Json>)
    : seq<Item>
  {
    match Capability(views, mid, o)
    case Failure(_) => []
    case Success(cap) =>
      if !Truthy(cap) || !cap.JStr? then []
      else
        var mp := Recorder.MetricsPath(cap.s, Show(modelId));
        (if Exists(t, mp) then [] else [ArtifactMissing(mp, modelId)])
        + (if cap.s == "chat" then Runnable(t, modelId, o) else [])
  }

  /** The checks on a model entry that exists; the source ignores any raise among them. */
  function EntryChecks(t: Tree, views: seq<map<string, Json>>, mid: Json, modelId: Json, path: string): seq<Item> {
    match LoadJson(t, path)
    case Failure(_) => []
    case Success(entry) =>
      if !entry.JObj? then []
      else
        var o := entry.fields;
        match Iter(Get(o, "dataset_ids", JArr([])))
        case None => NnCheck(t, o)
        case Some(ids) => NnCheck(t, o) + Steps(ids, DatasetFn(t)).errs + ArtifactChecks(t, views, mid, modelId, o)
  }

  /** One selected module on the `module_map` path. */
  function MapModule(t: Tree, views: seq<map<string, Json>>, mm: map<string, Json>, mid: Json): Run {
    if !Hashable(mid) then Run([], Some(Unhashable(mid)))
    else
      var modelId := if mid.JStr? then Get(mm, mid.s, JNull) else JNull;
      if !Truthy(modelId) then Run([Unmapped(mid)], None)
      else
        var path := EntryPath(ModelsDir, Show(modelId));
        if !Exists(t, path) then Run([ModelMissing(path, modelId)], None)
        else Run(EntryChecks(t, views, mid, modelId, path), None)
  }

  function MapModuleFn(t: Tree, views: seq<map<string, Json>>, mm: map<string, Json>): Json -> Run {
    mid => MapModule(t, views, mm, mid)
  }

  // ---------------------------------------------------------------- the capability map

  /** `cap_map.get(cap)` names a model. */
  predicate Maps(cm: map<string, Json>, cap: Json) { cap.JStr? && Truthy(Get(cm, cap.s, JNull)) }

  /** Some capability of `cs` maps to a model. */
  predicate AnyMaps(cm: map<string, Json>, cs: seq<Json>) { exists i :: 0 <= i < |cs| && Maps(cm, cs[i]) }

  /** One capability of a selected module: its mapped model must be registered and evaluated. */
  function CapCheck(t: Tree, cm: map<string, Json>, cap: Json): (r: Run)
    ensures |r.errs| <= 1
    ensures |r.errs| == 1 ==> Maps(cm, cap) && r.errs[0].kind in {ModelEntryMissing, NoMetrics}
  {
    if !Hashable(cap) then Run([], Some(Unhashable(cap)))
    else if !Maps(cm, cap) then Run([], None)
    else
      var modelId := cm[cap.s];
      var path := EntryPath(ModelsDir, Show(modelId));
      if !Exists(t, path) then Run([ModelMissing(path, modelId)], None)
      else
        var mp := Recorder.MetricsPath(cap.s, Show(modelId));
        if Exists(t, mp) then Run([], None) else Run([ArtifactMissing(mp, modelId)], None)
  }

  function CapFn(t: Tree, cm: map<string, Json>): Json -> Run { cap => CapCheck(t, cm, cap) }

  /** `m.get("capabilities") or []` of the module's table entry. */
  function CapsOf(views: seq<map<string, Json>>, mid: Json): Json {
    Or(Get(ModuleOf(views, mid), "capabilities", JNull), JArr([]))
  }

  /** One selected module on the `capability_map` path. */
  function CapModule(t: Tree, views: seq<map<string, Json>>, cm: map<string, Json>, mid: Json): Run {
    if !Hashable(mid) then Run([], Some(Unhashable(mid)))
    else
      var caps := CapsOf(views, mid);
      match Iter(caps)
      case None => Run([], Some(NotIterable(caps)))
      case Some(cs) => CapRun(t, cm, mid, cs)
  }

  /** The capabilities `cs` of module `mid` checked in order, then `mapping_incomplete` if none maps. */
  function CapRun(t: Tree, cm: map<string, Json>, mid: Json, cs: seq<Json>): Run {
    var r := Steps(cs, CapFn(t, cm));
    if r.raised.Some? || AnyMaps(cm, cs) then r
    else Run(r.errs + [UnmappedByCapability(mid)], None)
  }

  function CapModuleFn(t: Tree, views: seq<map<string, Json>>, cm: map<string, Json>): Json -> Run {
    mid => CapModule(t, views, cm, mid)
  }

  /**
   * On the capability path a module gets its `mapping_incomplete` exactly
   * when none of its capabilities maps to a model; every other item is a
   * registry or metrics item of a mapped model.
   */
  lemma CapModuleIncomplete(t: Tree, cm: map<string, Json>, mid: Json, cs: seq<Json>)
    requires CapRun(t, cm, mid, cs).raised.None?
    ensures var errs := CapRun(t, cm, mid, cs).errs;
      (forall i :: 0 <= i < |cs| ==> !Maps(cm, cs[i])) <==> (|errs| > 0 && errs[|errs| - 1] == UnmappedByCapability(mid))
    ensures var errs := CapRun(t, cm, mid, cs).errs;
      (forall i :: 0 <= i < |cs| ==> !Maps(cm, cs[i])) ==> errs == [UnmappedByCapability(mid)]
  {
    StepsKinds(cs, CapFn(t, cm), {ModelEntryMissing, NoMetrics});
    if forall i :: 0 <= i < |cs| ==> !Maps(cm, cs[i]) {
      NoMapNoItems(t, cm, cs);
    }
  }

  /** Capabilities that map to nothing add no items. */
  lemma {:induction false} NoMapNoItems(t: Tree, cm: map<string, Json>, cs: seq<Json>)
    requires forall i :: 0 <= i < |cs| ==> !Maps(cm, cs[i])
    ensures Steps(cs, CapFn(t, cm)).errs == []
    decreases |cs|
  {
    if |cs| > 0 {
      NoMapNoItems(t, cm, cs[..|cs| - 1]);
    }
  }

  // ---------------------------------------------------------------- the mappings section

  /** `for mid in selected`, each module checked by `f`. */
  function ForSelected(selected: Json, f: Json -> Run): Run {
    match Iter(selected)
    case None => Run([], Some(NotIterable(selected)))
    case Some(xs) => Steps(xs, f)
  }

  /** The per-module checks for a mappings document that is an object. */
  function Mapped(t: Tree, views: seq<map<string, Json>>, mp: map<string, Json>, selected: Json): Run {
    match TableError(views)
    case Some(e) => Run([], Some(e))
    case None =>
      var mm := Get(mp, "module_map", JNull);
      var cm := Get(mp, "capability_map", JNull);
      if mm.JObj? && |mm.fields| > 0 then ForSelected(selected, MapModuleFn(t, views, mm.fields))
      else if cm.JObj? && |cm.fields| > 0 then ForSelected(selected, CapModuleFn(t, views, cm.fields))
      else Run([], None)
  }

  /** The mapping completeness and registry section. */
  function MappingSection(t: Tree, views: seq<map<string, Json>>, selected: Json): Run {
    if Truthy(selected) && !Exists(t, MappingsPath) then Run([NoMappings(selected)], None)
    else if !Exists(t, MappingsPath) then Run([], None)
    else
      match LoadJson(t, MappingsPath)
      case Failure(e) => Run([MappingReadFailed(e)], None)
      case Success(doc) => if doc.JObj? then Mapped(t, views, doc.fields, selected) else Run([], None)
  }

  /**
   * A non-empty `module_map` decides alone: the capability map is then never
   * consulted. Otherwise (no module map, not an object, or empty) the module
   * map's value is irrelevant.
   */
  lemma ModuleMapPrecedence(t: Tree, views: seq<map<string, Json>>, mp: map<string, Json>, selected: Json, other: Json)
    ensures var mm := Get(mp, "module_map", JNull);
      mm.JObj? && |mm.fields| > 0 ==>
        Mapped(t, views, mp, selected) == Mapped(t, views, mp["capability_map" := other], selected)
    ensures var mm := Get(mp, "module_map", JNull);
      !(mm.JObj? && |mm.fields| > 0) && !(other.JObj? && |other.fields| > 0) ==>
        Mapped(t, views, mp, selected) == Mapped(t, views, mp["module_map" := other], selected)
  {
    var mm := Get(mp, "module_map", JNull);
    if mm.JObj? && |mm.fields| > 0 {
      assert Get(mp["capability_map" := other], "module_map", JNull) == mm;
    } else if !(other.JObj? && |other.fields| > 0) {
      assert Get(mp["module_map" := other], "capability_map", JNull) == Get(mp, "capability_map", JNull);
    }
  }

  /**
   * With a module map, a selected module without a mapped model gets exactly
   * its own `mapping_incomplete`; a mapped model whose registry entry is
   * missing gets exactly `registry_missing` naming it, and no deeper check runs.
   */
  lemma UnmappedModule(t: Tree, views: seq<map<string, Json>>, mm: map<string, Json>, mid: Json)
    requires Hashable(mid)
    ensures var modelId := if mid.JStr? then Get(mm, mid.s, JNull) else JNull;
      !Truthy(modelId) ==> MapModule(t, views, mm, mid) == Run([Unmapped(mid)], None)
    ensures var modelId := if mid.JStr? then Get(mm, mid.s, JNull) else JNull;
      var path := EntryPath(ModelsDir, Show(modelId));
      Truthy(modelId) && !Exists(t, path) ==>
        MapModule(t, views, mm, mid).errs == [ModelMissing(path, modelId)]
        && MapModule(t, views, mm, mid).errs[0].extra == map["model_id" := modelId]
  {
  }

  // ---------------------------------------------------------------- WordNet, chat, predictor

  function WordnetErrors(t: Tree): seq<Item> {
    if Exists(t, WordnetRoot) then [] else [WordnetRootMissing]
  }

  /** `[table[mid] for mid in selected if mid in table]`. */
  function SelectedMods(views: seq<map<string, Json>>, sel: seq<Json>): Result<seq<map<string, Json>>>
    decreases |sel|
  {
    if |sel| == 0 then Success([])
    else if !Hashable(sel[0]) then Failure(Unhashable(sel[0]))
    else
      var rest :- SelectedMods(views, sel[1..]);
      match Lookup(views, sel[0])
      case Some(m) => Success([m] + rest)
      case None => Success(rest)
  }

  /** `"chat" in (m.get("capabilities") or [])`. */
  function HasChat(m: map<string, Json>): Result<bool> {
    var caps := Or(Get(m, "capabilities", JNull), JArr([]));
    match caps
    case JArr(items) => Success(JStr("chat") in items)
    case JStr(s) => Success(Contains(s, "chat"))
    case JObj(f) => Success("chat" in f)
    case _ => Failure("argument of type '" + TypeName(caps) + "' is not iterable")
  }

  /** `any(...)` over the selected modules, stopping at the first chat module. */
  function AnyChat(mods: seq<map<string, Json>>): Result<bool>
    decreases |mods|
  {
    if |mods| == 0 then Success(false)
    else
      var c :- HasChat(mods[0]);
      if c then Success(true) else AnyChat(mods[1..])
  }

  /** A match of `ARTIFACTS_DATASETS.glob("wordnet_synth_*.jsonl")`. */
  predicate SynthFile(p: string) {
    var prefix := ArtifactDatasetsDir + "/wordnet_synth_";
    DirectChild(ArtifactDatasetsDir, p) && HasPrefix(p, prefix) && HasSuffix(p, ".jsonl")
    && |p| >= |prefix| + 6
  }

  /** The chat section's checks, or the exception raised while finding the selected chat modules. */
  function ChatCheck(t: Tree, views: seq<map<string, Json>>, selected: Json): Result<seq<Item>> {
    if TableError(views).Some? then Failure(TableError(views).value)
    else
      var sel :- (match Iter(selected) case Some(xs) => Success(xs) case None => Failure(NotIterable(selected)));
      var mods :- SelectedMods(views, sel);
      var chat :- AnyChat(mods);
      if !chat then Success([])
      else
        Success((if Exists(t, IndexPath) then [] else [WordnetIndexMissing])
                + (if exists p :: p in t && SynthFile(p) then [] else [SynthMissing]))
  }

  /** The chat section, a raise inside it reported as `readiness_internal`. */
  function ChatErrors(t: Tree, views: seq<map<string, Json>>, selected: Json): seq<Item> {
    match ChatCheck(t, views, selected)
    case Success(es) => es
    case Failure(e) => [ChatInternal(e)]
  }

  function PredictorErrors(t: Tree): seq<Item> {
    if Exists(t, PredictorManifest) && !Exists(t, SampleCsv) then [PredictorMissing] else []
  }

  // ---------------------------------------------------------------- guardrails and the file system

  /** `isinstance(v, int) and v >= 1` for `v = cfg.get("max_tokens", 0)` (a bool is an int). */
  predicate MaxTokensValid(o: map<string, Json>) {
    var v := Get(o, "max_tokens", JInt(0));
    (v.JInt? && v.n >= 1) || v == JBool(true)
  }

  predicate NoFileTypes(o: map<string, Json>) {
    "allowed_file_types" in o && o["allowed_file_types"] == JArr([])
  }

  /** The guardrails section. */
  function GuardrailsErrors(t: Tree): seq<Item> {
    match Backend.GetGuardrails(t)
    case Failure(e) => [GuardrailsReadFailed(e)]
    case Success(cfg) =>
      if !cfg.JObj? then [GuardrailsReadFailed(NoGet(TypeName(cfg)))]
      else
        (if MaxTokensValid(cfg.fields) then [] else [MaxTokensInvalid])
        + (if NoFileTypes(cfg.fields) then [FileTypesEmpty] else [])
  }

  /**
   * A configuration saved through `set_guardrails` passes the guardrails
   * section whenever the payload leaves `max_tokens` unset or a positive
   * integer and `allowed_file_types` unset or non-empty.
   */
  lemma SavedGuardrailsPass(t: Tree, payload: map<string, Json>)
    requires Backend.GetGuardrails(t) == Success(JObj(Backend.GuardrailsUpdate(payload)))
    requires "max_tokens" in payload ==> payload["max_tokens"].JInt? && payload["max_tokens"].n >= 1
    requires "allowed_file_types" in payload ==> payload["allowed_file_types"] != JArr([])
    ensures GuardrailsErrors(t) == []
  {
    var cfg := Backend.GuardrailsUpdate(payload);
    assert "max_tokens" in cfg && "allowed_file_types" in cfg;
    assert MaxTokensValid(cfg);
    assert !NoFileTypes(cfg);
  }

  /** The two probed directories. */
  const ProbeDirs: seq<string> := [MetricsDir, TracesDir]

  /** One `filesystem_readonly` per directory whose probe write raised; `probe(d)` is that exception. */
  function ProbeErrors(probe: string -> Option<string>, dirs: seq<string>): (errs: seq<Item>)
    ensures |errs| <= |dirs|
    decreases |dirs|
  {
    if |dirs| == 0 then []
    else
      var last := dirs[|dirs| - 1];
      ProbeErrors(probe, dirs[..|dirs| - 1])
      + (match probe(last) case Some(e) => [ReadOnly(last, e)] case None => [])
  }

  // ---------------------------------------------------------------- the gate

  /** The collected items and the workspace read. */
  datatype Gate = Gate(errs: seq<Item>, ws: Json)

  /** Every section in order; an uncaught exception is the Failure. */
  function Collected(t: Tree, found: seq<string>, probe: string -> Option<string>): Result<Gate> {
    var views := Backend.Views(t, found);
    var (ws, wsErrs) := WorkspaceOf(t);
    if !ws.JObj? then Failure(NoGet(TypeName(ws)))
    else
      var selected := Get(ws.fields, "selected_modules", JArr([]));
      var m := MappingSection(t, views, selected);
      if m.raised.Some? then Failure(m.raised.value)
      else
        Success(Gate(ManifestErrors(views) + wsErrs + m.errs + WordnetErrors(t)
                     + ChatErrors(t, views, selected) + PredictorErrors(t) + GuardrailsErrors(t)
                     + ProbeErrors(probe, ProbeDirs), ws))
  }

  /** The response: "ready" exactly when no item was collected; each item carries the four fixed keys. */
  function Report(errs: seq<Item>, ws: Json, guardrails: Json): (r: Json)
    ensures r.JObj? && r.fields.Keys == {"status", "errors", "workspace", "guardrails"}
    ensures r.fields["status"] == JStr("ready") <==> |errs| == 0
    ensures r.fields["status"] != JStr("ready") ==> r.fields["status"] == JStr("blocked")
    ensures r.fields["errors"].JArr? && |r.fields["errors"].items| == |errs|
    ensures forall i :: 0 <= i < |errs| ==>
      r.fields["errors"].items[i].JObj? && FixedKeys <= r.fields["errors"].items[i].fields.Keys
  {
    JObj(map["status" := JStr(if |errs| == 0 then "ready" else "blocked"),
             "errors" := JArr(seq(|errs|, i requires 0 <= i < |errs| => ItemJson(errs[i]))),
             "workspace" := ws,
             "guardrails" := guardrails])
  }

  /** `readiness()` as written: the guardrails configuration is read once more, outside any handler. */
  function ReadinessOf(t: Tree, found: seq<string>, probe: string -> Option<string>): Result<Json> {
    var gate :- Collected(t, found, probe);
    var g :- Backend.GetGuardrails(t);
    Success(Report(gate.errs, gate.ws, g))
  }

  /**
   * The final read of the guardrails configuration raises exactly when the
   * guardrails section has just reported `guardrails_read_failed` for a read
   * error, so that item never reaches the caller: the gate fails instead.
   */
  lemma UnreadableGuardrailsCrash(t: Tree, found: seq<string>, probe: string -> Option<string>)
    requires Collected(t, found, probe).Success?
    requires Backend.GetGuardrails(t).Failure?
    ensures ReadinessOf(t, found, probe).Failure?
    ensures GuardrailsReadFailed(Backend.GetGuardrails(t).error) in Collected(t, found, probe).value.errs
  {
    var gate := Collected(t, found, probe).value;
    var g := GuardrailsErrors(t);
    assert g == [GuardrailsReadFailed(Backend.GetGuardrails(t).error)];
    var views := Backend.Views(t, found);
    var (ws, wsErrs) := WorkspaceOf(t);
    var selected := Get(ws.fields, "selected_modules", JArr([]));
    var m := MappingSection(t, views, selected);
    var pre := ManifestErrors(views) + wsErrs + m.errs + WordnetErrors(t)
               + ChatErrors(t, views, selected) + PredictorErrors(t);
    assert gate.errs == pre + g + ProbeErrors(probe, ProbeDirs);
    assert gate.errs[|pre|] == g[0];
  }

  /** The response once the items are collected, the default configuration standing in for an unreadable one. */
  function FinishFixed(gate: Gate, g: Result<Json>): (r: Json)
    ensures g.Success? ==> r == Report(gate.errs, gate.ws, g.value)
    ensures g.Failure? ==> r == Report(gate.errs, gate.ws, JObj(Backend.DefaultGuardrails))
  {
    match g
    case Success(cfg) => Report(gate.errs, gate.ws, cfg)
    case Failure(_) => Report(gate.errs, gate.ws, JObj(Backend.DefaultGuardrails))
  }

  /**
   * The gate as evidently intended: it fails only where the collected
   * sections do, and agrees with the gate as written whenever the
   * configuration is readable.
   */
  function ReadinessFixed(t: Tree, found: seq<string>, probe: string -> Option<string>): (r: Result<Json>)
    ensures r.Success? <==> Collected(t, found, probe).Success?
    ensures Backend.GetGuardrails(t).Success? ==> r == ReadinessOf(t, found, probe)
  {
    match Collected(t, found, probe)
    case Failure(e) => Failure(e)
    case Success(gate) => Success(FinishFixed(gate, Backend.GetGuardrails(t)))
  }

  /**
   * With an unreadable configuration the corrected gate answers "blocked",
   * listing the `guardrails_read_failed` item, and carries the default
   * configuration.
   */
  lemma UnreadableGuardrailsReported(t: Tree, found: seq<string>, probe: string -> Option<string>)
    requires Collected(t, found, probe).Success?
    requires Backend.GetGuardrails(t).Failure?
    ensures var r := ReadinessFixed(t, found, probe);
      var errs := Collected(t, found, probe).value.errs;
      r.Success?
      && r.value == Report(errs, Collected(t, found, probe).value.ws, JObj(Backend.DefaultGuardrails))
      && r.value.fields["status"] == JStr("blocked")
      && exists i :: 0 <= i < |errs| && errs[i] == GuardrailsReadFailed(Backend.GetGuardrails(t).error)
  {
    UnreadableGuardrailsCrash(t, found, probe);
  }

  // ---------------------------------------------------------------- the checks, step by step

  /** The manifest loop. */
  method ManifestLoop(views: seq<map<string, Json>>) returns (errs: seq<Item>)
    ensures errs == ManifestErrors(views)
  {
    errs := [];
    var i := 0;
    while i < |views|
      invariant 0 <= i <= |views|
      invariant errs == ManifestErrors(views[..i])
    {
      assert views[..i + 1][..i] == views[..i];
      if Truthy(Get(views[i], "error", JNull)) {
        errs := errs + [ManifestInvalid(views[i])];
      }
      i := i + 1;
    }
    assert views[..i] == views;
  }

  /** One more file of a dataset entry, while nothing has raised. */
  lemma FileNext(t: Tree, ds: Json, files: seq<Json>, i: nat)
    requires i < |files| && Steps(files[..i], FileFn(t, ds)).raised.None?
    ensures var s := FileCheck(t, ds, files[i]);
      Steps(files[..i + 1], FileFn(t, ds)) == Run(Steps(files[..i], FileFn(t, ds)).errs + s.errs, s.raised)
  {
    StepsSnoc(files, FileFn(t, ds), i);
  }

  /** The files of one dataset entry. */
  method FileLoop(t: Tree, ds: Json, files: seq<Json>) returns (run: Run)
    ensures run == Steps(files, FileFn(t, ds))
  {
    run := Run([], None);
    var i := 0;
    while i < |files| && run.raised.None?
      invariant 0 <= i <= |files|
      invariant run == Steps(files[..i], FileFn(t, ds))
    {
      FileNext(t, ds, files, i);
      var s := FileCheck(t, ds, files[i]);
      run := Run(run.errs + s.errs, s.raised);
      i := i + 1;
    }
    if i < |files| {
      StepsStop(files, FileFn(t, ds), i);
    } else {
      assert files[..i] == files;
    }
  }

  /** One dataset id of a model entry. */
  method DatasetChecks(t: Tree, ds: Json) returns (errs: seq<Item>)
    ensures errs == DatasetCheck(t, ds)
  {
    var p := EntryPath(DatasetsDir, Show(ds));
    if !Exists(t, p) {
      return [Item(DatasetEntryMissing, p, map["dataset_id" := ds])];
    }
    var d := LoadJson(t, p);
    if d.Failure? || !d.value.JObj? {
      return [];
    }
    var files := Iter(Get(d.value.fields, "files", JArr([])));
    if files.None? {
      return [];
    }
    var run := FileLoop(t, ds, files.value);
    errs := run.errs;
  }

  /** One more dataset id of a model entry; the dataset checks never raise. */
  lemma DatasetNext(t: Tree, ids: seq<Json>, i: nat)
    requires i < |ids| && Steps(ids[..i], DatasetFn(t)).raised.None?
    ensures Steps(ids[..i + 1], DatasetFn(t)) == Run(Steps(ids[..i], DatasetFn(t)).errs + DatasetCheck(t, ids[i]), None)
  {
    StepsSnoc(ids, DatasetFn(t), i);
  }

  /** The dataset ids of a model entry. */
  method DatasetLoop(t: Tree, ids: seq<Json>) returns (errs: seq<Item>)
    ensures errs == Steps(ids, DatasetFn(t)).errs
  {
    errs := [];
    var i := 0;
    while i < |ids|
      invariant 0 <= i <= |ids|
      invariant Steps(ids[..i], DatasetFn(t)) == Run(errs, None)
    {
      DatasetNext(t, ids, i);
      var e := DatasetChecks(t, ids[i]);
      errs := errs + e;
      i := i + 1;
    }
    assert ids[..i] == ids;
  }

  /** One selected module on the `module_map` path. */
  method CheckModule(t: Tree, views: seq<map<string, Json>>, mm: map<string, Json>, mid: Json) returns (run: Run)
    ensures run == MapModule(t, views, mm, mid)
  {
    if !Hashable(mid) {
      return Run([], Some(Unhashable(mid)));
    }
    var modelId := if mid.JStr? then Get(mm, mid.s, JNull) else JNull;
    if !Truthy(modelId) {
      return Run([Unmapped(mid)], None);
    }
    var path := EntryPath(ModelsDir, Show(modelId));
    if !Exists(t, path) {
      return Run([ModelMissing(path, modelId)], None);
    }
    var entry := LoadJson(t, path);
    if entry.Failure? || !entry.value.JObj? {
      return Run([], None);
    }
    var o := entry.value.fields;
    var errs := NnCheck(t, o);
    var ids := Iter(Get(o, "dataset_ids", JArr([])));
    if ids.Some? {
      var dsErrs := DatasetLoop(t, ids.value);
      errs := errs + dsErrs + ArtifactChecks(t, views, mid, modelId, o);
    }
    run := Run(errs, None);
  }

  /** One more selected module on the `module_map` path, while nothing has raised. */
  lemma MapModuleNext(t: Tree, views: seq<map<string, Json>>, mm: map<string, Json>, xs: seq<Json>, i: nat)
    requires i < |xs| && Steps(xs[..i], MapModuleFn(t, views, mm)).raised.None?
    ensures var s := MapModule(t, views, mm, xs[i]);
      Steps(xs[..i + 1], MapModuleFn(t, views, mm)) == Run(Steps(xs[..i], MapModuleFn(t, views, mm)).errs + s.errs, s.raised)
  {
    StepsSnoc(xs, MapModuleFn(t, views, mm), i);
  }

  /** The `module_map` loop over the selection. */
  method ModuleMapLoop(t: Tree, views: seq<map<string, Json>>, mm: map<string, Json>, xs: seq<Json>) returns (run: Run)
    ensures run == Steps(xs, MapModuleFn(t, views, mm))
  {
    run := Run([], None);
    var i := 0;
    while i < |xs| && run.raised.None?
      invariant 0 <= i <= |xs|
      invariant run == Steps(xs[..i], MapModuleFn(t, views, mm))
    {
      MapModuleNext(t, views, mm, xs, i);
      var s := CheckModule(t, views, mm, xs[i]);
      run := Run(run.errs + s.errs, s.raised);
      i := i + 1;
    }
    if i < |xs| {
      StepsStop(xs, MapModuleFn(t, views, mm), i);
    } else {
      assert xs[..i] == xs;
    }
  }

  /** One selected module on the `capability_map` path, with its `found` flag. */
  method CheckCapModule(t: Tree, views: seq<map<string, Json>>, cm: map<string, Json>, mid: Json) returns (run: Run)
    ensures run == CapModule(t, views, cm, mid)
  {
    if !Hashable(mid) {
      return Run([], Some(Unhashable(mid)));
    }
    var caps := CapsOf(views, mid);
    var cs := Iter(caps);
    if cs.None? {
      return Run([], Some(NotIterable(caps)));
    }
    run := CapRunLoop(t, cm, mid, cs.value);
  }

  /** One module's capabilities, then its `mapping_incomplete` if none maps. */
  method CapRunLoop(t: Tree, cm: map<string, Json>, mid: Json, xs: seq<Json>) returns (run: Run)
    ensures run == CapRun(t, cm, mid, xs)
  {
    var r, found := CapLoop(t, cm, xs);
    if r.raised.Some? || found {
      run := r;
    } else {
      run := Run(r.errs + [UnmappedByCapability(mid)], None);
    }
  }

  /** One more capability of a module, while nothing has raised. */
  lemma CapNext(t: Tree, cm: map<string, Json>, xs: seq<Json>, i: nat)
    requires i < |xs| && Steps(xs[..i], CapFn(t, cm)).raised.None?
    ensures var s := CapCheck(t, cm, xs[i]);
      Steps(xs[..i + 1], CapFn(t, cm)) == Run(Steps(xs[..i], CapFn(t, cm)).errs + s.errs, s.raised)
  {
    StepsSnoc(xs, CapFn(t, cm), i);
  }

  /** The loop over one module's capabilities, `found` recording whether any of them maps to a model. */
  method CapLoop(t: Tree, cm: map<string, Json>, xs: seq<Json>) returns (run: Run, found: bool)
    ensures run == Steps(xs, CapFn(t, cm))
    ensures run.raised.None? ==> (found <==> AnyMaps(cm, xs))
  {
    found := false;
    run := Run([], None);
    var i := 0;
    while i < |xs| && run.raised.None?
      invariant 0 <= i <= |xs|
      invariant run == Steps(xs[..i], CapFn(t, cm))
      invariant found <==> exists j :: 0 <= j < i && Maps(cm, xs[j])
    {
      CapNext(t, cm, xs, i);
      var s := CapCheck(t, cm, xs[i]);
      if Maps(cm, xs[i]) {
        found := true;
      }
      run := Run(run.errs + s.errs, s.raised);
      i := i + 1;
    }
    if i < |xs| {
      StepsStop(xs, CapFn(t, cm), i);
    } else {
      assert xs[..i] == xs;
    }
  }

  /** The `capability_map` loop over the selection. */
  method CapMapLoop(t: Tree, views: seq<map<string, Json>>, cm: map<string, Json>, xs: seq<Json>) returns (run: Run)
    ensures run == Steps(xs, CapModuleFn(t, views, cm))
  {
    run := Run([], None);
    var i := 0;
    while i < |xs| && run.raised.None?
      invariant 0 <= i <= |xs|
      invariant run == Steps(xs[..i], CapModuleFn(t, views, cm))
    {
      CapMapNext(t, views, cm, xs, i);
      var s := CheckCapModule(t, views, cm, xs[i]);
      run := Run(run.errs + s.errs, s.raised);
      i := i + 1;
    }
    if i < |xs| {
      StepsStop(xs, CapModuleFn(t, views, cm), i);
    } else {
      assert xs[..i] == xs;
    }
  }

  /** One more selected module on the `capability_map` path, while nothing has raised. */
  lemma CapMapNext(t: Tree, views: seq<map<string, Json>>, cm: map<string, Json>, xs: seq<Json>, i: nat)
    requires i < |xs| && Steps(xs[..i], CapModuleFn(t, views, cm)).raised.None?
    ensures var s := CapModule(t, views, cm, xs[i]);
      Steps(xs[..i + 1], CapModuleFn(t, views, cm)) == Run(Steps(xs[..i], CapModuleFn(t, views, cm)).errs + s.errs, s.raised)
  {
    StepsSnoc(xs, CapModuleFn(t, views, cm), i);
  }

  /** The mappings section. */
  method MappingChecks(t: Tree, views: seq<map<string, Json>>, selected: Json) returns (run: Run)
    ensures run == MappingSection(t, views, selected)
  {
    if !Exists(t, MappingsPath) {
      if Truthy(selected) {
        return Run([NoMappings(selected)], None);
      }
      return Run([], None);
    }
    var doc := LoadJson(t, MappingsPath);
    if doc.Failure? {
      return Run([MappingReadFailed(doc.error)], None);
    }
    if !doc.value.JObj? {
      return Run([], None);
    }
    var mp := doc.value.fields;
    var te := TableError(views);
    if te.Some? {
      return Run([], Some(te.value));
    }
    var mm := Get(mp, "module_map", JNull);
    var cm := Get(mp, "capability_map", JNull);
    var xs := Iter(selected);
    if mm.JObj? && |mm.fields| > 0 {
      if xs.None? {
        return Run([], Some(NotIterable(selected)));
      }
      run := ModuleMapLoop(t, views, mm.fields, xs.value);
    } else if cm.JObj? && |cm.fields| > 0 {
      if xs.None? {
        return Run([], Some(NotIterable(selected)));
      }
      run := CapMapLoop(t, views, cm.fields, xs.value);
    } else {
      run := Run([], None);
    }
  }

  /** The write probes. */
  method ProbeLoop(probe: string -> Option<string>) returns (errs: seq<Item>)
    ensures errs == ProbeErrors(probe, ProbeDirs)
  {
    errs := [];
    var i := 0;
    while i < |ProbeDirs|
      invariant 0 <= i <= |ProbeDirs|
      invariant errs == ProbeErrors(probe, ProbeDirs[..i])
    {
      assert ProbeDirs[..i + 1][..i] == ProbeDirs[..i];
      var dir := ProbeDirs[i];
      var e := probe(dir);
      if e.Some? {
        errs := errs + [ReadOnly(dir, e.value)];
      }
      i := i + 1;
    }
    assert ProbeDirs[..i] == ProbeDirs;
  }

  /** The sections of `readiness()` in order, appending to one list of items. */
  method Collect(t: Tree, found: seq<string>, probe: string -> Option<string>) returns (r: Result<Gate>)
    requires Loader.ListsManifests(t, found)
    ensures r == Collected(t, found, probe)
  {
    var views := Backend.ListModules(t, found);
    var manifests := ManifestLoop(views);
    var ws := JObj(map["selected_modules" := JArr([])]);
    var wsErrs := [];
    if Exists(t, PendingWorkspacePath) {
      var loaded := LoadJson(t, PendingWorkspacePath);
      if loaded.Failure? {
        wsErrs := [WorkspaceReadFailed(loaded.error)];
      } else {
        ws := loaded.value;
      }
    }
    assert (ws, wsErrs) == WorkspaceOf(t);
    if !ws.JObj? {
      return Failure(NoGet(TypeName(ws)));
    }
    var selected := Get(ws.fields, "selected_modules", JArr([]));
    var m := MappingChecks(t, views, selected);
    if m.raised.Some? {
      return Failure(m.raised.value);
    }
    var wordnet := if Exists(t, WordnetRoot) then [] else [WordnetRootMissing];
    var chat := ChatErrors(t, views, selected);
    var predictor := if Exists(t, PredictorManifest) && !Exists(t, SampleCsv) then [PredictorMissing] else [];
    var guard := GuardrailsErrors(t);
    var fsErrs := ProbeLoop(probe);
    r := Success(Gate(manifests + wsErrs + m.errs + wordnet + chat + predictor + guard + fsErrs, ws));
  }

  /** `readiness()`: the collected items, then the guardrails configuration read once more. */
  method Readiness(t: Tree, found: seq<string>, probe: string -> Option<string>) returns (r: Result<Json>)
    requires Loader.ListsManifests(t, found)
    ensures r == ReadinessOf(t, found, probe)
  {
    var gate := Collect(t, found, probe);
    if gate.Failure? {
      return Failure(gate.error);
    }
    var g := Backend.GetGuardrails(t);
    if g.Failure? {
      return Failure(g.error);
    }
    r := Success(Report(gate.value.errs, gate.value.ws, g.value));
  }
}
