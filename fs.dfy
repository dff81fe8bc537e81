/**
 * The workbench's file tree: every path maps to a directory or a file; a file
 * carries its size, its SHA-256 hex digest and how it parses as JSON. The
 * digest and size are attributes of the file, not computed from bytes.
 * Registry and artifact locations follow the repository layout under `Root`.
 */
module Fs {
  import opened Wrappers
  import opened Json
  import opened Text

  datatype Doc = Parsed(value: Json) | Unparseable(reason: string)

  datatype Node = Dir | File(size: nat, sha: string, parse: Doc)

  type Tree = map<string, Node>

  /** The repository root (an absolute path). */
  const Root: string := "/workbench"

  /** `dir / name`. */
  function Child(dir: string, name: string): string { dir + "/" + name }

  const AppDir: string := Child(Root, "app")
  const ModulesDir: string := Child(AppDir, "modules")
  const RegistryDir: string := Child(AppDir, "registry")
  const WorkspacesDir: string := Child(RegistryDir, "workspaces")
  const NeuralNetsDir: string := Child(RegistryDir, "neural_nets")
  const ModelsDir: string := Child(RegistryDir, "models")
  const DatasetsDir: string := Child(RegistryDir, "datasets")
  const GuardrailsDir: string := Child(RegistryDir, "guardrails")
  const ArtifactsDir: string := Child(AppDir, "artifacts")
  const IndicesDir: string := Child(ArtifactsDir, "indices")
  const MetricsDir: string := Child(ArtifactsDir, "metrics")
  const LogsDir: string := Child(ArtifactsDir, "logs")
  const JobsDir: string := Child(ArtifactsDir, "jobs")
  const TracesDir: string := Child(ArtifactsDir, "traces")
  const ArtifactDatasetsDir: string := Child(ArtifactsDir, "datasets")
  const WordnetRoot: string := Child(Root, "WordNet-3.0")
  const PendingWorkspacePath: string := Child(WorkspacesDir, "pending.json")
  const MappingsPath: string := Child(WorkspacesDir, "mappings.json")
  const GuardrailsConfigPath: string := Child(GuardrailsDir, "config.json")
  const IndexPath: string := Child(IndicesDir, "wordnet-lexicon.jsonl")

  const WordnetDict: string := Child(WordnetRoot, "dict")

  /** The lines of each text file, keyed by path; a path not in the map does not exist. */
  type Lines = map<string, seq<string>>

  /** One line of a dataset file: its text, and its value when `json.loads` accepts it. */
  datatype DataLine = DataLine(text: string, doc: Option<Json>)

  /** A dataset file (`*.jsonl`): its path and its lines. */
  datatype Source = Source(name: string, lines: seq<DataLine>)

  /** `json.loads(line)`, falling back to `{"text": line.strip()}` when the line is not JSON. */
  function LineDoc(l: DataLine): Json {
    if l.doc.Some? then l.doc.value else JObj(map["text" := JStr(Strip(l.text))])
  }

  /** `Path(name).stem` of a `*.jsonl` file: its file name without the directory and the suffix. */
  function Stem(name: string): (r: string)
    ensures |r| <= |name|
  {
    var base := BaseName(name);
    if |base| > 6 && HasSuffix(base, ".jsonl") then base[..|base| - 6] else base
  }

  /** The text after the last `/`. */
  function BaseName(p: string): (r: string)
    ensures |r| <= |p|
    decreases |p|
  {
    if |p| == 0 then ""
    else if p[|p| - 1] == '/' then ""
    else BaseName(p[..|p| - 1]) + [p[|p| - 1]]
  }

  /**
   * The decoded lines of the WordNet lexicon index. The model stores the index
   * as one JSON list with an item per line (see `Train.IndexDoc`), so its lines
   * are that list's items; an index that is absent or not such a list has no
   * decodable lines.
   */
  function IndexItems(t: Tree): seq<Json> {
    match LoadJson(t, IndexPath)
    case Success(JArr(items)) => items
    case _ => []
  }

  /** `dir / f"{id}.json"`. */
  function EntryPath(dir: string, id: string): string { Child(dir, id + ".json") }

  /** `path.exists()`: a node, or an ancestor of one. */
  predicate Exists(t: Tree, p: string) {
    p in t || exists q :: q in t && HasPrefix(q, p + "/")
  }

  /** `path.is_file()`. */
  predicate IsFile(t: Tree, p: string) { p in t && t[p].File? }

  /** `str(e)` of the `IsADirectoryError` that opening a directory raises. */
  function IsADirectory(p: string): string { "[Errno 21] Is a directory: " + Quote(p) }

  /** `str(e)` of the `FileNotFoundError` that opening a missing path raises. */
  function NoSuchFile(p: string): string { "[Errno 2] No such file or directory: " + Quote(p) }

  /** `load_json(path)`: the decoded document, or the error `open`/`json.load` raises. */
  function LoadJson(t: Tree, p: string): Result<Json> {
    if p in t then
      match t[p]
      case Dir => Failure(IsADirectory(p))
      case File(_, _, Parsed(v)) => Success(v)
      case File(_, _, Unparseable(reason)) => Failure(reason)
    else if Exists(t, p) then Failure(IsADirectory(p))
    else Failure(NoSuchFile(p))
  }

  /** `compute_sha256(path)`. */
  function Sha256(t: Tree, p: string): Result<string> {
    if IsFile(t, p) then Success(t[p].sha)
    else if Exists(t, p) then Failure(IsADirectory(p))
    else Failure(NoSuchFile(p))
  }

  predicate IsAbsolute(p: string) { |p| > 0 && p[0] == '/' }

  /** `p if p.is_absolute() else ROOT / p` (the empty path is `.`, which resolves to the root). */
  function Resolve(p: string): string {
    if IsAbsolute(p) then p else if p == "" then Root else Child(Root, p)
  }

  /** `str(p.relative_to(ROOT))`, or `str(p)` outside the root. */
  function ToRel(p: string): string {
    if HasPrefix(p, Root + "/") then p[|Root| + 1..] else p
  }

  /** A normalised absolute path: no empty segment, no trailing slash. */
  predicate Normal(p: string) {
    IsAbsolute(p) && p[|p| - 1] != '/' && forall i :: 0 <= i < |p| - 1 ==> !(p[i] == '/' && p[i + 1] == '/')
  }

  /** Relativising a normalised absolute path and resolving it again gives it back. */
  lemma ResolveToRel(p: string)
    requires Normal(p)
    ensures Resolve(ToRel(p)) == p
  {
    if HasPrefix(p, Root + "/") {
      var k := |Root| + 1;
      assert p[k - 1] == '/';
      if k < |p| {
        assert p[k] != '/';
      }
      assert |p| > k;
      assert Child(Root, p[k..]) == p[..k] + p[k..];
    }
  }

  predicate NotSlash(c: char) { c != '/' }

  /** `dir.glob("*.json")`: the files directly inside `dir` whose name ends in `.json`. */
  predicate InJsonGlob(dir: string, p: string) {
    HasPrefix(p, dir + "/") && HasSuffix(p, ".json")
    && forall i :: |dir| + 1 <= i < |p| ==> p[i] != '/'
  }

  function JsonGlob(t: Tree, dir: string): set<string> {
    set p | p in t && InJsonGlob(dir, p)
  }

  /** `paths` is the listing `dir.glob("*.json")` yields: each match exactly once, in the order the directory gives. */
  ghost predicate Enumerates(t: Tree, dir: string, paths: seq<string>) {
    (forall p :: p in paths <==> p in JsonGlob(t, dir))
    && forall i, j :: 0 <= i < j < |paths| ==> paths[i] != paths[j]
  }

  /** `p` names an entry directly inside `dir`. */
  predicate DirectChild(dir: string, p: string) {
    HasPrefix(p, dir + "/") && |p| > |dir| + 1 && forall i :: |dir| + 1 <= i < |p| ==> p[i] != '/'
  }

  /** `paths` is the listing `dir.glob("*")` yields: every entry directly inside `dir`, each once. */
  ghost predicate EnumeratesChildren(t: Tree, dir: string, paths: seq<string>) {
    (forall p :: p in paths <==> Exists(t, p) && DirectChild(dir, p))
    && forall i, j :: 0 <= i < j < |paths| ==> paths[i] != paths[j]
  }

  /** The documents of `paths` that load, in order; the others are skipped. */
  function Loaded(t: Tree, paths: seq<string>): seq<Json> {
    if |paths| == 0 then []
    else
      match LoadJson(t, paths[0])
      case Success(v) => [v] + Loaded(t, paths[1..])
      case Failure(_) => Loaded(t, paths[1..])
  }

  /** `Loaded` keeps exactly the documents that load, never more items than paths. */
  lemma {:induction false} LoadedComplete(t: Tree, paths: seq<string>)
    ensures |Loaded(t, paths)| <= |paths|
    ensures forall v :: v in Loaded(t, paths) <==> exists i :: 0 <= i < |paths| && LoadJson(t, paths[i]) == Success(v)
  {
    if |paths| > 0 {
      LoadedComplete(t, paths[1..]);
      forall v ensures v in Loaded(t, paths) <==> exists i :: 0 <= i < |paths| && LoadJson(t, paths[i]) == Success(v) {
        if v in Loaded(t, paths[1..]) {
          var i :| 0 <= i < |paths[1..]| && LoadJson(t, paths[1..][i]) == Success(v);
          assert LoadJson(t, paths[i + 1]) == Success(v);
        }
        if exists i :: 0 <= i < |paths| && LoadJson(t, paths[i]) == Success(v) {
          var i :| 0 <= i < |paths| && LoadJson(t, paths[i]) == Success(v);
          if i > 0 {
            assert LoadJson(t, paths[1..][i - 1]) == Success(v);
          }
        }
      }
    }
  }

  /** The `for p in dir.glob("*.json"): try: items.append(load_json(p)) except: continue` loop. */
  method ListJson(t: Tree, paths: seq<string>) returns (items: seq<Json>)
    ensures items == Loaded(t, paths)
  {
    items := [];
    var i := 0;
    while i < |paths|
      invariant 0 <= i <= |paths|
      invariant items + Loaded(t, paths[i..]) == Loaded(t, paths)
    {
      assert paths[i..][1..] == paths[i + 1..];
      var doc := LoadJson(t, paths[i]);
      if doc.Success? {
        items := items + [doc.value];
      }
      i := i + 1;
    }
  }

  /** The document written when `write_json(path, v)` stores `v`. */
  datatype Encoder = Encoder(size: Json -> nat, sha: Json -> string)
  {
    function Node(v: Json): Node { File(size(v), sha(v), Parsed(v)) }
  }

  /** What a task returns and the documents it writes, in order. */
  datatype Effect = Effect(out: map<string, Json>, writes: seq<(string, Json)>)

  /** The tree after the writes `ws`, in order: each replaces the node at its path. */
  function Replay(t: Tree, enc: Encoder, ws: seq<(string, Json)>): Tree {
    if |ws| == 0 then t
    else Replay(t, enc, ws[..|ws| - 1])[ws[|ws| - 1].0 := enc.Node(ws[|ws| - 1].1)]
  }

  /** The document the last write to `p` stored, if any. */
  function LastWrite(ws: seq<(string, Json)>, p: string): Option<Json> {
    if |ws| == 0 then None
    else if ws[|ws| - 1].0 == p then Some(ws[|ws| - 1].1)
    else LastWrite(ws[..|ws| - 1], p)
  }

  /** One more write replaces one node. */
  lemma ReplaySnoc(t: Tree, enc: Encoder, ws: seq<(string, Json)>, p: string, v: Json)
    ensures Replay(t, enc, ws + [(p, v)]) == Replay(t, enc, ws)[p := enc.Node(v)]
  {
    assert (ws + [(p, v)])[..|ws|] == ws;
  }

  /** Two writes in a row. */
  lemma ReplayTwo(t: Tree, enc: Encoder, p0: string, v0: Json, p1: string, v1: Json)
    ensures Replay(t, enc, [(p0, v0), (p1, v1)]) == t[p0 := enc.Node(v0)][p1 := enc.Node(v1)]
  {
    ReplaySnoc(t, enc, [], p0, v0);
    ReplaySnoc(t, enc, [(p0, v0)], p1, v1);
    assert [] + [(p0, v0)] == [(p0, v0)];
    assert [(p0, v0)] + [(p1, v1)] == [(p0, v0), (p1, v1)];
  }

  /** Three writes in a row. */
  lemma ReplayThree(t: Tree, enc: Encoder, p0: string, v0: Json, p1: string, v1: Json, p2: string, v2: Json)
    ensures Replay(t, enc, [(p0, v0), (p1, v1), (p2, v2)]) == t[p0 := enc.Node(v0)][p1 := enc.Node(v1)][p2 := enc.Node(v2)]
  {
    ReplayTwo(t, enc, p0, v0, p1, v1);
    ReplaySnoc(t, enc, [(p0, v0), (p1, v1)], p2, v2);
    assert [(p0, v0), (p1, v1)] + [(p2, v2)] == [(p0, v0), (p1, v1), (p2, v2)];
  }

  /** After a run of writes, a written path loads to its last document and every other path is as before. */
  lemma {:induction false} ReplayAt(t: Tree, enc: Encoder, ws: seq<(string, Json)>, p: string)
    ensures LastWrite(ws, p).Some? ==> LoadJson(Replay(t, enc, ws), p) == Success(LastWrite(ws, p).value)
    ensures LastWrite(ws, p).None? ==> (p in Replay(t, enc, ws) <==> p in t)
    ensures LastWrite(ws, p).None? && p in t ==> Replay(t, enc, ws)[p] == t[p]
  {
    if |ws| > 0 {
      ReplayAt(t, enc, ws[..|ws| - 1], p);
    }
  }

  /**
   * The file tree as the running process sees it. `writes` records every
   * `write_json` in order, so that "persisted before" is observable.
   */
  class Store {
    var tree: Tree
    ghost var writes: seq<(string, Json)>
    const enc: Encoder

    constructor(t: Tree, enc: Encoder)
      ensures tree == t && writes == [] && this.enc == enc
    {
      tree := t;
      writes := [];
      this.enc := enc;
    }

    /** `write_json(path, v)`. */
    method WriteJson(p: string, v: Json)
      modifies this
      ensures tree == old(tree)[p := enc.Node(v)]
      ensures writes == old(writes) + [(p, v)]
    {
      tree := tree[p := enc.Node(v)];
      writes := writes + [(p, v)];
    }
  }
}
