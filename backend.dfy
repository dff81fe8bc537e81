/**
 * The backend's own endpoints around the registry: the module listing, the
 * pending workspace with its defaults, the guardrail configuration, the
 * workspace mappings, model and neural-net entries without null fields, the
 * neural-network catalog reader, the newest metrics document, and the
 * anti-echo wrapper around a generated chat answer.
 */
module Backend {
  import opened Wrappers
  import opened Json
  import opened Text
  import opened Fs
  import Loader
  import Workspaces
  import Readers
  import Guardrails
  import Chat
  import Counting

  // ---------------------------------------------------------------- module listing

  /** The keys of a listed module that is not an error record. */
  const ViewKeys: set<string> := {"id", "name", "version", "description", "capabilities", "task",
                                  "inputs", "outputs", "ui_panels", "resources", "permissions"}

  /** The element of `list_modules()["modules"]` for one discovered record. */
  function ModuleView(m: map<string, Json>): map<string, Json> {
    if Truthy(Get(m, "error", JNull)) then
      map["id" := Get(m, "id", JNull), "error" := m["error"]]
    else
      FieldsOr(m, ViewDefaultsOf(m))
  }

  /**
   * An error record lists as its id and error only; any other record lists
   * exactly the listed fields, each as the record has it when present.
   */
  lemma ModuleViewShape(m: map<string, Json>)
    ensures var v := ModuleView(m);
      "id" in v && v["id"] == Get(m, "id", JNull)
      && (Truthy(Get(m, "error", JNull)) ==> v.Keys == {"id", "error"} && v["error"] == m["error"])
      && (!Truthy(Get(m, "error", JNull)) ==>
            v.Keys == ViewKeys && forall k :: k in ViewKeys && k in m ==> v[k] == m[k])
  {
    if !Truthy(Get(m, "error", JNull)) {
      ViewDefaultKeys(m);
    }
  }

  /** The listed fields of a record that is not an error record, each with the value it takes when missing. */
  function ViewDefaultsOf(m: map<string, Json>): map<string, Json> {
    map["id" := JNull,
        "name" := Get(m, "id", JNull),
        "version" := JStr("0.0.0"),
        "description" := JStr(""),
        "capabilities" := JArr([]),
        "task" := JNull,
        "inputs" := JArr([]),
        "outputs" := JArr([]),
        "ui_panels" := JArr([]),
        "resources" := JObj(map[]),
        "permissions" := JObj(map[])]
  }

  lemma ViewDefaultKeys(m: map<string, Json>)
    ensures ViewDefaultsOf(m).Keys == ViewKeys
    ensures "id" in ViewDefaultsOf(m) && ViewDefaultsOf(m)["id"] == JNull
  {
  }

  /** `{k: m.get(k, d) for k, d in defaults}`: every field of `defaults`, read from `m` when present. */
  function FieldsOr(m: map<string, Json>, defaults: map<string, Json>): (v: map<string, Json>)
    ensures v.Keys == defaults.Keys
    ensures forall k :: k in defaults ==> v[k] == (if k in m then m[k] else defaults[k])
  {
    map k | k in defaults :: Get(m, k, defaults[k])
  }

  /** A listed record's missing fields take their defaults: the id for the name, "0.0.0", no capabilities, no resources. */
  lemma ViewDefaults(m: map<string, Json>)
    requires !Truthy(Get(m, "error", JNull))
    ensures var v := ModuleView(m);
      ("name" !in m ==> "name" in v && v["name"] == Get(m, "id", JNull))
      && ("version" !in m ==> "version" in v && v["version"] == JStr("0.0.0"))
      && ("capabilities" !in m ==> "capabilities" in v && v["capabilities"] == JArr([]))
      && ("resources" !in m ==> "resources" in v && v["resources"] == JObj(map[]))
  {
    ViewDefaultKeys(m);
  }

  /** `list_modules()["modules"]` over the manifest directories `found`, in discovery order. */
  function Views(t: Tree, found: seq<string>): (vs: seq<map<string, Json>>)
    ensures |vs| == |found|
  {
    seq(|found|, i requires 0 <= i < |found| => ModuleView(Loader.Record(t, found[i]).fields))
  }

  /** `list_modules()`: discovery, then one listing element per record. */
  method ListModules(t: Tree, found: seq<string>) returns (views: seq<map<string, Json>>)
    requires Loader.ListsManifests(t, found)
    ensures views == Views(t, found)
  {
    var records := Loader.DiscoverModules(t, found);
    views := ViewLoop(records);
    ViewsOf(t, found, views);
  }

  /** The loop of `list_modules()`: one listing element per record, appended in order. */
  method ViewLoop(records: seq<Json>) returns (views: seq<map<string, Json>>)
    requires forall j :: 0 <= j < |records| ==> records[j].JObj?
    ensures |views| == |records|
    ensures forall j :: 0 <= j < |records| ==> views[j] == ModuleView(records[j].fields)
  {
    views := [];
    var i := 0;
    while i < |records|
      invariant 0 <= i <= |records|
      invariant |views| == i
      invariant forall j :: 0 <= j < i ==> views[j] == ModuleView(records[j].fields)
    {
      views := views + [ModuleView(records[i].fields)];
      i := i + 1;
    }
  }

  /** One listing element per discovered record, in order, is the listing. */
  lemma ViewsOf(t: Tree, found: seq<string>, views: seq<map<string, Json>>)
    requires |views| == |found|
    requires forall j :: 0 <= j < |found| ==> views[j] == ModuleView(Loader.Record(t, found[j]).fields)
    ensures views == Views(t, found)
  {
  }

  // ---------------------------------------------------------------- workspace

  const DefaultSeed: int := 1337

  /** The workspace `get_workspace` reports when none has been saved. */
  const NoWorkspace: map<string, Json> := Workspaces.DefaultWorkspace["seed" := JInt(DefaultSeed)]

  /** The backward-compatibility defaults `get_workspace` fills into a stored workspace. */
  function WithDefaults(ws: map<string, Json>): (r: map<string, Json>)
    ensures r.Keys == ws.Keys + {"name", "seed"}
    ensures forall k :: k in ws ==> r[k] == ws[k]
    ensures "name" !in ws ==> r["name"] == JStr(Workspaces.PendingName)
    ensures "seed" !in ws ==> r["seed"] == JInt(DefaultSeed)
  {
    var named := if "name" in ws then ws else ws["name" := JStr(Workspaces.PendingName)];
    if "seed" in named then named else named["seed" := JInt(DefaultSeed)]
  }

  /**
   * The defaults applied to a stored document that is not an object: the two
   * membership tests run on the list or string, and the assignment raises.
   */
  function Fill(ws: Json): (r: Result<Json>)
    ensures ws.JObj? ==> r == Success(JObj(WithDefaults(ws.fields)))
    ensures !ws.JObj? && r.Success? ==> r.value == ws
  {
    match ws
    case JObj(o) => Success(JObj(WithDefaults(o)))
    case JArr(items) =>
      if JStr("name") in items && JStr("seed") in items then Success(ws)
      else Failure("list indices must be integers or slices, not str")
    case JStr(s) =>
      if Contains(s, "name") && Contains(s, "seed") then Success(ws)
      else Failure("'str' object does not support item assignment")
    case _ => Failure("argument of type '" + TypeName(ws) + "' is not iterable")
  }

  /** `get_workspace()`. */
  function GetWorkspace(t: Tree): (r: Result<Json>)
    ensures !Exists(t, PendingWorkspacePath) ==> r == Success(JObj(NoWorkspace))
    ensures Exists(t, PendingWorkspacePath) && LoadJson(t, PendingWorkspacePath).Failure? ==> r.Failure?
    ensures r.Success? && r.value.JObj? ==> "name" in r.value.fields && "seed" in r.value.fields
  {
    if Exists(t, PendingWorkspacePath) then
      var ws :- LoadJson(t, PendingWorkspacePath);
      Fill(ws)
    else Success(JObj(NoWorkspace))
  }

  const InvalidSelection: string := "selected_modules must be a list of module ids"

  /** `int(payload.get("seed", 1337))`, falling back to 1337 where `int` raises. */
  function SeedOr(payload: map<string, Json>): int {
    match PayloadInt(payload, "seed", DefaultSeed)
    case Some(n) => n
    case None => DefaultSeed
  }

  /** The snapshot `save_workspace` writes; `now` is the current local time. */
  function WorkspaceSnapshot(payload: map<string, Json>, now: string): (s: map<string, Json>)
    ensures s.Keys == {"id", "name", "selected_modules", "seed", "updated_at"}
    ensures s["id"] == JStr(Workspaces.PendingId)
    ensures s["selected_modules"] == Get(payload, "selected_modules", JArr([]))
    ensures Truthy(s["name"])
    ensures Truthy(Get(payload, "name", JNull)) ==> s["name"] == payload["name"]
    ensures !Truthy(Get(payload, "name", JNull)) ==> s["name"] == JStr(Workspaces.PendingName)
    ensures "seed" !in payload ==> s["seed"] == JInt(DefaultSeed)
    ensures PayloadInt(payload, "seed", DefaultSeed).Some? ==> s["seed"] == JInt(PayloadInt(payload, "seed", DefaultSeed).value)
  {
    map["id" := JStr(Workspaces.PendingId),
        "name" := Or(Get(payload, "name", JNull), JStr(Workspaces.PendingName)),
        "selected_modules" := Get(payload, "selected_modules", JArr([])),
        "seed" := JInt(SeedOr(payload)),
        "updated_at" := JStr(now)]
  }

  /**
   * `save_workspace(payload)`: a selection that is not a list is refused (the
   * 400 response is the Failure) and nothing is written; otherwise the
   * snapshot replaces the pending workspace, and reading it back gives it
   * unchanged.
   */
  method SaveWorkspace(store: Store, payload: map<string, Json>, now: string) returns (r: Result<Json>)
    modifies store
    ensures !Get(payload, "selected_modules", JArr([])).JArr? ==>
      r == Failure(InvalidSelection) && store.tree == old(store.tree) && store.writes == old(store.writes)
    ensures Get(payload, "selected_modules", JArr([])).JArr? ==>
      var snap := JObj(WorkspaceSnapshot(payload, now));
      r == Success(JObj(map["ok" := JBool(true), "workspace" := snap]))
      && store.tree == old(store.tree)[PendingWorkspacePath := store.enc.Node(snap)]
      && store.writes == old(store.writes) + [(PendingWorkspacePath, snap)]
      && GetWorkspace(store.tree) == Success(snap)
  {
    var selected := Get(payload, "selected_modules", JArr([]));
    if !selected.JArr? {
      return Failure(InvalidSelection);
    }
    var snapshot := WorkspaceSnapshot(payload, now);
    store.WriteJson(PendingWorkspacePath, JObj(snapshot));
    assert WithDefaults(snapshot) == snapshot;
    r := Success(JObj(map["ok" := JBool(true), "workspace" := JObj(snapshot)]));
  }

  // ---------------------------------------------------------------- guardrails configuration

  /** `default_guardrails()`. */
  const DefaultGuardrails: map<string, Json> := map[
    "max_tokens" := JInt(256),
    "pii_regex" := JArr([JStr("\\b\\d{3}-\\d{2}-\\d{4}\\b")]),
    "content_filters" := JArr([JStr("hate"), JStr("violence")]),
    "allowed_file_types" := JArr([JStr(".txt"), JStr(".csv"), JStr(".json")])]

  /** `get_guardrails()`: the stored configuration, or the defaults when there is none. */
  function GetGuardrails(t: Tree): (r: Result<Json>)
    ensures !Exists(t, GuardrailsConfigPath) ==> r == Success(JObj(DefaultGuardrails))
    ensures Exists(t, GuardrailsConfigPath) ==> r == LoadJson(t, GuardrailsConfigPath)
  {
    if Exists(t, GuardrailsConfigPath) then LoadJson(t, GuardrailsConfigPath)
    else Success(JObj(DefaultGuardrails))
  }

  /** The defaults updated with the payload's values for the default keys only. */
  function GuardrailsUpdate(payload: map<string, Json>): (cfg: map<string, Json>)
    ensures cfg.Keys == DefaultGuardrails.Keys
    ensures forall k :: k in cfg && k in payload ==> cfg[k] == payload[k]
    ensures forall k :: k in cfg && k !in payload ==> cfg[k] == DefaultGuardrails[k]
  {
    map k | k in DefaultGuardrails :: if k in payload then payload[k] else DefaultGuardrails[k]
  }

  /** Saving a saved configuration again changes nothing, and keys outside the defaults never matter. */
  lemma GuardrailsUpdateStable(payload: map<string, Json>, other: map<string, Json>)
    ensures GuardrailsUpdate(GuardrailsUpdate(payload)) == GuardrailsUpdate(payload)
    ensures (forall k :: k in DefaultGuardrails ==> (k in payload <==> k in other) && (k in payload ==> payload[k] == other[k]))
            ==> GuardrailsUpdate(payload) == GuardrailsUpdate(other)
  {
  }

  /** `set_guardrails(payload)`: the merged configuration replaces the stored one and is what reading gives back. */
  method SetGuardrails(store: Store, payload: map<string, Json>) returns (cfg: Json)
    modifies store
    ensures cfg == JObj(GuardrailsUpdate(payload))
    ensures store.tree == old(store.tree)[GuardrailsConfigPath := store.enc.Node(cfg)]
    ensures store.writes == old(store.writes) + [(GuardrailsConfigPath, cfg)]
    ensures GetGuardrails(store.tree) == Success(cfg)
  {
    cfg := JObj(GuardrailsUpdate(payload));
    store.WriteJson(GuardrailsConfigPath, cfg);
  }

  // ---------------------------------------------------------------- mappings

  /**
   * `save_mappings(payload)`: the two maps replace the stored mappings. The
   * evaluation jobs it then starts for mapped models without metrics are not
   * part of this model.
   */
  method SaveMappings(store: Store, payload: map<string, Json>) returns (resp: Json)
    modifies store
    ensures resp == JObj(map["ok" := JBool(true), "mappings" := JObj(Workspaces.MappingsDoc(payload))])
    ensures store.writes == old(store.writes) + [(MappingsPath, JObj(Workspaces.MappingsDoc(payload)))]
    ensures store.tree == old(store.tree)[MappingsPath := store.enc.Node(JObj(Workspaces.MappingsDoc(payload)))]
    ensures LoadJson(store.tree, MappingsPath) == Success(JObj(Workspaces.MappingsDoc(payload)))
  {
    var data := Workspaces.SaveMappings(store, payload);
    resp := JObj(map["ok" := JBool(true), "mappings" := data]);
  }

  // ---------------------------------------------------------------- registry entries

  /** `payload.get("id") or <prefix + hex>`: the id of a new entry; `hex` is the random fallback suffix. */
  function NewId(payload: map<string, Json>, prefix: string, hex: string): (id: Json)
    ensures Truthy(Get(payload, "id", JNull)) ==> id == payload["id"]
    ensures !Truthy(Get(payload, "id", JNull)) ==> id == JStr(prefix + hex)
  {
    Or(Get(payload, "id", JNull), JStr(prefix + hex))
  }

  /** The entry `create_model` assembles before dropping the null values. */
  function ModelFields(payload: map<string, Json>, hex: string, now: string): (e: map<string, Json>)
    ensures e.Keys == {"id", "name", "capability", "task", "nn_id", "train_seed", "dataset_id",
                       "dataset_hash", "created_at", "metrics"}
  {
    var id := NewId(payload, "model_", hex);
    map["id" := id,
        "name" := Get(payload, "name", id),
        "capability" := Get(payload, "capability", JNull),
        "task" := Get(payload, "task", JNull),
        "nn_id" := Get(payload, "nn_id", JNull),
        "train_seed" := Get(payload, "train_seed", JNull),
        "dataset_id" := Get(payload, "dataset_id", JNull),
        "dataset_hash" := Get(payload, "dataset_hash", JNull),
        "created_at" := JStr(now),
        "metrics" := Get(payload, "metrics", JObj(map[]))]
  }

  /**
   * `create_model(payload)`: the entry without its null values, written to
   * `<id>.json`; the id is never dropped and a given field survives exactly
   * when it is not null.
   */
  method CreateModel(store: Store, payload: map<string, Json>, hex: string, now: string) returns (entry: map<string, Json>)
    modifies store
    ensures entry == DropNulls(ModelFields(payload, hex, now))
    ensures "id" in entry
    ensures var p := EntryPath(ModelsDir, Show(entry["id"]));
      store.tree == old(store.tree)[p := store.enc.Node(JObj(entry))]
      && store.writes == old(store.writes) + [(p, JObj(entry))]
  {
    var fields := ModelFields(payload, hex, now);
    entry := DropNulls(fields);
    ModelEntryShape(payload, hex, now);
    store.WriteJson(EntryPath(ModelsDir, Show(fields["id"])), JObj(entry));
  }

  /**
   * The entry `create_model` stores: the id is never dropped, no value is
   * null, and a given field survives exactly when the payload has it non-null.
   */
  lemma ModelEntryShape(payload: map<string, Json>, hex: string, now: string)
    ensures var entry := DropNulls(ModelFields(payload, hex, now));
      "id" in entry && entry["id"] == NewId(payload, "model_", hex) && "created_at" in entry
      && (forall k :: k in entry ==> entry[k] != JNull)
      && (forall k :: k in {"capability", "task", "nn_id", "train_seed", "dataset_id", "dataset_hash"} ==>
            (k in entry <==> k in payload && payload[k] != JNull))
  {
  }

  /** The fields every neural-net entry has. */
  const NetKeys: set<string> := {"id", "name", "family", "task", "input", "output", "init", "spec", "created_at"}

  /** The entry `create_neural_net` assembles; `param_count` and `shapes` only when the payload has them. */
  function NetFields(payload: map<string, Json>, hex: string, now: string): (e: map<string, Json>)
    ensures e.Keys == NetKeys
                      + (if "param_count" in payload then {"param_count"} else {})
                      + (if "shapes" in payload then {"shapes"} else {})
  {
    var id := NewId(payload, "nn_", hex);
    NetBaseKeys(payload, id, now);
    var base := NetBase(payload, id, now);
    var counted := if "param_count" in payload then base["param_count" := payload["param_count"]] else base;
    if "shapes" in payload then counted["shapes" := payload["shapes"]] else counted
  }

  /** The fixed part of a neural-net entry. */
  function NetBase(payload: map<string, Json>, id: Json, now: string): map<string, Json> {
    map[
      "id" := id,
      "name" := Get(payload, "name", id),
      "family" := Get(payload, "family", JNull),
      "task" := Get(payload, "task", JNull),
      "input" := Get(payload, "input", JNull),
      "output" := Get(payload, "output", JNull),
      "init" := Get(payload, "init", JNull),
      "spec" := Get(payload, "spec", JNull),
      "created_at" := JStr(now)]
  }

  lemma NetBaseKeys(payload: map<string, Json>, id: Json, now: string)
    ensures NetBase(payload, id, now).Keys == NetKeys
  {
  }

  /**
   * `create_neural_net(payload)`: the file holds the entry without null
   * values; the response carries the entry as assembled, nulls included.
   */
  method CreateNeuralNet(store: Store, payload: map<string, Json>, hex: string, now: string) returns (entry: map<string, Json>)
    modifies store
    ensures entry == NetFields(payload, hex, now)
    ensures var p := EntryPath(NeuralNetsDir, Show(entry["id"]));
      var stored := DropNulls(entry);
      store.tree == old(store.tree)[p := store.enc.Node(JObj(stored))]
      && store.writes == old(store.writes) + [(p, JObj(stored))]
      && LoadJson(store.tree, p) == Success(JObj(stored))
      && (forall k :: k in stored ==> stored[k] != JNull)
      && (forall k :: k in entry && entry[k] != JNull ==> k in stored && stored[k] == entry[k])
  {
    entry := NetFields(payload, hex, now);
    store.WriteJson(EntryPath(NeuralNetsDir, Show(entry["id"])), JObj(DropNulls(entry)));
  }

  // ---------------------------------------------------------------- neural-network catalog

  /** A catalog block while it is read: the id token and the `name`/`family` values seen so far. */
  datatype Block = Block(id: string, name: Option<string>, family: Option<string>)

  /** The blocks completed so far and the one being read. */
  datatype CatalogState = CatalogState(done: seq<Block>, current: Option<Block>)

  /** A blank or comment line (after the trailing whitespace is removed). */
  predicate Skipped(line: string) { Strip(line) == "" || HasPrefix(Strip(line), "#") }

  /** A line that opens a new block. */
  predicate IdLine(line: string) { HasPrefix(LStrip(line), "- id:") }

  /** The text after the first `:`, stripped of whitespace and then of double quotes. */
  function ValueAfterColon(line: string): string {
    match SplitOnce(line, ":")
    case Some((_, after)) => StripChar(Strip(after), '"')
    case None => ""
  }

  /** A `key: value` line inside a block: `name` and `family` with a non-empty value are recorded. */
  function FieldLine(st: CatalogState, line: string): (r: CatalogState)
    ensures r.done == st.done && (r.current.Some? <==> st.current.Some?)
    ensures r.current.Some? ==> r.current.value.id == st.current.value.id
  {
    if st.current.None? then st
    else
      match SplitOnce(line, ":")
      case None => st
      case Some((k0, _)) =>
        var k := Strip(k0);
        var v := ValueAfterColon(line);
        if v == "" then st
        else if k == "name" then CatalogState(st.done, Some(st.current.value.(name := Some(v))))
        else if k == "family" then CatalogState(st.done, Some(st.current.value.(family := Some(v))))
        else st
  }

  /** A block-opening line: the open block (if any) is completed and a new one begins. */
  function OpenBlock(st: CatalogState, id: string): (r: CatalogState)
    ensures Blocks(r) == Blocks(st) + [Block(id, None, None)]
  {
    CatalogState(st.done + (if st.current.Some? then [st.current.value] else []), Some(Block(id, None, None)))
  }

  /** One line of the catalog applied to the reader's state. */
  function CatalogStep(st: CatalogState, raw: string): CatalogState {
    var line := RStrip(raw);
    if Skipped(line) then st
    else if IdLine(line) then OpenBlock(st, ValueAfterColon(line))
    else FieldLine(st, line)
  }

  /** The reader's state after the lines `lines`, starting from `st`. */
  function CatalogFold(st: CatalogState, lines: seq<string>): CatalogState
    decreases |lines|
  {
    if |lines| == 0 then st else CatalogFold(CatalogStep(st, lines[0]), lines[1..])
  }

  /** The blocks of a state, the open one last. */
  function Blocks(st: CatalogState): seq<Block> {
    st.done + (if st.current.Some? then [st.current.value] else [])
  }

  function Ids(bs: seq<Block>): seq<string> {
    seq(|bs|, i requires 0 <= i < |bs| => bs[i].id)
  }

  /** The id token of every block-opening line, in order. */
  function IdTokens(lines: seq<string>): seq<string>
    decreases |lines|
  {
    if |lines| == 0 then []
    else
      var line := RStrip(lines[0]);
      (if !Skipped(line) && IdLine(line) then [ValueAfterColon(line)] else []) + IdTokens(lines[1..])
  }

  /** The normalised catalog entries: blocks with an empty id are dropped, the name defaults to the id. */
  function Normalise(bs: seq<Block>): (out: seq<Json>)
    ensures |out| <= |bs|
    ensures forall i :: 0 <= i < |out| ==>
              out[i].JObj? && out[i].fields.Keys == {"id", "name", "family"}
              && Truthy(out[i].fields["id"]) && Truthy(out[i].fields["name"])
    decreases |bs|
  {
    if |bs| == 0 then []
    else
      var b := bs[0];
      var rest := Normalise(bs[1..]);
      if b.id == "" then rest
      else
        [JObj(map["id" := JStr(b.id),
                  "name" := JStr(if b.name.Some? && b.name.value != "" then b.name.value else b.id),
                  "family" := if b.family.Some? then JStr(b.family.value) else JNull])] + rest
  }

  /** `_parse_catalog()` over the lines of `neural_networks.yaml` (None when the file does not exist). */
  function Catalog(text: Option<seq<string>>): seq<Json> {
    if text.None? then [] else Normalise(Blocks(CatalogFold(CatalogState([], None), text.value)))
  }

  lemma IdsAppend(a: seq<Block>, b: seq<Block>)
    ensures Ids(a + b) == Ids(a) + Ids(b)
  {
  }

  /** Changing only the fields of the open block keeps the ids. */
  lemma SameIds(a: CatalogState, b: CatalogState)
    requires a.done == b.done && (a.current.Some? <==> b.current.Some?)
    requires a.current.Some? ==> a.current.value.id == b.current.value.id
    ensures Ids(Blocks(a)) == Ids(Blocks(b))
  {
    if a.current.Some? {
      IdsAppend(a.done, [a.current.value]);
      IdsAppend(b.done, [b.current.value]);
    } else {
      assert Blocks(a) == Blocks(b);
    }
  }

  /** One step adds exactly the token of a block-opening line to the ids of the blocks. */
  lemma CatalogStepIds(st: CatalogState, raw: string)
    ensures var line := RStrip(raw);
      Ids(Blocks(CatalogStep(st, raw)))
        == Ids(Blocks(st)) + (if !Skipped(line) && IdLine(line) then [ValueAfterColon(line)] else [])
  {
    var line := RStrip(raw);
    if Skipped(line) {
      assert CatalogStep(st, raw) == st;
      assert Ids(Blocks(st)) + [] == Ids(Blocks(st));
    } else if IdLine(line) {
      var id := ValueAfterColon(line);
      assert CatalogStep(st, raw) == OpenBlock(st, id);
      IdsAppend(Blocks(st), [Block(id, None, None)]);
    } else {
      var st' := FieldLine(st, line);
      assert CatalogStep(st, raw) == st';
      SameIds(st, st');
      assert Ids(Blocks(st)) + [] == Ids(Blocks(st));
    }
  }

  /** The blocks the reader ends with are exactly one per block-opening line, carrying that line's id. */
  lemma {:induction false} CatalogIds(st: CatalogState, lines: seq<string>)
    ensures Ids(Blocks(CatalogFold(st, lines))) == Ids(Blocks(st)) + IdTokens(lines)
    decreases |lines|
  {
    if |lines| == 0 {
      assert Ids(Blocks(st)) + [] == Ids(Blocks(st));
    } else {
      var line := RStrip(lines[0]);
      var tok := if !Skipped(line) && IdLine(line) then [ValueAfterColon(line)] else [];
      assert IdTokens(lines) == tok + IdTokens(lines[1..]);
      assert CatalogFold(st, lines) == CatalogFold(CatalogStep(st, lines[0]), lines[1..]);
      CatalogStepIds(st, lines[0]);
      CatalogIds(CatalogStep(st, lines[0]), lines[1..]);
      ConcatAssoc(Ids(Blocks(st)), tok, IdTokens(lines[1..]));
    }
  }

  /** Parsing from the empty state keeps every `id:` line's value, in order, as the block ids. */
  lemma CatalogIdsFromStart(lines: seq<string>)
    ensures Ids(Blocks(CatalogFold(CatalogState([], None), lines))) == IdTokens(lines)
  {
    CatalogIds(CatalogState([], None), lines);
    assert Ids(Blocks(CatalogState([], None))) == [];
  }

  /** The parse loop, with the block being read as a mutable variable. */
  method ParseCatalog(text: Option<seq<string>>) returns (out: seq<Json>)
    ensures out == Catalog(text)
    ensures text.Some? ==> Ids(Blocks(CatalogFold(CatalogState([], None), text.value))) == IdTokens(text.value)
  {
    if text.None? {
      return [];
    }
    var lines := text.value;
    var done: seq<Block> := [];
    var current: Option<Block> := None;
    var i := 0;
    while i < |lines|
      invariant 0 <= i <= |lines|
      invariant CatalogFold(CatalogState(done, current), lines[i..]) == CatalogFold(CatalogState([], None), lines)
    {
      assert lines[i..][1..] == lines[i + 1..];
      var st := CatalogStep(CatalogState(done, current), lines[i]);
      done, current := st.done, st.current;
      i := i + 1;
    }
    assert lines[|lines|..] == [];
    out := Normalise(Blocks(CatalogState(done, current)));
    CatalogIdsFromStart(lines);
  }

  // ---------------------------------------------------------------- newest metrics document

  /** The loaded documents that are objects; with a model id, `j.get` on any other raises inside the try and skips it. */
  function DictsOnly(items: seq<Json>): (r: seq<map<string, Json>>)
    ensures forall x :: x in r <==> JObj(x) in items
    decreases |items|
  {
    if |items| == 0 then []
    else (if items[0].JObj? then [items[0].fields] else []) + DictsOnly(items[1..])
  }

  /**
   * `metrics_latest(capability, model_id)`: the newest document of the
   * capability by timestamp (for the model, when one is given), or `{}`.
   * Without a model id every loaded document is sorted, so one that is not an
   * object makes the sort key raise.
   */
  method MetricsLatest(t: Tree, capability: string, paths: seq<string>, modelId: Option<string>)
    returns (r: Result<Json>)
    requires Enumerates(t, Readers.CapabilityDir(capability), paths)
    ensures var loaded := Loaded(t, paths);
      var any := modelId.None? || modelId.value == "";
      (any && Readers.AsDicts(loaded).Failure? ==> r.Failure?)
      && forall ms: seq<map<string, Json>> ::
           (if any then Readers.AsDicts(loaded) == Success(ms) else ms == Readers.Matching(DictsOnly(loaded), modelId)) ==>
             (|ms| == 0 ==> r == Success(JObj(map["metrics" := JObj(map[])])))
             && (|ms| == 1 ==> r == Success(JObj(map["metrics" := JObj(ms[0])])))
             && (|ms| > 0 && Readers.Sortable(ms) ==>
                   exists k: nat :: Readers.IsLatest(ms, k) && r == Success(JObj(map["metrics" := JObj(ms[k])])))
             && (!Readers.Sortable(ms) ==> r == Failure(Readers.CompareError))
    ensures !Exists(t, Readers.CapabilityDir(capability)) ==> r == Success(JObj(map["metrics" := JObj(map[])]))
  {
    var items := Readers.ListMetrics(t, capability, paths);
    var ms: seq<map<string, Json>>;
    if modelId.None? || modelId.value == "" {
      var ds := Readers.AsDicts(items);
      if ds.Failure? {
        return Failure(ds.error);
      }
      ms := ds.value;
    } else {
      ms := Readers.Matching(DictsOnly(items), modelId);
    }
    var newest := Readers.Newest(ms);
    if newest.Failure? {
      return Failure(newest.error);
    }
    r := Success(JObj(map["metrics" := newest.value]));
  }

  // ---------------------------------------------------------------- anti-echo

  /** A character `\w` matches (ASCII letters, digits and the underscore). */
  predicate IsWordChar(c: char) { IsAsciiLetter(c) || IsAsciiDigit(c) || c == '_' }

  /** The word characters of `s`, in order. */
  function WordChars(s: string): (r: string)
    ensures |r| <= |s|
    ensures forall i :: 0 <= i < |r| ==> IsWordChar(r[i])
    decreases |s|
  {
    if |s| == 0 then "" else (if IsWordChar(s[0]) then [s[0]] else "") + WordChars(s[1..])
  }

  lemma {:induction false} WordCharsConcat(a: string, b: string)
    ensures WordChars(a + b) == WordChars(a) + WordChars(b)
    decreases |a|
  {
    if |a| == 0 {
      assert a + b == b;
    } else {
      assert (a + b)[1..] == a[1..] + b;
      WordCharsConcat(a[1..], b);
    }
  }

  /** `re.sub(r"\W+", "", s.lower()).strip()`. */
  function Norm(s: string): string { WordChars(Lower(s)) }

  const AnswerPrefix: string := "Answer: "

  /** Prefixing "Answer: " adds the six letters of "answer" in front of the normalised text. */
  lemma NormPrefixed(s: string)
    ensures Norm(AnswerPrefix + s) == "answer" + Norm(s)
    ensures |Norm(AnswerPrefix + s)| == |Norm(s)| + 6
  {
    LowerConcat(AnswerPrefix, s);
    WordCharsConcat(Lower(AnswerPrefix), Lower(s));
    assert forall i :: 0 <= i < 8 ==> Lower(AnswerPrefix)[i] == "answer: "[i];
    assert Lower(AnswerPrefix) == "answer: ";
    assert WordChars("answer: ") == "answer";
  }

  /** The generated answer with "Answer: " in front when it merely repeats the input. */
  function Unechoed(text: string, raw: string): (r: string)
    ensures Norm(r) != Norm(text)
  {
    if Norm(raw) == Norm(text) then
      NormPrefixed(raw);
      AnswerPrefix + raw
    else raw
  }

  /**
   * The guarded answer: the answer through the guardrails (or unchanged when
   * they raise), then "Answer: " prepended and an `anti_echo` action appended
   * when the guarded text normalises to the input. Its text never does.
   */
  function GuardedAnswer(text: string, raw: string, cfg: Json, re: Guardrails.Regex): (g: Guardrails.Guarded)
    ensures Norm(g.result) != Norm(text)
    ensures var g0 := Guardrails.Apply(raw, cfg, re);
      var base := if g0.Success? then g0.value else Guardrails.Guarded(raw, raw, []);
      if Norm(base.result) == Norm(text)
      then g == Guardrails.Guarded(base.original, AnswerPrefix + base.result, base.actions + [Guardrails.AntiEcho])
      else g == base
  {
    var g0 := Guardrails.Apply(raw, cfg, re);
    var base := if g0.Success? then g0.value else Guardrails.Guarded(raw, raw, []);
    if Norm(base.result) == Norm(text) then
      NormPrefixed(base.result);
      Guardrails.Guarded(base.original, AnswerPrefix + base.result, base.actions + [Guardrails.AntiEcho])
    else base
  }

  /** The `processed` value: the guarded input, or the input unchanged with the error when the guardrails raise. */
  function Processed(text: string, cfg: Json, re: Guardrails.Regex): Json {
    match Guardrails.Apply(text, cfg, re)
    case Success(g) => Guardrails.GuardedJson(g)
    case Failure(e) =>
      JObj(map["original" := JStr(text), "result" := JStr(text), "actions" := JArr([]), "error" := JStr(e)])
  }

  /** The `answer` value for the outcome of `generate_answer(text)`. */
  function Answer(text: string, gen: Result<(string, Json)>, cfg: Json, re: Guardrails.Regex): Json {
    match gen
    case Failure(e) => JObj(map["error" := JStr(e)])
    case Success((raw, meta)) =>
      var r := Unechoed(text, raw);
      JObj(map["raw" := JStr(r), "guarded" := Guardrails.GuardedJson(GuardedAnswer(text, r, cfg, re)), "meta" := meta])
  }

  /**
   * `runtime_post(payload)`: the guardrail configuration is loaded first (its
   * raise is the Failure, with nothing answered); then the input text is
   * guarded and answered (counting the observation) only when it is a string;
   * the answer's guarded text never normalises to the input.
   */
  method RuntimePost(store: Store, payload: Json, re: Guardrails.Regex,
                     recs: seq<map<string, Json>>, files: Lines, src: Chat.LmSources, uni: Counting.Bucket,
                     bi: Counting.Table, draw: nat -> int)
    returns (gen: Option<Result<(string, Json)>>, resp: Result<Json>)
    modifies store
    ensures GetGuardrails(old(store.tree)).Failure? ==>
      gen.None? && store.tree == old(store.tree) && store.writes == old(store.writes)
      && resp == Failure(GetGuardrails(old(store.tree)).error)
    ensures GetGuardrails(old(store.tree)).Success? ==>
      var cfg := GetGuardrails(old(store.tree)).value;
      var text := if payload.JObj? then Get(payload.fields, "text", JNull) else JNull;
      (!text.JStr? ==>
         gen.None? && store.tree == old(store.tree) && store.writes == old(store.writes)
         && resp == Success(JObj(map["ok" := JBool(true), "received" := payload, "processed" := JNull,
                                     "answer" := JNull, "guardrails" := cfg])))
      && (text.JStr? ==>
         gen.Some?
         && Chat.Answered(text.s, recs, files, src, store.enc, old(store.tree), store.tree,
                          old(store.writes), store.writes, gen.value)
         && resp == Success(JObj(map["ok" := JBool(true), "received" := payload,
                                     "processed" := Processed(text.s, cfg, re),
                                     "answer" := Answer(text.s, gen.value, cfg, re), "guardrails" := cfg])))
  {
    var loaded := GetGuardrails(store.tree);
    if loaded.Failure? {
      gen := None;
      resp := Failure(loaded.error);
      return;
    }
    var cfg := loaded.value;
    var text := if payload.JObj? then Get(payload.fields, "text", JNull) else JNull;
    if !text.JStr? {
      gen := None;
      resp := Success(JObj(map["ok" := JBool(true), "received" := payload, "processed" := JNull,
                               "answer" := JNull, "guardrails" := cfg]));
      return;
    }
    var processed := Processed(text.s, cfg, re);
    var r := Chat.GenerateAnswer(store, text.s, recs, files, src, uni, bi, draw);
    gen := Some(r);
    resp := Success(JObj(map["ok" := JBool(true), "received" := payload, "processed" := processed,
                             "answer" := Answer(text.s, r, cfg, re), "guardrails" := cfg]));
  }
}
