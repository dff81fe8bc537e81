/**
 * The model registry: one JSON entry per trained model, keyed by its id,
 * created with defaults and overridden by the caller's extra fields.
 */
module Models {
  import opened Wrappers
  import opened Json
  import opened Fs

  /** `list_models()` over the directory listing `paths`: every entry that loads. */
  method ListModels(t: Tree, paths: seq<string>) returns (items: seq<Json>)
    requires Enumerates(t, ModelsDir, paths)
    ensures items == Loaded(t, paths)
    ensures forall v :: v in items <==> exists i :: 0 <= i < |paths| && LoadJson(t, paths[i]) == Success(v)
  {
    items := ListJson(t, paths);
    LoadedComplete(t, paths);
  }

  /** The base fields of a new model entry; `name or model_id`. */
  function BaseEntry(modelId: string, capability: string, task: string, name: Option<string>, now: string): map<string, Json> {
    map["id" := JStr(modelId),
        "name" := JStr(if name.Some? && name.value != "" then name.value else modelId),
        "capability" := JStr(capability), "task" := JStr(task),
        "created_at" := JStr(now), "metrics" := JObj(map[])]
  }

  const BaseKeys: set<string> := {"id", "name", "capability", "task", "created_at", "metrics"}

  /**
   * The entry `create_model` stores: the base fields, each overridden by the
   * `extra` key of the same name, plus the other `extra` keys.
   */
  function ModelEntry(modelId: string, capability: string, task: string, name: Option<string>,
                      extra: map<string, Json>, now: string): (e: map<string, Json>)
    ensures forall k :: k in e <==> k in BaseKeys || k in extra
    ensures forall k :: k in extra ==> e[k] == extra[k]
    ensures "id" !in extra ==> e["id"] == JStr(modelId)
    ensures "name" !in extra ==> e["name"] == JStr(if name.Some? && name.value != "" then name.value else modelId)
    ensures "metrics" !in extra ==> e["metrics"] == JObj(map[])
    ensures "created_at" !in extra ==> e["created_at"] == JStr(now)
    ensures "capability" !in extra ==> e["capability"] == JStr(capability)
    ensures "task" !in extra ==> e["task"] == JStr(task)
  {
    var base := BaseEntry(modelId, capability, task, name, now);
    if |extra| > 0 then base + extra else base
  }

  /** `create_model(model_id, capability, task, name, extra)`; `now` is `now_iso()`. */
  method CreateModel(store: Store, modelId: string, capability: string, task: string, name: Option<string>,
                     extra: map<string, Json>, now: string) returns (entry: Json)
    modifies store
    ensures entry == JObj(ModelEntry(modelId, capability, task, name, extra, now))
    ensures store.tree == old(store.tree)[EntryPath(ModelsDir, modelId) := store.enc.Node(entry)]
    ensures store.writes == old(store.writes) + [(EntryPath(ModelsDir, modelId), entry)]
    ensures LoadJson(store.tree, EntryPath(ModelsDir, modelId)) == Success(entry)
  {
    var fields := BaseEntry(modelId, capability, task, name, now);
    if |extra| > 0 {
      fields := fields + extra;
    }
    entry := JObj(fields);
    store.WriteJson(EntryPath(ModelsDir, modelId), entry);
  }
}
