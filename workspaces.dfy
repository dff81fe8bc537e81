/**
 * The pending workspace (the modules the user has selected) and the
 * workspace mappings (which trained model serves which module or
 * capability): two singleton documents in the registry's `workspaces`
 * directory, each read with defaults and overwritten whole.
 */
module Workspaces {
  import opened Wrappers
  import opened Json
  import opened Fs

  const PendingId: string := "pending"
  const PendingName: string := "Pending Workspace"

  /** The workspace reported when none has been saved. */
  const DefaultWorkspace: map<string, Json> :=
    map["id" := JStr(PendingId), "name" := JStr(PendingName), "selected_modules" := JArr([]), "updated_at" := JNull]

  /** `get_pending_workspace()`: the stored document, or the default when there is none. */
  function PendingWorkspace(t: Tree): (r: Result<Json>)
    ensures !Exists(t, PendingWorkspacePath) ==> r == Success(JObj(DefaultWorkspace))
    ensures IsFile(t, PendingWorkspacePath) ==> r == LoadJson(t, PendingWorkspacePath)
  {
    if Exists(t, PendingWorkspacePath) then LoadJson(t, PendingWorkspacePath)
    else Success(JObj(DefaultWorkspace))
  }

  /** The record `save_pending_workspace` writes: fixed id and name, the selection as given. */
  function Snapshot(selected: seq<string>, now: string): (s: map<string, Json>)
    ensures s.Keys == DefaultWorkspace.Keys
    ensures s["id"] == DefaultWorkspace["id"] && s["name"] == DefaultWorkspace["name"]
    ensures s["selected_modules"] == StrList(selected) && s["updated_at"] == JStr(now)
  {
    map["id" := JStr(PendingId), "name" := JStr(PendingName),
        "selected_modules" := StrList(selected), "updated_at" := JStr(now)]
  }

  /** `save_pending_workspace(selected_modules)`; `now` is `now_iso()`. */
  method SavePendingWorkspace(store: Store, selected: seq<string>, now: string) returns (snapshot: Json)
    modifies store
    ensures snapshot == JObj(Snapshot(selected, now))
    ensures store.tree == old(store.tree)[PendingWorkspacePath := store.enc.Node(snapshot)]
    ensures store.writes == old(store.writes) + [(PendingWorkspacePath, snapshot)]
    ensures PendingWorkspace(store.tree) == Success(snapshot)
  {
    snapshot := JObj(Snapshot(selected, now));
    store.WriteJson(PendingWorkspacePath, snapshot);
  }

  /** The mappings reported when none have been saved. */
  const DefaultMappings: map<string, Json> := map["module_map" := JObj(map[]), "capability_map" := JObj(map[])]

  /** `get_mappings()`. */
  function Mappings(t: Tree): (r: Result<Json>)
    ensures !Exists(t, MappingsPath) ==> r == Success(JObj(DefaultMappings))
    ensures IsFile(t, MappingsPath) ==> r == LoadJson(t, MappingsPath)
  {
    if Exists(t, MappingsPath) then LoadJson(t, MappingsPath) else Success(JObj(DefaultMappings))
  }

  /** The record `save_mappings(payload)` writes: exactly the two map keys, each defaulting to `{}`. */
  function MappingsDoc(payload: map<string, Json>): (d: map<string, Json>)
    ensures d.Keys == DefaultMappings.Keys
    ensures forall k :: k in d ==> d[k] == (if k in payload then payload[k] else DefaultMappings[k])
  {
    map["module_map" := Get(payload, "module_map", JObj(map[])),
        "capability_map" := Get(payload, "capability_map", JObj(map[]))]
  }

  /** `save_mappings(payload)`: the other payload keys are dropped. */
  method SaveMappings(store: Store, payload: map<string, Json>) returns (data: Json)
    modifies store
    ensures data == JObj(MappingsDoc(payload))
    ensures store.tree == old(store.tree)[MappingsPath := store.enc.Node(data)]
    ensures store.writes == old(store.writes) + [(MappingsPath, data)]
    ensures Mappings(store.tree) == Success(data)
  {
    data := JObj(MappingsDoc(payload));
    store.WriteJson(MappingsPath, data);
  }
}
