/**
 * The neural-network registry: one JSON entry per network architecture,
 * keyed by its id, with a name, a family and the caller's extra fields.
 */
module NeuralNets {
  import opened Wrappers
  import opened Json
  import opened Fs

  /** `list_neural_nets()` over the directory listing `paths`: every entry that loads. */
  method ListNeuralNets(t: Tree, paths: seq<string>) returns (items: seq<Json>)
    requires Enumerates(t, NeuralNetsDir, paths)
    ensures items == Loaded(t, paths)
    ensures forall v :: v in items <==> exists i :: 0 <= i < |paths| && LoadJson(t, paths[i]) == Success(v)
  {
    items := ListJson(t, paths);
    LoadedComplete(t, paths);
  }

  /** `None` or a string, as a JSON value. */
  function OptStr(s: Option<string>): Json {
    if s.Some? then JStr(s.value) else JNull
  }

  /** The base fields of a new network entry; `name or nn_id`. */
  function NetBase(nnId: string, name: Option<string>, family: Option<string>): map<string, Json> {
    map["id" := JStr(nnId), "name" := JStr(if name.Some? && name.value != "" then name.value else nnId),
        "family" := OptStr(family)]
  }

  /** The entry `create_neural_net` stores: the family is kept even when it is `None`. */
  function NetEntry(nnId: string, name: Option<string>, family: Option<string>, extra: map<string, Json>): (e: map<string, Json>)
    ensures e.Keys == {"id", "name", "family"} + extra.Keys
    ensures forall k :: k in extra ==> e[k] == extra[k]
    ensures "id" !in extra ==> e["id"] == JStr(nnId)
    ensures "name" !in extra ==> e["name"] == JStr(if name.Some? && name.value != "" then name.value else nnId)
    ensures "family" !in extra ==> e["family"] == OptStr(family) && (family.None? ==> e["family"] == JNull)
  {
    var base := NetBase(nnId, name, family);
    if |extra| > 0 then base + extra else base
  }

  /** `create_neural_net(nn_id, name, family, extra)`. */
  method CreateNeuralNet(store: Store, nnId: string, name: Option<string>, family: Option<string>,
                         extra: map<string, Json>) returns (entry: Json)
    modifies store
    ensures entry == JObj(NetEntry(nnId, name, family, extra))
    ensures store.tree == old(store.tree)[EntryPath(NeuralNetsDir, nnId) := store.enc.Node(entry)]
    ensures store.writes == old(store.writes) + [(EntryPath(NeuralNetsDir, nnId), entry)]
    ensures LoadJson(store.tree, EntryPath(NeuralNetsDir, nnId)) == Success(entry)
  {
    var fields := NetBase(nnId, name, family);
    if |extra| > 0 {
      fields := fields + extra;
    }
    entry := JObj(fields);
    store.WriteJson(EntryPath(NeuralNetsDir, nnId), entry);
  }
}
