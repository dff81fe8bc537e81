/** Writing a metrics document for a (capability, model) pair. */
module Recorder {
  import opened Wrappers
  import opened Json
  import opened Fs

  /** `ARTIFACTS_METRICS / capability / f"{model_id}.json"`. */
  function MetricsPath(capability: string, modelId: string): string {
    EntryPath(Child(MetricsDir, capability), modelId)
  }

  /**
   * The document `record_metrics` writes: a copy of the payload with a
   * timestamp and the model id added only where the payload lacks them.
   */
  function MetricsDoc(payload: map<string, Json>, modelId: string, now: string): (d: map<string, Json>)
    ensures d.Keys == payload.Keys + {"timestamp", "model_id"}
    ensures forall k :: k in payload ==> d[k] == payload[k]
    ensures "timestamp" !in payload ==> d["timestamp"] == JStr(now)
    ensures "model_id" !in payload ==> d["model_id"] == JStr(modelId)
  {
    var data := payload;
    var data := if "timestamp" !in data then data["timestamp" := JStr(now)] else data;
    if "model_id" !in data then data["model_id" := JStr(modelId)] else data
  }

  /** `record_metrics(capability, model_id, payload)`; `now` is `now_iso()`. */
  method RecordMetrics(store: Store, capability: string, modelId: string, payload: map<string, Json>, now: string)
    returns (out: string)
    modifies store
    ensures out == MetricsPath(capability, modelId)
    ensures store.tree == old(store.tree)[out := store.enc.Node(JObj(MetricsDoc(payload, modelId, now)))]
    ensures store.writes == old(store.writes) + [(out, JObj(MetricsDoc(payload, modelId, now)))]
  {
    var data := payload;
    if "timestamp" !in data {
      data := data["timestamp" := JStr(now)];
    }
    if "model_id" !in data {
      data := data["model_id" := JStr(modelId)];
    }
    out := MetricsPath(capability, modelId);
    store.WriteJson(out, JObj(data));
  }
}
