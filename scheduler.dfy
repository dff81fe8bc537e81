/**
 * The job scheduler: a job is recorded as running, its task module is
 * resolved by name and run, and exactly one terminal record (finished with a
 * result, or failed with an error message) replaces the running one.
 */
module Scheduler {
  import opened Wrappers
  import opened Json
  import opened Fs
  import Text

  predicate LowerHex(c: char) { '0' <= c <= '9' || 'a' <= c <= 'f' }

  /** `uuid.uuid4().hex`: 32 lower-case hexadecimal digits. */
  predicate UuidHex(h: string) { |h| == 32 && forall i :: 0 <= i < |h| ==> LowerHex(h[i]) }

  /** `f"{job_type}_{uuid.uuid4().hex[:10]}"`. */
  function JobId(jobType: string, hex: string): (id: string)
    requires UuidHex(hex)
    ensures |id| == |jobType| + 11
    ensures id[..|jobType| + 1] == jobType + "_"
    ensures forall i :: |jobType| + 1 <= i < |id| ==> LowerHex(id[i])
  {
    jobType + "_" + hex[..10]
  }

  function JobPath(jobId: string): string { EntryPath(JobsDir, jobId) }

  const TasksPackage: string := "app.backend.tasks."

  /** The module a job type dispatches to: a module of the `tasks` package, named after the type. */
  function TaskModule(jobType: string): (m: string)
    ensures jobType == "train" ==> m == "app.backend.tasks.train"
    ensures jobType == "evaluate" ==> m == "app.backend.tasks.evaluate"
    ensures Text.HasPrefix(m, TasksPackage) && m[|TasksPackage|..] == jobType
  {
    TasksPackage + jobType
  }

  /** Distinct job types dispatch to distinct modules, so a job never runs another type's module. */
  lemma TaskModuleInjective(a: string, b: string)
    requires TaskModule(a) == TaskModule(b)
    ensures a == b
  {
    assert a == TaskModule(a)[|TasksPackage|..];
  }

  /**
   * The modules under `tasks`: `importError(m)` is the message of the exception
   * importing `m` raises, if any, and `run(m, payload)` the outcome of its
   * `run(payload)`.
   */
  datatype Tasks = Tasks(importError: string -> Option<string>, run: (string, map<string, Json>) -> Result<Json>)

  /** Importing and running the job's module. */
  function RunModule(tasks: Tasks, m: string, payload: map<string, Json>): Result<Json> {
    match tasks.importError(m)
    case Some(e) => Failure(e)
    case None => tasks.run(m, payload)
  }

  /**
   * The body's outcome: `train` and `evaluate` pass their module's outcome
   * through; for any other type a failure to import or run is reported as an
   * unknown job type.
   */
  function Outcome(jobType: string, payload: map<string, Json>, tasks: Tasks): (r: Result<Json>)
    ensures r.Success? <==> RunModule(tasks, TaskModule(jobType), payload).Success?
    ensures r.Success? ==> r == RunModule(tasks, TaskModule(jobType), payload)
    ensures jobType == "train" || jobType == "evaluate" ==> r == RunModule(tasks, TaskModule(jobType), payload)
    ensures jobType != "train" && jobType != "evaluate" && r.Failure? ==>
      r.error == "Unknown job type or import failed: " + jobType + " (" + RunModule(tasks, TaskModule(jobType), payload).error + ")"
  {
    var out := RunModule(tasks, TaskModule(jobType), payload);
    if jobType == "train" || jobType == "evaluate" then out
    else if out.Failure? then Failure("Unknown job type or import failed: " + jobType + " (" + out.error + ")")
    else out
  }

  /** The record persisted before the job runs. */
  function RunningRecord(jobId: string, jobType: string, payload: map<string, Json>, seed: int, createdAt: string): map<string, Json> {
    map["job_id" := JStr(jobId), "type" := JStr(jobType), "module_id" := Get(payload, "module_id", JNull),
        "seed" := JInt(seed), "created_at" := JStr(createdAt), "status" := JStr("running")]
  }

  /** The running record: status "running", the module id and seed, no result and no error. */
  lemma RunningRecordShape(jobId: string, jobType: string, payload: map<string, Json>, seed: int, createdAt: string)
    ensures var rec := RunningRecord(jobId, jobType, payload, seed, createdAt);
      rec.Keys == {"job_id", "type", "module_id", "seed", "created_at", "status"}
      && rec["job_id"] == JStr(jobId) && rec["status"] == JStr("running") && rec["seed"] == JInt(seed)
      && rec["module_id"] == Get(payload, "module_id", JNull)
      && "result" !in rec && "error" !in rec
  {
  }

  /** `record.update(...)` for the outcome: `finished` with the result, or `failed` with the error. */
  function FinalRecord(running: map<string, Json>, outcome: Result<Json>, finishedAt: string): map<string, Json> {
    match outcome
    case Success(out) => running + map["status" := JStr("finished"), "finished_at" := JStr(finishedAt), "result" := out]
    case Failure(e) => running + map["status" := JStr("failed"), "finished_at" := JStr(finishedAt), "error" := JStr(e)]
  }

  /**
   * Exactly one terminal record: status finished with `result` and no
   * `error`, or status failed with `error` and no `result`; the other fields
   * of the running record are kept.
   */
  lemma FinalRecordShape(jobId: string, jobType: string, payload: map<string, Json>, seed: int, createdAt: string,
                         outcome: Result<Json>, finishedAt: string)
    ensures var running := RunningRecord(jobId, jobType, payload, seed, createdAt);
      var rec := FinalRecord(running, outcome, finishedAt);
      rec.Keys == running.Keys + {"finished_at"} + (if outcome.Success? then {"result"} else {"error"})
      && rec["status"] == JStr(if outcome.Success? then "finished" else "failed")
      && rec["finished_at"] == JStr(finishedAt)
      && (outcome.Success? ==> rec["result"] == outcome.value && "error" !in rec)
      && (outcome.Failure? ==> rec["error"] == JStr(outcome.error) && "result" !in rec)
      && (forall k :: k in running && k != "status" ==> rec[k] == running[k])
  {
    RunningRecordShape(jobId, jobType, payload, seed, createdAt);
    FinalRecordOver(RunningRecord(jobId, jobType, payload, seed, createdAt), outcome, finishedAt);
  }

  /** The update of any record without `result`, `error` and `finished_at`: the shape of the terminal record. */
  lemma FinalRecordOver(running: map<string, Json>, outcome: Result<Json>, finishedAt: string)
    requires "result" !in running && "error" !in running && "finished_at" !in running
    ensures var rec := FinalRecord(running, outcome, finishedAt);
      rec.Keys == running.Keys + {"status", "finished_at"} + (if outcome.Success? then {"result"} else {"error"})
      && rec["status"] == JStr(if outcome.Success? then "finished" else "failed")
      && rec["finished_at"] == JStr(finishedAt)
      && (outcome.Success? ==> rec["result"] == outcome.value && "error" !in rec)
      && (outcome.Failure? ==> rec["error"] == JStr(outcome.error) && "result" !in rec)
      && (forall k :: k in running && k != "status" ==> rec[k] == running[k])
  {
  }

  /**
   * `run_job(job_type, payload)`; `hex` is the uuid, `createdAt` and
   * `finishedAt` the two `now_iso()` readings. A seed that `int` rejects
   * raises before anything is written; otherwise the running record and
   * then the terminal record are written at the job's path, and the
   * terminal record is returned.
   */
  method RunJob(store: Store, jobType: string, payload: map<string, Json>, hex: string,
                createdAt: string, finishedAt: string, tasks: Tasks) returns (r: Result<Json>)
    requires UuidHex(hex)
    modifies store
    ensures Seed(payload).None? ==>
      r == Failure(SeedError(payload)) && store.tree == old(store.tree) && store.writes == old(store.writes)
    ensures Seed(payload).Some? ==>
      var path := JobPath(JobId(jobType, hex));
      var running := RunningRecord(JobId(jobType, hex), jobType, payload, Seed(payload).value, createdAt);
      r == Success(JObj(FinalRecord(running, Outcome(jobType, payload, tasks), finishedAt)))
      && store.writes == old(store.writes) + [(path, JObj(running))] + [(path, r.value)]
      && store.tree == old(store.tree)[path := store.enc.Node(r.value)]
  {
    var jobId := JobId(jobType, hex);
    var path := JobPath(jobId);
    var record := Start(store, path, jobId, jobType, payload, createdAt);
    if record.None? {
      return Failure(SeedError(payload));
    }
    var final := Finish(store, path, record.value, Outcome(jobType, payload, tasks), finishedAt);
    return Success(JObj(final));
  }

  /** Building the running record, which raises on a bad seed, and its first write. */
  method Start(store: Store, path: string, jobId: string, jobType: string, payload: map<string, Json>, createdAt: string)
    returns (record: Option<map<string, Json>>)
    modifies store
    ensures Seed(payload).None? ==> record.None? && store.tree == old(store.tree) && store.writes == old(store.writes)
    ensures Seed(payload).Some? ==>
      record == Some(RunningRecord(jobId, jobType, payload, Seed(payload).value, createdAt))
      && store.tree == old(store.tree)[path := store.enc.Node(JObj(record.value))]
      && store.writes == old(store.writes) + [(path, JObj(record.value))]
  {
    var seed := Seed(payload);
    if seed.None? {
      return None;
    }
    record := Some(RunningRecord(jobId, jobType, payload, seed.value, createdAt));
    store.WriteJson(path, JObj(record.value));
  }

  /** The `record.update(...)` of either outcome and the write in `finally`. */
  method Finish(store: Store, path: string, record: map<string, Json>, out: Result<Json>, finishedAt: string)
    returns (final: map<string, Json>)
    modifies store
    ensures final == FinalRecord(record, out, finishedAt)
    ensures store.tree == old(store.tree)[path := store.enc.Node(JObj(final))]
    ensures store.writes == old(store.writes) + [(path, JObj(final))]
  {
    final := FinalRecord(record, out, finishedAt);
    store.WriteJson(path, JObj(final));
  }
}
