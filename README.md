# RIAI workbench core, modelled in Dafny

This project models the core of an offline "AI workbench" backend, a
Python service that trains, evaluates and serves small local models. The
core has three parts.

- **The readiness gate.** `readiness()` cross-checks the following
  sources and answers `ready` or `blocked` with a typed list of error
  items:
  - the module manifests;
  - the pending workspace selection;
  - the workspace mappings (`module_map` or `capability_map`);
  - the model, neural-net and dataset registries, including dataset
    checksums;
  - the metrics artifacts;
  - the guardrail configuration;
  - the write probes.

  The registry around the gate is modelled too: workspaces, mappings,
  models, neural nets, datasets, the metrics recorder and the readers.
- **The job scheduler.** A job is recorded as running. Its task module
  is resolved by name and run. Exactly one terminal record, finished or
  failed, then replaces the running one.
- **The text and count algorithms of the runtime and of the
  jobs.**
  - Runtime: guardrail truncation, masking and flagging; the chat
    answerer, which parses the WordNet 3.0 `index.*` and `data.*` lines,
    counts observations, chooses a sense offset, builds character
    n-grams, samples by cumulative weight and generates with backoff;
    the bubble unigram/bigram learner and its babble generator; the
    anti-echo wrapper.
  - Jobs: `train`, `evaluate`, `train_sft`, `train_dpo`, `make_bubbles`
    and `self_eval`.

The file system is a value: `Fs.Tree` maps each path to a directory or
to a file. A file carries its size, its SHA-256 digest and how it parses
as JSON. Operations that write go through the `Fs.Store` class. It holds
the current tree and the ordered list of documents written, and every
writing method states both exactly. This includes the chat runtime's
observation counts (`lm_counts.json`) and the n-gram model it persists
(`lm_ngram.json`). Each operation whose source loops or
mutates state is a `method` proved against a specification function.
The properties the source promises are lemmas about those functions.

Every model file is a module named after its source file:

| file | module | source |
|---|---|---|
| `wrappers.dfy` | `Wrappers` | Option/Result |
| `json.dfy` | `Json` | decoded JSON values, Python truthiness, `dict.get`, `int`, `str` |
| `text.dfy` | `Text` | Python string helpers |
| `fs.dfy` | `Fs` | file tree, repository paths, `Store` |
| `counting.dfy` | `Counting` | insertion-ordered count tables, the cumulative sampler |
| `loader.dfy` | `Loader` | `core/runtime/loader.py` |
| `scheduler.dfy` | `Scheduler` | `core/runtime/scheduler.py` |
| `guardrails.dfy` | `Guardrails` | `core/runtime/guardrails.py` |
| `chat.dfy` | `Chat` | `core/runtime/chat.py` |
| `bubble.dfy` | `Bubble` | `core/runtime/bubble.py` |
| `datasets.dfy`, `models.dfy`, `neural_nets.dfy`, `workspaces.dfy` | `Datasets`, `Models`, `NeuralNets`, `Workspaces` | `core/registry/*.py` |
| `recorder.dfy`, `readers.dfy` | `Recorder`, `Readers` | `core/metrics/*.py` |
| `backend.dfy`, `readiness.dfy` | `Backend`, `Readiness` | `main.py` |
| `train.dfy`, `evaluate.dfy`, `train_sft.dfy`, `train_dpo.dfy`, `make_bubbles.dfy`, `self_eval.dfy` | `Train`, `Evaluate`, `TrainSft`, `TrainDpo`, `MakeBubbles`, `SelfEval` | `tasks/*.py` |

All paths above are under `app/backend/`.

## Model

| member | source | states |
|---|---|---|
| Json.IntArg | app/backend/tasks/train_dpo.py:80-81 | an absent key gives the default; an integer is itself, a bool 0 or 1, a float truncated toward zero; a string succeeds with `n` when it is the decimal text of `n` and otherwise raises `invalid literal for int() with base 10: '<text>'`; null, a list or a dict raise the `int() argument must be …, not '<type>'` error |
| Json.IntOfKinds | app/backend/tasks/train_dpo.py:80-81 | `int(v)` of an integer is itself, of a bool 0 or 1, of a float its truncation toward zero, of the decimal text of `n` the number `n`; null, a list and a dict do not convert |
| Json.IntOfText | app/backend/tasks/train_dpo.py:80-81 | `int(str(n)) == n` for a JSON string |
| Json.Truncation | app/backend/tasks/train_dpo.py:80-81 | truncating a float toward zero keeps its sign and drops less than 1 |
| Text.ParseIntOfIntToString | app/backend/tasks/train_dpo.py:80-81 | `int(str(n)) == n` for every integer |
| Text.IntToStringAscii | app/backend/tasks/train_dpo.py:80-81 | `str(n)` is all ASCII, so the digit translation `int()` first applies leaves it unchanged |
| Text.DigitInRun | app/backend/tasks/train_dpo.py:80-81 | a character in a run of ten decimal digits of another script is read as the ASCII digit of its offset in the run |
| Text.RunOffsetAt | app/backend/tasks/train_dpo.py:80-81 | the search for a character's digit run finds the run that holds it |
| Text.ZerosApart | app/backend/tasks/train_dpo.py:80-81 | the runs of decimal digits are disjoint and in increasing order |
| Text.ZeroBeyondAscii | app/backend/tasks/train_dpo.py:80-81 | every run of decimal digits but the ASCII one lies beyond ASCII |
| Text.AsciiDigitsAscii | app/backend/tasks/train_dpo.py:80-81 | the digit translation leaves ASCII text unchanged |
| Text.ParseFullWidth | app/backend/tasks/train_dpo.py:80-81 | `int("\uff11\uff12")` (full-width digits) is 12 |
| Text.ParseDevanagari | app/backend/tasks/train_dpo.py:80-81 | `int("-\u0967\u0966")` (Devanagari digits) is -10 |
| Json.Iter | app/backend/main.py:274 | `for x in v`: a list yields its items, a string its one-character strings, a dict each of its keys once; anything else is not iterable |
| Json.IntError | app/backend/core/runtime/scheduler.py:20 | the message `int()` raises depends on the value: the invalid literal for a string, the argument type otherwise |
| Json.DropNulls | app/backend/main.py:703-704 | the None-stripping comprehension keeps exactly the keys whose value is not null, with their values |
| Json.ShowEmptyObject | app/backend/tasks/self_eval.py:40-41 | `str` of an empty dict is `{}` |
| Json.ShowSingletonObject | app/backend/tasks/self_eval.py:40-41 | `str` of a one-key dict is the quoted key, `: ` and the value's `repr` in braces |
| Json.ShowFloat | app/backend/tasks/make_bubbles.py:47 | `str` of a float written with at most 17 decimals, the last not zero, is its integer digits, a point and exactly those decimals |
| Json.ShowNegativeFloat | app/backend/tasks/make_bubbles.py:47 | `str` of a negative float is a minus sign and `str` of its magnitude |
| Json.ShowWholeFloat | app/backend/tasks/make_bubbles.py:47 | `str` of a whole float is the integer's text followed by ".0" |
| Text.FracValue | app/backend/tasks/make_bubbles.py:47 | the value of decimal digits after a point lies in [0, 1) |
| Text.FracDigitsValue | app/backend/tasks/make_bubbles.py:47 | reading the decimals of the value of a digit string ending in a non-zero digit gives that digit string back |
| Text.FracTextValue | app/backend/tasks/make_bubbles.py:47 | such a digit string has a positive value whose fractional text is the digit string |
| Text.ShowParts | app/backend/tasks/make_bubbles.py:47 | positional `str` of `ip + f` (`0 <= f < 1`) is `ip`'s digits, a point and the fractional text of `f` |
| Text.ShowDecimal | app/backend/tasks/make_bubbles.py:47 | positional `str` of `ip + 0.ds` is `ip`'s digits, a point and `ds` |
| Text.ShowNegative | app/backend/tasks/make_bubbles.py:47 | positional `str` of a negative number is a minus sign and `str` of its magnitude |
| Text.ShowWhole | app/backend/tasks/make_bubbles.py:47 | positional `str` of a whole number is its digits and ".0" |
| Fs.Store.WriteJson | app/backend/core/utils/io.py:43-46 | `write_json` replaces the node at the path with the encoded document, appends the write to the log and changes no other path |
| Fs.ReplayAt | app/backend/core/utils/io.py:43-46 | after a run of writes a written path loads to the last document written there; every other path keeps its old node |
| Fs.ResolveToRel | app/backend/core/registry/datasets.py:17-21 | a normal absolute path made relative to ROOT resolves back to itself |
| Fs.LoadedComplete | app/backend/core/registry/datasets.py:7-14 | the listed documents are exactly the documents of the globbed files that load, at most one per file |
| Fs.ListJson | app/backend/core/registry/datasets.py:7-14 | the glob loop appends each loadable file's document in order and skips the others |
| Counting.Find | app/backend/core/runtime/chat.py:238 | `d.get(k)` is None exactly when no key equals `k`; otherwise it is a value stored under `k` |
| Counting.Put | app/backend/core/runtime/chat.py:191-192 | after `d[k] = v`, `k` maps to `v` and every other key is unchanged |
| Counting.Bump | app/backend/core/runtime/chat.py:192 | `bucket[nxt] = bucket.get(nxt, 0) + 1` adds one to that count, leaves every other count, and adds one to the bucket's sum |
| Counting.Increment | app/backend/core/runtime/chat.py:191-192 | `setdefault` then bump: the context's bucket is the old one bumped at `nxt`, and the table's total grows by one |
| Counting.IncrementCount | app/backend/core/runtime/chat.py:191-192 | exactly one (context, next) count grows, by one |
| Counting.NgramStep | app/backend/core/runtime/chat.py:188-192 | counting position `i` increments `text[i:i+order]` -> `text[i+order]` in the table of the earlier positions |
| Counting.NgramCount | app/backend/core/runtime/chat.py:186-192 | every count of the table is the number of positions where that context is followed by that character |
| Counting.NgramTotal | app/backend/core/runtime/chat.py:186-192 | the table holds exactly one transition per counted position |
| Counting.BuildNgram | app/backend/tasks/train_sft.py:78-88 | the loop over `range(len(text) - order)` builds the table of all positions, holding `len(text) - order` transitions (none when the text is not longer than the order) |
| Counting.NgramUnit | app/backend/core/runtime/chat.py:188-192 | every bucket of a built table is keyed by single characters |
| Counting.UnigramCount | app/backend/core/runtime/bubble.py:102-103 | each character is counted once per occurrence, and the counts sum to the text's length |
| Counting.UnigramSum | app/backend/core/runtime/bubble.py:102-103 | the unigram counts of a prefix sum to its length |
| Counting.UnigramUnit | app/backend/core/runtime/bubble.py:102-103 | the unigram bucket is keyed by single characters |
| Counting.Tally | app/backend/core/runtime/bubble.py:102-103 | the `uni[ch] = uni.get(ch, 0) + 1` loop computes the unigram counts of the whole text |
| Counting.ItemLeTotal | app/backend/core/runtime/chat.py:208 | any two items compare one way or the other under the `(count, key)` or `(key, count)` tuple order |
| Counting.ItemLeTrans | app/backend/core/runtime/chat.py:208 | that tuple order is transitive |
| Counting.Insert | app/backend/core/runtime/chat.py:208 | inserting an item into a sorted list keeps it sorted and adds exactly that item |
| Counting.SortBy | app/backend/core/runtime/chat.py:208 | `sorted(d.items(), key=...)` is a permutation of the items ordered by the key tuple |
| Counting.PickFromReaches | app/backend/core/runtime/chat.py:213-218 | the accumulator picks the key at the first index whose running sum reaches `r`, all earlier running sums being below `r`; when none reaches `r`, the last key |
| Counting.LastPick | app/backend/core/runtime/chat.py:218 | when no running sum reaches `r` the last item's key is returned |
| Counting.Accumulate | app/backend/core/runtime/chat.py:213-218 | the `acc += v; if r <= acc` loop returns the accumulator's pick |
| Counting.Sample | app/backend/core/runtime/chat.py:206-218 | a bucket whose total is not positive gives " "; otherwise the pick over the items sorted by (count, key) |
| Counting.SampleIsKey | app/backend/core/runtime/bubble.py:126-137 | for a positive total the sampled character is a key of the bucket |
| Counting.Draw | app/backend/core/runtime/chat.py:209-212 | `random.randint(1, total)` is drawn only for a positive total: the draw index advances by one exactly then, and the pick is a key of the bucket |
| Loader.FirstMissing | app/backend/core/runtime/loader.py:20-22 | no key is reported exactly when every required field is present; otherwise the reported key is absent and every field before it in `REQUIRED_FIELDS` is present |
| Loader.FirstMissingAt | app/backend/core/runtime/loader.py:20-22 | the field reported is the first absent one in `REQUIRED_FIELDS` order |
| Loader.ObjectManifest | app/backend/core/runtime/loader.py:18-26 | a manifest holding every required field is returned unchanged except for `_manifest_path`; otherwise the record is `{id: dir name, error: "manifest missing field: <first missing>"}` |
| Loader.Record | app/backend/core/runtime/loader.py:18-26 | every manifest yields an object record: parse and field errors become error records, never exceptions |
| Loader.DiscoverModules | app/backend/core/runtime/loader.py:15-27 | over the glob listing of the manifest directories, one record per listed directory in listing order, each the record of its directory, so every directory holding a manifest gets its record |
| Datasets.ListDatasets | app/backend/core/registry/datasets.py:7-14 | the listed entries are exactly the documents of the entry files that load; unparseable files are skipped |
| Datasets.FileEntry | app/backend/core/registry/datasets.py:26-31 | a file entry holds exactly `path` (relative to ROOT) and `sha256`, which is null exactly when nothing exists at the path and the file's digest otherwise; hashing a directory raises |
| Datasets.FileEntriesShape | app/backend/core/registry/datasets.py:25-31 | registration yields one entry per input file, in order, exactly when no input names a directory |
| Datasets.BuildFileEntries | app/backend/core/registry/datasets.py:25-31 | the `file_entries` loop computes the entries of all files, or the first error |
| Datasets.DatasetEntry | app/backend/core/registry/datasets.py:32-36 | the entry holds exactly `id`, `name` and the file entries |
| Datasets.RegisterDataset | app/backend/core/registry/datasets.py:24-39 | the entry is written under its id, overwriting any earlier one, and loads back equal to the returned entry; nothing is written when hashing raises |
| Datasets.VerifyDataset | app/backend/core/registry/datasets.py:42-57 | the problems loop computes the problems of every file description, in order |
| Datasets.MissingFile | app/backend/core/registry/datasets.py:49-51 | an absent file gives exactly one "missing" problem, and its digest is not compared |
| Datasets.ChecksumRule | app/backend/core/registry/datasets.py:52-56 | a present file with a recorded digest gives a problem exactly when the digests differ ignoring case, carrying the expected and the actual digest |
| Datasets.RegisterThenVerifyFiles | app/backend/core/registry/datasets.py:25-31 | the file entries of existing files verify with no problem against a tree where those files are unchanged |
| Datasets.RegisterThenVerify | app/backend/core/registry/datasets.py:42-57 | registering and then verifying with unchanged files reports no problem |
| Datasets.WriteKeepsFiles | app/backend/core/registry/datasets.py:37-38 | writing the entry leaves the registered files unchanged unless one of them is the entry file |
| Json.ModuleCheck | app/backend/tasks/train.py:248-249 | a module id is accepted exactly when it is a string naming a known module, and then it is that name; anything else raises |
| Models.ListModels | app/backend/core/registry/models.py:6-13 | the listed entries are exactly the documents of the model files that load |
| Models.ModelEntry | app/backend/core/registry/models.py:16-26 | the entry's keys are the base keys plus the `extra` keys; `extra` values win; otherwise `name` is the name when truthy, else the id, `metrics` is `{}`, and `created_at` is the given time |
| Models.CreateModel | app/backend/core/registry/models.py:15-28 | the entry is written under `model_id`, replacing any earlier one, and loads back equal to the returned entry |
| NeuralNets.ListNeuralNets | app/backend/core/registry/neural_nets.py:7-14 | the listed entries are exactly the documents of the network files that load |
| NeuralNets.NetEntry | app/backend/core/registry/neural_nets.py:17-24 | the keys are `id`, `name`, `family` plus the `extra` keys; `extra` values win; `name` defaults to the id; `family` is kept even when it is None |
| NeuralNets.CreateNeuralNet | app/backend/core/registry/neural_nets.py:17-27 | the entry is written under `nn_id`, replacing any earlier one, and loads back equal to the returned entry |
| Workspaces.PendingWorkspace | app/backend/core/registry/workspaces.py:9-12 | with no file the default pending workspace; with a file its decoded contents |
| Workspaces.Snapshot | app/backend/core/registry/workspaces.py:16-21 | the saved record has the default's keys, the fixed id and name, the selection as given and the save time |
| Workspaces.SavePendingWorkspace | app/backend/core/registry/workspaces.py:15-23 | the whole record is replaced, and reading the workspace back returns the saved snapshot |
| Workspaces.Mappings | app/backend/core/registry/workspaces.py:26-27 | with no file `{module_map: {}, capability_map: {}}`; with a file its decoded contents |
| Workspaces.MappingsDoc | app/backend/core/registry/workspaces.py:31-34 | exactly the two map keys, each taken from the payload or defaulting to `{}`; other payload keys are dropped |
| Workspaces.SaveMappings | app/backend/core/registry/workspaces.py:30-36 | the mappings file is replaced, and reading the mappings back returns what was saved |
| Recorder.MetricsDoc | app/backend/core/metrics/recorder.py:13-17 | a copy of the payload with `timestamp` and `model_id` added only where absent; existing values, even a differing `model_id`, are kept |
| Recorder.RecordMetrics | app/backend/core/metrics/recorder.py:7-19 | the document is written at `metrics/<capability>/<model_id>.json`, overwriting any earlier one; the caller's payload is a value and is not changed |
| Readers.EmptyListing | app/backend/core/metrics/readers.py:10-11 | an absent capability directory lists nothing |
| Readers.ListMetrics | app/backend/core/metrics/readers.py:7-17 | nothing when the directory is absent; otherwise exactly the documents that load |
| Readers.AsDicts | app/backend/core/metrics/readers.py:23-24 | `x.get` succeeds on every item exactly when every item is an object |
| Readers.Matching | app/backend/core/metrics/readers.py:22-23 | the filter keeps exactly the items whose `model_id` equals the one given, and keeps every item when none is given |
| Readers.LatestUnique | app/backend/core/metrics/readers.py:24-25 | the first item of the stable descending sort by timestamp is unique |
| Readers.KeyLessIrreflexive | app/backend/core/metrics/readers.py:24 | no timestamp is less than itself |
| Readers.KeyLessStep | app/backend/core/metrics/readers.py:24 | within one ordered family, a timestamp not above `a` is below any timestamp above `a` |
| Readers.FirstLatest | app/backend/core/metrics/readers.py:24-25 | the scan finds the first item of the stable descending sort by timestamp |
| Readers.Newest | app/backend/core/metrics/readers.py:24-25 | `{}` for no items, the only item for one; when every timestamp is a number (bools included) or every one a string, the first item of the stable descending sort; otherwise the comparison raises |
| Readers.LatestMetric | app/backend/core/metrics/readers.py:20-25 | an item that is not an object raises; otherwise the newest of the matching metrics, `{}` when none match, and the comparison error when two or more timestamps are of mixed or unordered types |
| Readers.MetricByFilename | app/backend/core/metrics/readers.py:28-36 | the search over the metrics directories yields `ByFilename`: a document exactly when the first directory holding the file can load it, and then exactly that file's document |
| Readers.ByFilenameFirst | app/backend/core/metrics/readers.py:29-35 | the search stops at the first directory holding the file: its document when it loads, nothing when it does not, whatever later directories hold |
| Readers.RecordedThenFound | app/backend/core/metrics/readers.py:28-36 | after recording a model's metrics, looking up `<model>.json` returns the recorded document when its capability directory is the first one holding that name |
| Guardrails.MaxTokens | app/backend/core/runtime/guardrails.py:14 | `max_tokens` defaults to 256 |
| Guardrails.ConfigList | app/backend/core/runtime/guardrails.py:21 | a missing or falsy value is empty; a list gives its items, a string its characters, a dict its keys; a truthy number or bool raises "not iterable" |
| Guardrails.Truncation | app/backend/core/runtime/guardrails.py:14-18 | more words than `max_tokens`: the first `max_tokens` words joined by single spaces, and one truncate action; otherwise the text unchanged and no action |
| Guardrails.KeptWords | app/backend/core/runtime/guardrails.py:17 | splitting the joined kept words gives those words back |
| Guardrails.Mask | app/backend/core/runtime/guardrails.py:21-29 | raises exactly when some pattern is not a string, with `re.compile`'s message for the first such pattern: "unhashable type: 'list'" or "unhashable type: 'dict'" for a list or dict, "first argument must be string or compiled pattern" for any other value; the reported patterns are compiling, matching patterns in config order; nothing reported means the text is unchanged |
| Guardrails.MaskChain | app/backend/core/runtime/guardrails.py:21-29 | the masked text is the reported patterns' substitutions applied in turn; each reported pattern compiles and matches the text its predecessors left |
| Guardrails.MaskSplit | app/backend/core/runtime/guardrails.py:21-29 | masking with `a + b` is masking with `a`, then with `b` on the text `a` leaves |
| Guardrails.MaskTurn | app/backend/core/runtime/guardrails.py:25-29 | a pattern is reported exactly when it compiles and matches the text the earlier patterns left (so every compiling, matching pattern is reported), and the reports only grow |
| Guardrails.Flags | app/backend/core/runtime/guardrails.py:32-35 | raises exactly when a category is not a string, with `re.escape`'s "decoding to str: need a bytes-like object, <type> found" for the first such category; otherwise the flagged categories are exactly those found as whole words, in config order |
| Guardrails.PiiActions | app/backend/core/runtime/guardrails.py:26 | one `pii_mask` action per matched pattern, in order |
| Guardrails.MaskLoop | app/backend/core/runtime/guardrails.py:21-29 | the pattern loop computes the masking `Mask`, its error message for the first non-string pattern included |
| Guardrails.FlagLoop | app/backend/core/runtime/guardrails.py:32-35 | the category loop computes the flags |
| Guardrails.ApplyGuardrails | app/backend/core/runtime/guardrails.py:6-39 | the method computes `apply_guardrails`, including the exceptions it raises with their messages (a config that is not a dict, a bad `max_tokens`, a non-iterable list setting, a non-string pattern as in `Mask`, a non-string category as in `Flags`) |
| Guardrails.ActionsOrdered | app/backend/core/runtime/guardrails.py:18-37 | truncate, then pii_mask actions, then at most one content_flag |
| Guardrails.ApplyShape | app/backend/core/runtime/guardrails.py:10-39 | on success `original` is the input; the actions are ordered truncate, pii_mask*, content_flag; truncation is reported exactly when the text has more than `max_tokens` words |
| Scheduler.JobId | app/backend/core/runtime/scheduler.py:15 | `job_id` is the job type, "_", then 10 lower-case hex digits |
| Scheduler.TaskModule | app/backend/core/runtime/scheduler.py:29-40 | `train` and `evaluate` go to their fixed modules; every job type goes to a module of the `app.backend.tasks` package whose name after the package prefix is the type |
| Scheduler.TaskModuleInjective | app/backend/core/runtime/scheduler.py:29-40 | distinct job types dispatch to distinct modules |
| Scheduler.Outcome | app/backend/core/runtime/scheduler.py:28-43 | the body succeeds exactly when the module's `run` does; for other types an import or run failure becomes "Unknown job type or import failed: <type> (<error>)" |
| Scheduler.RunningRecordShape | app/backend/core/runtime/scheduler.py:16-23 | the first record has status "running", the module id, and the seed (default 1337); it has no result and no error |
| Scheduler.FinalRecordOver | app/backend/core/runtime/scheduler.py:44-54 | the update sets `finished_at` and either status finished with `result` and no `error`, or status failed with `error` and no `result`; other fields are kept |
| Scheduler.FinalRecordShape | app/backend/core/runtime/scheduler.py:16-54 | the terminal record is the running record plus `finished_at` and exactly one of `result` and `error` |
| Scheduler.Start | app/backend/core/runtime/scheduler.py:16-24 | a seed `int` rejects raises before anything is written; otherwise the running record is written at the job's path |
| Scheduler.Finish | app/backend/core/runtime/scheduler.py:44-56 | the terminal record is written at the job's path |
| Scheduler.RunJob | app/backend/core/runtime/scheduler.py:9-58 | a seed that `int()` rejects raises its value-dependent message with nothing written; otherwise the running record and then the terminal record are written, and the terminal record is returned |
| Bubble.AllowedIsAllowedChars | app/backend/core/runtime/bubble.py:100 | the character-class test agrees with membership in `ascii_lowercase + " .,!?:;\n"` |
| Bubble.NormChar | app/backend/core/runtime/bubble.py:101 | each character becomes an allowed character: itself when already allowed, its lower case when that is allowed, otherwise a space |
| Bubble.Normalise | app/backend/core/runtime/bubble.py:101 | the normalised text has one allowed character per corpus character, each a space or the corpus character lower-cased |
| Bubble.TrainingCorpus | app/backend/core/runtime/bubble.py:93-94 | an empty corpus is replaced by the alphabet and a space repeated 200 times; any other corpus is kept |
| Bubble.CountSums | app/backend/core/runtime/bubble.py:102-107 | before capping the unigram counts sum to the text length and the bigram counts to one less |
| Bubble.CappedShape | app/backend/core/runtime/bubble.py:108-114 | capping keeps at most 200 unigram entries in key order and at most 2000 bigram contexts, all with single-character keys |
| Bubble.ModelShape | app/backend/core/runtime/bubble.py:95-114 | the stored model has order 2 and the given seed, capped tables, unigram entries in key order, and single-character keys throughout |
| Bubble.DictJsonKeys | app/backend/core/runtime/bubble.py:111-112 | the dict comprehension has exactly the items' keys |
| Bubble.BuildBubbleModel | app/backend/core/runtime/bubble.py:85-116 | the model document of the corpus is written at the bubble model path, and that path is returned |
| Bubble.NextChar | app/backend/core/runtime/bubble.py:148-149 | one step draws a single character from the previous character's bigram bucket, else from the unigram counts, else a space |
| Bubble.BabbleStep | app/backend/core/runtime/bubble.py:150-151 | appending a drawn character keeps every earlier generated position drawn from its predecessor's bucket |
| Bubble.GenerateBabble | app/backend/core/runtime/bubble.py:140-152 | the output starts with the seed text and adds `max(0, n_chars)` characters, each drawn from the bucket of the character before it |
| MakeBubbles.CutKey | app/backend/tasks/make_bubbles.py:47-48 | a cut's bucket name is never the overflow bucket's (for the rendering of the cut itself see `CutKeyExamples`, `CutKeyDecimals` and `Json.ShowFloat`) |
| MakeBubbles.CutKeyExamples | app/backend/tasks/make_bubbles.py:47 | the bucket names of the cuts 16 and 16.0 are "<= 16" and "<= 16.0" |
| MakeBubbles.CutKeyDecimals | app/backend/tasks/make_bubbles.py:47 | the bucket names of the cuts 16.5 and -0.25 are "<= 16.5" and "<= -0.25" |
| MakeBubbles.PlaceFirst | app/backend/tasks/make_bubbles.py:49-58 | an example goes to the first cut in list order that its length fits under, and to "> 256" when it fits under none; placement cannot fail when every comparison is defined |
| MakeBubbles.PlaceOf | app/backend/tasks/make_bubbles.py:51-58 | the inner loop with its `placed` flag computes the placement |
| MakeBubbles.IndicesExact | app/backend/tasks/make_bubbles.py:49-58 | the indices of a bucket are exactly the positions placed in it, strictly ascending |
| MakeBubbles.GroupIndices | app/backend/tasks/make_bubbles.py:49-58 | each bucket holds its initial indices followed by the positions placed in it, in order |
| MakeBubbles.InitBuckets | app/backend/tasks/make_bubbles.py:47-48 | the empty buckets are one per cut plus "> 256", which is there whatever the cuts |
| MakeBubbles.BucketsPartition | app/backend/tasks/make_bubbles.py:47-58 | every example index lands in exactly one bucket, its own placement; each bucket holds valid indices in ascending order |
| MakeBubbles.Bucketize | app/backend/tasks/make_bubbles.py:49-58 | the outer loop computes the buckets, or the first comparison that raises |
| MakeBubbles.Named | app/backend/tasks/make_bubbles.py:27 | the uploads kept are exactly those whose stem is the dataset id |
| MakeBubbles.Sources | app/backend/tasks/make_bubbles.py:27-30 | the uploads named after the dataset, else the synthetic dialogs, else all uploads |
| MakeBubbles.ReadItems | app/backend/tasks/make_bubbles.py:32-44 | only the first source is read, at most 1000 lines, one example per line |
| MakeBubbles.Cuts | app/backend/tasks/make_bubbles.py:46 | missing or falsy `buckets` defaults to `[16, 32, 64, 128, 256]`; a list gives its items, a dict its keys; a truthy number or bool raises "not iterable" |
| MakeBubbles.PlanCounts | app/backend/tasks/make_bubbles.py:59-70 | one document is written, counting the examples read (at most 1000) and every candidate source |
| MakeBubbles.Run | app/backend/tasks/make_bubbles.py:14-74 | the run returns and writes what the plan says; nothing is written when it raises |
| SelfEval.Score | app/backend/tasks/self_eval.py:10-20 | the score lies in [0, 1]; it is 1 exactly when the two word sets are equal, and 0 exactly when they are disjoint and not both empty |
| SelfEval.Jaccard | app/backend/tasks/self_eval.py:14-20 | intersection over `max(1, union)` lies in [0, 1]; 1 exactly for equal sets; 0 exactly for disjoint sets that are not both empty |
| SelfEval.JaccardBounds | app/backend/tasks/self_eval.py:18-20 | the overlap of two non-empty sets is at most their union, and equals it exactly when the sets are equal |
| SelfEval.ScoreSymmetric | app/backend/tasks/self_eval.py:10-20 | the score does not depend on the order of its arguments |
| SelfEval.JaccardSymmetric | app/backend/tasks/self_eval.py:18-20 | the set similarity is symmetric |
| SelfEval.Judged | app/backend/tasks/self_eval.py:43-46 | a record holds the prompt, response and score; `rewritten` ("Answer: " + response) and `rewrite_reason` are present exactly when rewriting is requested and the score is below 0.5 |
| SelfEval.JudgedAllShape | app/backend/tasks/self_eval.py:39-47 | one record per item, in order; it fails exactly when some item is not an object |
| SelfEval.JudgeItems | app/backend/tasks/self_eval.py:38-47 | the `for it in items` loop computes the records |
| SelfEval.Items | app/backend/tasks/self_eval.py:31-37 | missing or falsy items are replaced by the two built-in pairs; a list gives its items, a dict its keys; a truthy number or bool raises "not iterable" |
| SelfEval.ObjectItemsRaise | app/backend/tasks/self_eval.py:31-40 | a non-empty dict of items iterates its keys, and the first key's `.get` raises `'str' object has no attribute 'get'` |
| SelfEval.PlanOutcome | app/backend/tasks/self_eval.py:48-52 | a successful pass reports one result per item (two when none are given) and writes only its own artifact |
| SelfEval.Run | app/backend/tasks/self_eval.py:23-52 | the run returns and writes what the plan says; nothing is written when it raises |
| Chat.Bumped | app/backend/core/runtime/chat.py:67-73 | `counts[lemma] = int(counts.get(lemma, 0)) + 1`: a stored document that is not a dict raises the `'<type>' object has no attribute 'get'` error; a stored count `int()` refuses raises `int()`'s error; otherwise the keys gain the lemma, its count is the old one plus one and every other entry is unchanged |
| Chat.UpdateCounts | app/backend/core/runtime/chat.py:55-73 | `update_counts` reads the stored counts, or `{}` when loading raises; an empty lemma returns them and writes nothing; any other lemma returns `Bumped` of them and, on success, writes exactly that document to `lm_counts.json`; a raise writes nothing |
| Chat.CountsReadBack | app/backend/core/runtime/chat.py:55-64 | `_get_counts()` after `_save_counts(u)` returns `u` |
| Chat.ObservedOnce | app/backend/core/runtime/chat.py:55-73 | after one observation is saved and read back, the lemma's stored count is one more and every other lemma's stored count is unchanged |
| Chat.FreshCounts | app/backend/core/runtime/chat.py:55-59 | a missing or unreadable counts file counts as `{}`, so the first observation saves `{lemma: 1}` |
| Chat.BeatsTrans | app/backend/core/runtime/chat.py:81 | the (-count, lemma) order of `most_seen_lemma` is transitive |
| Chat.Best | app/backend/core/runtime/chat.py:81-82 | the first item after sorting is an entry that beats or ties every entry |
| Chat.BestStep | app/backend/core/runtime/chat.py:81 | the winner of a non-empty table is the head or the winner of the tail, whichever ranks first |
| Chat.MostSeen | app/backend/core/runtime/chat.py:76-82 | None exactly when there are no counts; otherwise a lemma that has a count |
| Chat.CountCells | app/backend/core/runtime/chat.py:81 | the `int()` reading of the stored counts succeeds exactly when every count converts, and then holds each key with its converted count, in key order; otherwise it raises with the error of a count that does not convert |
| Chat.SeenLemma | app/backend/core/runtime/chat.py:76-82 | falsy stored counts give None; truthy ones that are not a dict raise `'<type>' object has no attribute 'items'`; a successful answer for truthy counts is a stored lemma |
| Chat.SeenLemmaCounts | app/backend/core/runtime/chat.py:76-82 | for a non-empty dict, `most_seen_lemma` succeeds exactly when every count converts with `int()`, and then names a lemma whose count beats every other (higher count, or the same count and a smaller lemma); otherwise it raises the error of a count that does not convert |
| Chat.SeenBest | app/backend/core/runtime/chat.py:81-82 | the first item after sorting the converted counts is a stored lemma that beats every stored lemma |
| Chat.SeenFirst | app/backend/core/runtime/chat.py:67-82 | the counts saved by a first observation `{lemma: 1}` make that lemma the most seen |
| Chat.Quoted | app/backend/core/runtime/chat.py:87-89 | a match is a non-empty run without quotes that appears quoted in the text; no match means no two quotes with a non-quote character between them |
| Chat.QuotedShift | app/backend/core/runtime/chat.py:87 | a search that skips a leading non-quote character keeps both halves of the `Quoted` contract |
| Chat.QuotedTail | app/backend/core/runtime/chat.py:87 | at an opening quote with no closing quote after a non-empty run, the search carries on and keeps both halves of the contract |
| Chat.QuotedWitness | app/backend/core/runtime/chat.py:87-88 | any quoted non-empty run without inner quotes is a quoted segment |
| Chat.QuotedLeftmost | app/backend/core/runtime/chat.py:87 | the match is the group of the leftmost quoted segment, and there is none exactly when no position starts one |
| Chat.NoQuoted | app/backend/core/runtime/chat.py:87-88 | without a quoted segment the regular expression finds nothing |
| Chat.LowerTokens | app/backend/core/runtime/chat.py:95 | there is one lowercased token per alphabetic run |
| Chat.FirstIn | app/backend/core/runtime/chat.py:96-98 | returns the first token that is a known lemma; None exactly when no token is |
| Chat.ExtractQuoted | app/backend/core/runtime/chat.py:87-89 | when the text has a quoted segment, the lemma is the stripped, lower-cased run of the leftmost one |
| Chat.ExtractNoLemmas | app/backend/core/runtime/chat.py:91-94 | without a quoted segment and with an empty lemma set the result is None, and the counts are not read |
| Chat.ExtractToken | app/backend/core/runtime/chat.py:95-98 | without a quoted segment, the first alphabetic token (lowercased) that is a known lemma is the result |
| Chat.ExtractFallback | app/backend/core/runtime/chat.py:99-100 | when no token is a known lemma, the result is `most_seen_lemma()` over the stored counts, its raise included |
| Chat.AnswerLemma | app/backend/core/runtime/chat.py:339 | a raise of the extraction passes through; otherwise the chosen lemma is never empty: it is the extracted lemma whenever that is non-empty, otherwise "unknown" |
| Chat.FindRecord | app/backend/core/runtime/chat.py:103-110 | an empty lemma finds nothing; otherwise the result is a record among the first 100000 whose lowercased lemma matches, and None means none of them does |
| Chat.FindFrom | app/backend/core/runtime/chat.py:107-110 | the scan returns a record with the lemma, and None only when no record has it |
| Chat.MinOffset | app/backend/core/runtime/chat.py:323-331 | None exactly when no offset converts to int; otherwise a converted offset no larger than any other |
| Chat.ChooseOffset | app/backend/core/runtime/chat.py:322-331 | raises exactly when the offsets cannot be iterated; otherwise none when no item converts, else the smallest converted item |
| Chat.ChooseOffsetKeys | app/backend/core/runtime/chat.py:322-331 | a dict of offsets is iterated by key: the choice is the smallest key that parses as an integer |
| Chat.DataPath | app/backend/core/runtime/chat.py:264-278 | a data file is found only for a truthy part of speech, chosen by its first letter (n, v, a, r) |
| Chat.Target | app/backend/core/runtime/chat.py:288 | the offset is padded on the left to at least eight characters and ends with its decimal digits |
| Chat.FirstLine | app/backend/core/runtime/chat.py:290-294 | the result is the first line that is not empty, indented or a comment and that starts with the target; None exactly when there is no such line |
| Chat.FirstLineAt | app/backend/core/runtime/chat.py:291-294 | a matching line with no match before it is the line the scan stops at |
| Chat.SynCount | app/backend/core/runtime/chat.py:308-314 | the words read are at most `w_cnt` and all lie within the fields; fewer are read only when the fields run out |
| Chat.SynonymsOf | app/backend/core/runtime/chat.py:300-314 | the synonyms are fields 4, 6, 8, … lowercased, as many as `SynCount` allows |
| Chat.ReadSynonyms | app/backend/core/runtime/chat.py:308-314 | the stepping loop computes those synonyms |
| Chat.ParseLine | app/backend/core/runtime/chat.py:296-314 | the parse of one data line yields the text after the first " \| " and its synonyms |
| Chat.ScanSynset | app/backend/core/runtime/chat.py:290-316 | the loop yields the parse of the first matching data line, or None |
| Chat.ReadSynset | app/backend/core/runtime/chat.py:281-319 | the lookup and scan together yield the synset of the offset in the part of speech's data file |
| Chat.BuiltLmCounts | app/backend/core/runtime/chat.py:180-193 | a built model has order `max(1, order)`; it counts every (context, next character) transition of its corpus exactly once, and the totals equal the number of positions |
| Chat.BuildLm | app/backend/core/runtime/chat.py:155-198 | the build loop yields that model; the persisted table is its first 20000 contexts |
| Chat.BuiltFrom | app/backend/core/runtime/chat.py:155-164 | `built_from` is None exactly without dataset files; with one to three it is their names joined by commas; with more it is the first three joined, then "+" |
| Chat.LmWrite | app/backend/core/runtime/chat.py:115-198 | nothing is saved exactly when a prebuilt model with counts is used; otherwise the saved document has exactly `order`, `counts`, `seed` and `built_from`, with the order of the model in use; from a checkpoint, all its counts, its seed and "sft:<name>"; from a build, the first 20000 contexts of the built counts, seed 1337 and `BuiltFrom` of the file names |
| Chat.LoadOrBuildLm | app/backend/core/runtime/chat.py:115-203 | `_load_or_build_lm` returns the model `LmOf` chooses and writes `LmWrite` of it to `lm_ngram.json` when there is one, and nothing otherwise |
| Chat.LmGenerate | app/backend/core/runtime/chat.py:221-250 | the output starts with the seed; with counts it adds at most `max(0, n_tokens)` characters, each a space or a character the counts can produce |
| Chat.LmStep | app/backend/core/runtime/chat.py:247-249 | a piece drawn from a context's bucket is a single character, a space or a key of the counts |
| Chat.Underscores | app/backend/core/runtime/chat.py:350 | replacing underscores keeps the length and leaves no underscore |
| Chat.InsertUnique | app/backend/core/runtime/chat.py:350 | inserting into a strictly sorted list keeps it strictly sorted and adds exactly that element |
| Chat.SortedSet | app/backend/core/runtime/chat.py:350 | `sorted(set(xs))` is strictly increasing and holds exactly the elements of xs |
| Chat.BumpedCount | app/backend/core/runtime/chat.py:349-360 | the `counts` metadata of a gloss answer, `counts.get(lemma, 1)` after the update, is the stored count plus one |
| Chat.FallbackMeta | app/backend/core/runtime/chat.py:368 | the fallback metadata names the lemma, the record's part of speech and offsets (null and `[]` without a record) and the language model used with order 3 and seed 1337 |
| Chat.GenerateAnswer | app/backend/core/runtime/chat.py:334-369 | a raise while choosing the lemma (from the stored counts) or during the lookup is the Failure and writes nothing; when the record, an offset and the synset are found: the gloss answer, the counts saved to `lm_counts.json` with one more observation of the lemma (or the raise of reading its count, writing nothing), and the metadata with the chosen offset and the new count; when any is missing: the stripped continuation of `"<lemma> — "`, the metadata with `lm.used` true, order 3 and seed 1337, and exactly the `lm_ngram.json` write of `_load_or_build_lm` |
| Train.TrailingRunMaximal | app/backend/tasks/train.py:78-87 | the offsets are the maximal run of integer tokens at the end of the line, each token parsing to its value, and the token before the run does not parse |
| Train.TrailingOffsets | app/backend/tasks/train.py:78-87 | the reversed loop collects that run, in line order |
| Train.IndexLine | app/backend/tasks/train.py:69-92 | a kept line has at least three tokens; its record has the first token, the file's part of speech and the first eight trailing offsets (at least one); a line is skipped exactly when it is blank, a comment, under three tokens, or has no trailing integer |
| Train.IndexLinesBound | app/backend/tasks/train.py:67-94 | a file gives at most one record per line, each with its part of speech and one to eight offsets |
| Train.IndexFile | app/backend/tasks/train.py:67-94 | the line loop yields the records of the lines, in order |
| Train.BuildWordnetIndex | app/backend/tasks/train.py:58-96 | the file loop yields the records of every present index file, in noun, verb, adj, adv order |
| Train.IndexOfNext | app/backend/tasks/train.py:63-66 | a present index file appends its records; a missing one adds nothing |
| Train.NnFamily | app/backend/tasks/train.py:26-37 | None for a falsy id or a missing registry file; a family is returned only when the file loads as an object whose family is truthy |
| Train.Window | app/backend/tasks/train.py:123-129 | the window is 3 exactly for the vision families, 7 exactly for rl and graph, 5 otherwise |
| Train.ChatOrder | app/backend/tasks/train.py:199-205 | the order is 2 exactly for feedforward, 4 exactly for nlp_transformer, 3 otherwise |
| Train.ModelIdSeed | app/backend/tasks/train.py:131-132 | two model ids with the same prefix and network are equal only for equal seeds |
| Train.TrainedEntryShape | app/backend/tasks/train.py:100-111 | an entry has the base fields and `nn_id` when it is truthy, and `extra` overrides both |
| Train.RegisterModel | app/backend/tasks/train.py:99-115 | the entry overwrites the model's registry file, and that path is returned |
| Train.PredictorParts | app/backend/tasks/train.py:118-138 | the checkpoint is written first, then the registry entry; the output names the model and its registry path |
| Train.TrainPredictor | app/backend/tasks/train.py:118-138 | the store receives exactly those two writes, and the output is returned |
| Train.PredictorEntryFields | app/backend/tasks/train.py:137 | a predictor's entry carries its id, its checkpoint path and the training seed |
| Train.PredictorRegisters | app/backend/tasks/train.py:133-138 | after training, the registry file named in the output loads as the predictor's entry |
| Train.ReadSource | app/backend/tasks/train.py:163-172 | one source contributes the text of its first 2000 lines, up to the first line that raises |
| Train.CollectChatCorpus | app/backend/tasks/train.py:161-174 | the corpus is the concatenation of the sources' texts, in order |
| Train.ChatText | app/backend/tasks/train.py:176-178 | the counted text is never empty: `"hello world " * 100` replaces an empty corpus |
| Train.LmOrder | app/backend/tasks/train.py:180 | the order is at least 1 and at least the requested order |
| Train.ChatLmCounts | app/backend/tasks/train.py:180-186 | every (context, next character) transition of the text is counted exactly once, and next-character keys are single characters |
| Train.BuildChatNgram | app/backend/tasks/train.py:141-191 | the n-gram document, with at most 20000 contexts, is written to `lm_ngram.json` and that path is returned |
| Train.ChatArtifacts | app/backend/tasks/train.py:207-212 | the n-gram model is written, then the bubble model |
| Train.ChatWithParts | app/backend/tasks/train.py:194-220 | the two models are written before the registry entry; the output names the model, the registry, the n-gram and the bubble model |
| Train.TrainChat | app/backend/tasks/train.py:194-220 | the store receives exactly the chat action's writes, and its output is returned |
| Train.ChatWrites | app/backend/tasks/train.py:207-216 | the two models and the registry entry are written in that order |
| Train.ChatReplay | app/backend/tasks/train.py:194-220 | replaying the chat action's writes updates exactly the three documents |
| Train.ChatEntryFields | app/backend/tasks/train.py:216 | a chat model's entry carries its id, the n-gram path and the training seed |
| Train.ChatRegisters | app/backend/tasks/train.py:207-220 | after training, the registry file named in the output loads as the chat model's entry |
| Train.TrainLexicon | app/backend/tasks/train.py:223-234 | the index is written, then the bubble model; the output names both |
| Train.WriteLexicon | app/backend/tasks/train.py:226-228 | the index write is followed by the bubble model's |
| Train.LexiconWithParts | app/backend/tasks/train.py:231-234 | the output names the index and the bubble model, written in that order |
| Train.LexiconWrites | app/backend/tasks/train.py:223-234 | after training, the index and the bubble model load back at the paths the output names |
| Train.Stamp | app/backend/tasks/train.py:252 | the output keeps its keys and gains `module_id`, `seed` and status "ok" |
| Train.Run | app/backend/tasks/train.py:244-253 | nothing is written when the run raises; otherwise exactly the selected action's writes are made and the stamped output is returned |
| Train.RunOutcome | app/backend/tasks/train.py:244-253 | the run succeeds exactly when the seed is an integer and the module has an action; its output names the module and seed with status "ok" |
| Evaluate.IndexRecords | app/backend/tasks/evaluate.py:26-45 | the records are index items that are objects with a truthy lemma, in order; the list is empty only when no such item exists |
| Evaluate.IterIndexRecords | app/backend/tasks/evaluate.py:23-45 | the line loop yields those records |
| Evaluate.Placeholders | app/backend/tasks/evaluate.py:55-57 | `max(0, limit)` placeholder records, the n-th with lemma `word{n}` |
| Evaluate.SynthRecords | app/backend/tasks/evaluate.py:54-57 | the index records when there are any, otherwise the placeholders |
| Evaluate.Stride | app/backend/tasks/evaluate.py:60 | the step is at least 1 |
| Evaluate.SynthDocAt | app/backend/tasks/evaluate.py:61-72 | line k of the file is the dialog of record `(k * step) % len`, numbered `wn_{seed}_k` |
| Evaluate.StrideInside | app/backend/tasks/evaluate.py:59-62 | with n <= len, `k * step` stays inside the records for every k < n, so the modulus never wraps |
| Evaluate.SynthSelection | app/backend/tasks/evaluate.py:59-72 | with a positive limit, exactly `min(limit, len)` lines are written; line k comes from record `k * step`, the chosen records strictly increase, and line k is numbered `wn_{seed}_k` |
| Evaluate.PicksIncrease | app/backend/tasks/evaluate.py:61-62 | later lines take later records |
| Evaluate.DivOfMul | app/backend/tasks/evaluate.py:66 | the line number `i // step` of the k-th iteration is k |
| Evaluate.SynthWordnetDialogs | app/backend/tasks/evaluate.py:48-73 | an existing file is returned unchanged; otherwise the dialog lines are written (a zero limit raises after the empty file is created) |
| Evaluate.SynthLoop | app/backend/tasks/evaluate.py:59-72 | the `range(0, n * step, step)` loop yields those lines |
| Evaluate.StrideBelow | app/backend/tasks/evaluate.py:61 | `k * step < n * step` exactly when k < n |
| Evaluate.SynthIdempotent | app/backend/tasks/evaluate.py:52-53 | a second call finds the file the first one wrote, writes nothing and returns its path |
| Evaluate.SynthReadBack | app/backend/tasks/evaluate.py:48-73 | reading back a dialog file this job wrote yields exactly the lines it wrote |
| Evaluate.Segment | app/backend/tasks/evaluate.py:102-104 | no segment means the prompt holds no quote |
| Evaluate.SegmentInside | app/backend/tasks/evaluate.py:102-104 | the segment lies inside the prompt, right after a quote |
| Evaluate.NoSep | app/backend/tasks/evaluate.py:102-103 | a failed split means no quote anywhere |
| Evaluate.FindReaches | app/backend/tasks/evaluate.py:102 | a quote somewhere after the start is always found |
| Evaluate.HitRule | app/backend/tasks/evaluate.py:112 | a prompt is a hit exactly when its segment exists and is non-empty |
| Evaluate.FindFirst | app/backend/tasks/evaluate.py:102 | the search stops at the first quote |
| Evaluate.SegmentOf | app/backend/tasks/evaluate.py:102-104 | the segment of `a'l'rest` is l when a and l hold no quote |
| Evaluate.DialogPromptHit | app/backend/tasks/evaluate.py:58-113 | a synthesized prompt's segment is its lemma, and it is a hit exactly when the lemma is non-empty |
| Evaluate.ContainsInside | app/backend/tasks/evaluate.py:112 | a string occurs in any string built around it |
| Evaluate.HitCount | app/backend/tasks/evaluate.py:98-113 | the hit count never exceeds the number of prompts; a failure names a prompt `ord` cannot read |
| Evaluate.OrdError | app/backend/tasks/evaluate.py:108 | the error of an unreadable prompt: "not iterable" for a non-iterable value, otherwise the `ord()` error for the first item that is not a one-character string ("expected a character, but string of length n found" or "expected string of length 1, but <type> found") |
| Evaluate.HitCountSucceeds | app/backend/tasks/evaluate.py:108 | the loop raises exactly when some prompt cannot be read by `ord` |
| Evaluate.HitCountExtremes | app/backend/tasks/evaluate.py:112-113 | every prompt a hit gives the number of prompts; none gives zero |
| Evaluate.HitCountSnoc | app/backend/tasks/evaluate.py:98-113 | a readable prompt adds one exactly when it is a hit |
| Evaluate.HitCountStep | app/backend/tasks/evaluate.py:98-113 | one more iteration of the loop counts one more readable prompt |
| Evaluate.HitCountStops | app/backend/tasks/evaluate.py:108 | the first unreadable prompt's error is the loop's error |
| Evaluate.FailureSticks | app/backend/tasks/evaluate.py:108 | once a prefix fails, the whole list fails the same way |
| Evaluate.CountHits | app/backend/tasks/evaluate.py:96-113 | the prompt loop computes the hit count or the first error |
| Evaluate.PromptHit | app/backend/tasks/evaluate.py:100-113 | the per-prompt test matches the hit rule; a prompt that is not a string is no hit |
| Evaluate.RoundHalfEven | app/backend/tasks/evaluate.py:118 | Python's `round` is the quotient or one more, and exact quotients are kept |
| Evaluate.PctIndex | app/backend/tasks/evaluate.py:118 | for 0 <= q <= 100 the index lies inside the list, q = 0 reads the first element and q = 100 the last |
| Evaluate.PctBounds | app/backend/tasks/evaluate.py:118 | `q * (len - 1) / 100` stays within `len - 1`, exactly at q = 100 |
| Evaluate.Pct | app/backend/tasks/evaluate.py:115-119 | 0.0 for an empty list, otherwise an element of the list at `PctIndex` |
| Evaluate.PromptsOf | app/backend/tasks/evaluate.py:84-91 | at most one prompt per line; each is the `prompt` (default `""`) of an object line, and there are none exactly when no line is an object |
| Evaluate.PromptsOfConcat | app/backend/tasks/evaluate.py:84-91 | the prompts of two runs of lines are those of the first run followed by those of the second, so they come in line order |
| Evaluate.PromptsOfOne | app/backend/tasks/evaluate.py:88-91 | an object line yields its `prompt`, any other line nothing |
| Evaluate.Prompts | app/backend/tasks/evaluate.py:84-93 | the prompts of the first 100 lines when one of them is an object; exactly the default prompt when none is |
| Evaluate.Recorded | app/backend/tasks/evaluate.py:163 | a successful payload is recorded as the model's metrics after the earlier writes; a failure records nothing |
| Evaluate.Score | app/backend/tasks/evaluate.py:82-162 | the scoring computes the chat payload from the dialog file |
| Evaluate.ChatScoreOutcome | app/backend/tasks/evaluate.py:78-164 | scoring fails exactly when the dialog path is not a file, a prompt cannot be read, or the registry entry is not an object; on success the payload has the documented keys and a hit rate in [0, 1] |
| Evaluate.ChatPayloadShape | app/backend/tasks/evaluate.py:154-162 | the payload names the model and the seed; its hit rate lies in [0, 1] and is 1 when every prompt is a hit |
| Evaluate.EvalChatCore | app/backend/tasks/evaluate.py:78-164 | the dialog file is created if missing, then the payload is recorded and returned, with exactly those writes |
| Evaluate.ModelIdOr | app/backend/tasks/evaluate.py:241-242 | the given model id when truthy, else the seed's default id |
| Evaluate.EvalOutcome | app/backend/tasks/evaluate.py:246-254 | a bad seed or an unknown module raises and writes nothing; success names the module and seed with status "ok"; the chat evaluation defaults its model to `chat_retrieval_{seed}` |
| Evaluate.Run | app/backend/tasks/evaluate.py:246-254 | the run returns and writes exactly what the plan says |
| TrainSft.PickPrecedence | app/backend/tasks/train_sft.py:46 | the response wins over the text and the text over the prompt; with none of them the line contributes nothing |
| TrainSft.ReadLinesGrows | app/backend/tasks/train_sft.py:39-50 | reading a file only extends the corpus: the count grows by at most one per line and never past the cap, the old text stays a prefix, and each added line ends with a newline |
| TrainSft.PrefixTrans | app/backend/tasks/train_sft.py:49 | extending an extension keeps the original prefix |
| TrainSft.ReadSourcesGrows | app/backend/tasks/train_sft.py:36-54 | across files the corpus only grows, the count stays within the cap, and the text changes exactly when the count does |
| TrainSft.UploadsFirst | app/backend/tasks/train_sft.py:29-34 | uploads are read before the synthetic dialogs: the collection over both continues from the one over the uploads |
| TrainSft.SaturatedStays | app/backend/tasks/train_sft.py:40-54 | once the cap is reached nothing more is read |
| TrainSft.LemmasShape | app/backend/tasks/train_sft.py:59-74 | the fallback text is a run of non-empty lemmas, each followed by one space |
| TrainSft.Corpus | app/backend/tasks/train_sft.py:25-75 | a non-empty dialog corpus is returned as is; the lemma fallback is consulted only when it is empty |
| TrainSft.CorpusShape | app/backend/tasks/train_sft.py:35-58 | the collected corpus holds at most 2000 lines; it is empty exactly when no line was taken; an empty corpus with no index stays empty |
| TrainSft.ReadFile | app/backend/tasks/train_sft.py:38-50 | the line loop of one file computes the collection |
| TrainSft.CollectCorpus | app/backend/tasks/train_sft.py:25-75 | the file loop followed by the fallback computes the corpus |
| TrainSft.ScanLemmas | app/backend/tasks/train_sft.py:59-74 | the index loop computes the fallback text, or the first line that is not an object |
| TrainSft.NgramCountsShape | app/backend/tasks/train_sft.py:78-88 | the table is empty when the text is no longer than the order, and otherwise holds `len - order` transitions |
| TrainSft.RangeStep | app/backend/tasks/train_sft.py:136 | every position of `range(0, m, st)` lies in [0, m), starting at 0 when m > 0 |
| TrainSft.SampleStride | app/backend/tasks/train_sft.py:136 | the sampling stride is at least 1 |
| TrainSft.StepIdxsInside | app/backend/tasks/train_sft.py:132-138 | each reinforced position has its context and next character inside the text; a step reinforces `min(200, sample)` positions |
| TrainSft.BumpsGrow | app/backend/tasks/train_sft.py:138-142 | each position adds one transition and no count goes down |
| TrainSft.InsideConcat | app/backend/tasks/train_sft.py:138 | positions inside the text stay inside when lists are joined |
| TrainSft.BumpsAppend | app/backend/tasks/train_sft.py:139-142 | reinforcing one more position increments exactly its (context, next) count |
| TrainSft.ScheduleShape | app/backend/tasks/train_sft.py:130-142 | every scheduled position lies inside the text, and k steps schedule `k * min(200, sample)` positions |
| TrainSft.PerStep | app/backend/tasks/train_sft.py:138 | a step reinforces at most 200 positions |
| TrainSft.TrainedGrows | app/backend/tasks/train_sft.py:129-142 | after k steps every count is at least its base value, and the table holds exactly `k * min(200, sample)` more transitions |
| TrainSft.TrainedShort | app/backend/tasks/train_sft.py:133-135 | a text no longer than the order is never reinforced |
| TrainSft.ReinforceStep | app/backend/tasks/train_sft.py:138-142 | the inner loop increments the counts at the chosen positions, in order |
| TrainSft.ReinforceOnce | app/backend/tasks/train_sft.py:132-142 | one step reinforces the first 200 positions of the shuffled sample |
| TrainSft.ScheduleNext | app/backend/tasks/train_sft.py:130-142 | step s + 1 appends step s's positions to the schedule |
| TrainSft.Reinforce | app/backend/tasks/train_sft.py:129-142 | the training loop yields the counts after `max(0, steps)` steps |
| TrainSft.Split | app/backend/tasks/train_sft.py:121 | the split point lies within the corpus |
| TrainSft.ValText | app/backend/tasks/train_sft.py:123 | a non-empty corpus always has a non-empty validation text |
| TrainSft.CkptContexts | app/backend/tasks/train_sft.py:148 | the checkpoint keeps exactly the contexts among the first 20000 of the trained table |
| TrainSft.TrainedCountsGrow | app/backend/tasks/train_sft.py:125-142 | the checkpointed counts hold every base count of the training split, plus exactly `max(0, steps) * min(200, sample)` transitions over its `len - order` |
| TrainSft.SftPlanOutcome | app/backend/tasks/train_sft.py:109-186 | a run fails exactly when seed, order or steps is not an integer or the corpus cannot be read; otherwise it yields the run's effect |
| TrainSft.SftEffectShape | app/backend/tasks/train_sft.py:145-186 | checkpoint, metrics and run record are written in `sft_{seed}` in that order; the returned metrics are the ones written, with status "ok"; "improved" holds exactly when the trained perplexity is lower |
| TrainSft.SftWrites | app/backend/tasks/train_sft.py:145-178 | the store receives exactly those three writes |
| TrainSft.Fit | app/backend/tasks/train_sft.py:125-142 | the base counts of the training split and the counts after reinforcement |
| TrainSft.Run | app/backend/tasks/train_sft.py:109-186 | the run returns and writes what the plan says; nothing is written when it raises |
| TrainDpo.PairOfShape | app/backend/tasks/train_dpo.py:39-51 | a line raises exactly when it is not an object or its truthy response is not a string; a line with an empty prompt is skipped; otherwise the rejected answer is the stripped prompt and the chosen one never equals it |
| TrainDpo.PairLinesNext | app/backend/tasks/train_dpo.py:35-51 | one line read appends the pair it yields, if any |
| TrainDpo.PairLinesGrow | app/backend/tasks/train_dpo.py:35-51 | reading a file keeps the pairs held so far as a prefix and never goes past the cap |
| TrainDpo.PairSourcesGrow | app/backend/tasks/train_dpo.py:33-53 | the same holds across files |
| TrainDpo.LemmaPairsShape | app/backend/tasks/train_dpo.py:58-71 | every fallback pair is `("define w", "w is a term.", w)` for a non-empty lemma w, at most one per index line |
| TrainDpo.CollectedPairsShape | app/backend/tasks/train_dpo.py:23-72 | at most 500 pairs are collected; the dialog pairs are used whenever there are any; the lemma fallback is consulted only when there are none, and no index means no pairs |
| TrainDpo.ReadPairs | app/backend/tasks/train_dpo.py:35-51 | the line loop of one file computes the pairs |
| TrainDpo.ScanLemmaPairs | app/backend/tasks/train_dpo.py:58-71 | the index loop over the first 500 lines computes the fallback pairs |
| TrainDpo.ReadDialogs | app/backend/tasks/train_dpo.py:33-53 | the file loop computes the dialog pairs |
| TrainDpo.CollectPairs | app/backend/tasks/train_dpo.py:23-72 | the file loop followed by the fallback computes the collected pairs |
| TrainDpo.ScoreSuffix | app/backend/tasks/train_dpo.py:84-100 | appending " therefore" raises the score by one, unless "therefore" is already one of the words |
| TrainDpo.ImproveMargin | app/backend/tasks/train_dpo.py:97-102 | improving a pair widens its margin by one exactly when its chosen text lacks "therefore", and never narrows it |
| TrainDpo.Improved | app/backend/tasks/train_dpo.py:96-101 | there is one improved pair per pair |
| TrainDpo.ImprovedSum | app/backend/tasks/train_dpo.py:91-102 | the improved margins sum to the base margins plus one per pair that lacks "therefore" |
| TrainDpo.TrainedMarginGain | app/backend/tasks/train_dpo.py:91-103 | the trained margin is the base margin plus the share of the first 200 pairs that lack "therefore"; it is never lower, and strictly higher exactly when such a pair exists |
| TrainDpo.MeanAdd | app/backend/tasks/train_dpo.py:92-103 | the mean is additive in the sum, and the mean of a count is positive exactly when the count is |
| TrainDpo.ImprovePairs | app/backend/tasks/train_dpo.py:96-101 | the loop yields the improved first 200 pairs |
| TrainDpo.Margins | app/backend/tasks/train_dpo.py:91-103 | the base and trained margins are computed, and the trained one is never lower |
| TrainDpo.DpoPlanOutcome | app/backend/tasks/train_dpo.py:75-127 | a run fails exactly when seed or steps is not an integer or the pairs cannot be collected; otherwise it yields the run's effect |
| TrainDpo.DpoEffectShape | app/backend/tasks/train_dpo.py:105-127 | checkpoint, metrics and run record are written in `dpo_{seed}` in that order, and the metrics written are the ones returned with status "ok" |
| TrainDpo.DpoMetricsShape | app/backend/tasks/train_dpo.py:110-116 | the metrics record both margins, and "improved" holds exactly when the trained one is higher |
| TrainDpo.DpoImproved | app/backend/tasks/train_dpo.py:89-116 | a run reports an improvement exactly when one of the first 200 pairs has a chosen text without the word "therefore" |
| TrainDpo.DpoWrites | app/backend/tasks/train_dpo.py:105-126 | the store receives exactly those three writes |
| TrainDpo.Run | app/backend/tasks/train_dpo.py:75-127 | the run returns and writes what the plan says; nothing is written when it raises |
| Backend.ModuleViewShape | app/backend/main.py:160-176 | an error record lists as its id and error only; any other record lists exactly the eleven listed fields, each as the record has it when present |
| Backend.ViewDefaultKeys | app/backend/main.py:164-176 | the defaults cover exactly the listed fields, with no default id |
| Backend.FieldsOr | app/backend/main.py:164-176 | every default field is present, taken from the record when it has it and from the default otherwise |
| Backend.ViewDefaults | app/backend/main.py:166-174 | missing fields take their defaults: the id for the name, "0.0.0", no capabilities, no resources |
| Backend.Views | app/backend/main.py:158-177 | one listing element per discovered manifest directory |
| Backend.ListModules | app/backend/main.py:154-177 | the listing is discovery followed by one view per record, in discovery order |
| Backend.ViewLoop | app/backend/main.py:159-176 | the loop appends one view per record, in order |
| Backend.ViewsOf | app/backend/main.py:158-176 | the views of the discovered records, in order, are the listing |
| Backend.WithDefaults | app/backend/main.py:547-550 | a stored workspace keeps its fields and gains "Pending Workspace" and 1337 only where name and seed are missing |
| Backend.Fill | app/backend/main.py:545-551 | an object gets the defaults; anything else is either returned unchanged or raises |
| Backend.GetWorkspace | app/backend/main.py:543-552 | no file gives the default pending workspace; an unreadable file raises; a returned object always has a name and a seed |
| Backend.WorkspaceSnapshot | app/backend/main.py:560-571 | the snapshot has exactly the five fields, id "pending", the given selection, a truthy name (the given one or the default), and the given seed when it is an integer, else 1337 |
| Backend.SaveWorkspace | app/backend/main.py:556-573 | a selection that is not a list is refused and nothing is written; otherwise the snapshot replaces the pending workspace, and reading it back gives it unchanged |
| Backend.GetGuardrails | app/backend/main.py:1022-1023 | the stored configuration, or the defaults when there is none |
| Backend.GuardrailsUpdate | app/backend/main.py:1028-1029 | the configuration has exactly the default keys, each taken from the payload when present and from the defaults otherwise |
| Backend.GuardrailsUpdateStable | app/backend/main.py:1028-1029 | saving a saved configuration again changes nothing, and keys outside the defaults never matter |
| Backend.SetGuardrails | app/backend/main.py:1027-1031 | the merged configuration replaces the stored one, and reading back returns it |
| Backend.SaveMappings | app/backend/main.py:1042-1048 | the two maps replace the stored mappings, and reading back returns them |
| Backend.NewId | app/backend/main.py:655 | the given id when truthy, else the prefix followed by the random suffix that stands for the first eight hex digits of a uuid (the same rule names models at line 690) |
| Backend.ModelFields | app/backend/main.py:690-702 | the assembled entry has exactly the ten model fields |
| Backend.CreateModel | app/backend/main.py:689-706 | the entry without nulls is written to `<id>.json` and returned |
| Backend.ModelEntryShape | app/backend/main.py:690-704 | the stored entry always keeps its id and creation time and holds no null; an optional field survives exactly when the payload has it non-null |
| Backend.NetFields | app/backend/main.py:655-672 | the assembled entry has the base fields, plus `param_count` and `shapes` exactly when the payload has them |
| Backend.NetBaseKeys | app/backend/main.py:657-667 | the fixed part has exactly the nine base fields |
| Backend.CreateNeuralNet | app/backend/main.py:654-674 | the file holds the entry without nulls, and reads back as such; the response keeps the entry with its nulls; every non-null field is stored unchanged |
| Backend.FieldLine | app/backend/main.py:603-611 | a `key: value` line changes only the open block's name or family, never its id or the completed blocks |
| Backend.OpenBlock | app/backend/main.py:592-602 | a block-opening line completes the open block and starts a new one |
| Backend.Normalise | app/backend/main.py:617-625 | at most one entry per block; each has exactly id, name and family, with a truthy id and name |
| Backend.IdsAppend | app/backend/main.py:600-602 | the ids of joined block lists are joined |
| Backend.SameIds | app/backend/main.py:603-611 | changing only the open block's fields keeps the ids |
| Backend.CatalogStepIds | app/backend/main.py:589-611 | one line adds exactly the id token of a block-opening line to the blocks' ids |
| Backend.CatalogIds | app/backend/main.py:588-613 | the blocks read are exactly one per block-opening line, carrying that line's id, in order |
| Backend.CatalogIdsFromStart | app/backend/main.py:588-613 | parsing from the empty state gives as block ids exactly the values of the block-opening lines, in order |
| Backend.ParseCatalog | app/backend/main.py:581-625 | the parse loop computes the catalog, with one block per block-opening line |
| Backend.DictsOnly | app/backend/main.py:880-886 | the documents kept are exactly the loaded objects |
| Backend.MetricsLatest | app/backend/main.py:875-888 | `{}` without documents or without the directory; the only document when there is one; when the timestamps are all numbers or all strings, one with the latest timestamp; otherwise the comparison raises; without a model id a document that is not an object raises |
| Backend.WordChars | app/backend/main.py:749 | only word characters are kept, in order |
| Backend.WordCharsConcat | app/backend/main.py:749 | keeping word characters distributes over concatenation |
| Backend.NormPrefixed | app/backend/main.py:749-751 | prefixing "Answer: " puts "answer" in front of the normalised text, so the normalised length grows by six |
| Backend.Unechoed | app/backend/main.py:750-751 | the answer never normalises to the input |
| Backend.GuardedAnswer | app/backend/main.py:753-762 | the guarded answer never normalises to the input; it is the guardrails' result (or the raw answer when they raise), prefixed with "Answer: " and given an `anti_echo` action exactly when it would echo the input |
| Backend.RuntimePost | app/backend/main.py:730-766 | an unreadable guardrail configuration raises with nothing answered and nothing written; a text that is not a string gets no processing and no answer, and nothing is written; a string text is guarded and answered as `generate_answer` answers it (its writes included), and the response carries the payload and the configuration |
| Readiness.MakeErr | app/backend/main.py:207-216 | an item has exactly the four fixed keys plus the extra ones; extra keys win, and otherwise the code, message and log path under the logs directory are as given |
| Readiness.NotRunnable | app/backend/main.py:389-401 | `missing_fields` is present exactly when some field is missing and `missing_files` exactly when some file is, each listing them |
| Readiness.StepsStop | app/backend/main.py:222-231 | once a checked element raises, the later elements of the loop change nothing |
| Readiness.StepsKinds | app/backend/main.py:404-439 | a loop only appends the kinds of items its single steps can produce |
| Readiness.Lookup | app/backend/main.py:270 | the table entry for a key is the last listed module whose truthy id is the same dictionary key (`1`, `1.0` and `True` being one key); none exactly when no module has such an id |
| Readiness.ManifestErrors | app/backend/main.py:222-230 | at most one `manifest_invalid` per listed module |
| Readiness.ManifestLoop | app/backend/main.py:222-230 | the manifest loop appends one `manifest_invalid` per listed module carrying an error, in listing order |
| Readiness.AgreesWithVerify | app/backend/main.py:323-346 | for a file description with a path, the gate's file check and dataset verification agree on raising, on a missing file and on a checksum mismatch with its expected and actual digests |
| Readiness.FileLoop | app/backend/main.py:323-348 | the file loop of a dataset entry collects the items of each file in order and stops at the first raise |
| Readiness.DatasetChecks | app/backend/main.py:310-348 | a dataset id without a registry entry gives `registry_missing`; an unreadable entry ends its checks quietly; otherwise its files are checked |
| Readiness.DatasetLoop | app/backend/main.py:310-348 | the items of every dataset id of the model, in order; the dataset checks never raise |
| Readiness.First | app/backend/main.py:350 | the first capability of a non-empty list is its first element |
| Readiness.Capability | app/backend/main.py:350 | a truthy own capability of the model entry wins; otherwise the first capability of the selected module's manifest |
| Readiness.Absent | app/backend/main.py:365-383 | exactly the run fields that are missing or falsy, in declaration order |
| Readiness.DeclaredMissing | app/backend/main.py:369-388 | a declared weights or tokenizer path is reported, resolved against the root, exactly when nothing exists there or it is an empty file |
| Readiness.Runnable | app/backend/main.py:362-401 | at most one `model_not_runnable` per chat model |
| Readiness.CheckModule | app/backend/main.py:274-403 | one selected module on the module-map path: `mapping_incomplete` without a mapped model, `registry_missing` without its entry, otherwise the network, dataset, metrics and runnability checks, any raise among them swallowed |
| Readiness.UnmappedModule | app/backend/main.py:274-293 | a module without a mapped model gets exactly its own `mapping_incomplete`; a mapped model without a registry entry gets exactly the `registry_missing` naming it |
| Readiness.ModuleMapLoop | app/backend/main.py:273-403 | the module-map loop over the selection collects each module's items in order and stops at the first raise |
| Readiness.CapCheck | app/backend/main.py:408-431 | one capability adds at most one item, only when it maps to a model, and that item is `registry_missing` or `artifact_missing` |
| Readiness.CapLoop | app/backend/main.py:407-431 | the loop over a module's capabilities collects their items, and `found` holds exactly when some capability maps to a model |
| Readiness.CapRunLoop | app/backend/main.py:405-439 | one module's capabilities, followed by `mapping_incomplete` when none of them maps |
| Readiness.CapModuleIncomplete | app/backend/main.py:405-439 | a module gets `mapping_incomplete` exactly when none of its capabilities maps to a model, and then it is its only item |
| Readiness.NoMapNoItems | app/backend/main.py:408-420 | capabilities that map to nothing add no items |
| Readiness.CheckCapModule | app/backend/main.py:405-439 | one selected module on the capability-map path, raising when its id cannot key the table or its capabilities cannot be iterated |
| Readiness.CapMapLoop | app/backend/main.py:404-439 | the capability-map loop over the selection collects each module's items in order and stops at the first raise |
| Readiness.ModuleMapPrecedence | app/backend/main.py:271-273 | a non-empty module map decides alone and the capability map is never consulted; when neither is a non-empty object, nothing is checked per module |
| Readiness.MappingChecks | app/backend/main.py:246-439 | no mappings file gives `mapping_incomplete` for a non-empty selection; an unreadable one gives `mapping_read_failed`; a mappings object runs the module-map or capability-map checks |
| Readiness.SavedGuardrailsPass | app/backend/main.py:493-509 | a configuration saved with a positive integer `max_tokens` and non-empty `allowed_file_types`, or leaving them unset, passes the guardrails section |
| Readiness.ProbeErrors | app/backend/main.py:519-531 | at most one `filesystem_readonly` per probed directory |
| Readiness.ProbeLoop | app/backend/main.py:519-531 | one `filesystem_readonly` for each of the metrics and traces directories whose probe write raised, in that order |
| Readiness.Collect | app/backend/main.py:218-531 | the sections in order (manifests, workspace, mappings, WordNet root, chat, predictor, guardrails, probes) append to one list; an uncaught exception ends the gate |
| Readiness.Report | app/backend/main.py:533-539 | the status is "ready" exactly when no item was collected and "blocked" otherwise; one error object with the four fixed keys per item, next to the workspace and guardrails |
| Readiness.Readiness | app/backend/main.py:205-539 | the gate as written: the collected items, then the guardrails configuration loaded once more |
| Readiness.UnreadableGuardrailsCrash | app/backend/main.py:494-538 | with an unreadable guardrails configuration the `guardrails_read_failed` item is collected, yet the gate as written fails |
| Readiness.FinishFixed | app/backend/main.py:533-539 | the response carries the configuration when it is readable and the default configuration otherwise |
| Readiness.ReadinessFixed | app/backend/main.py:533-539 | the corrected gate fails only where the sections do, and agrees with the gate as written whenever the configuration is readable |
| Readiness.UnreadableGuardrailsReported | app/backend/main.py:510-539 | with an unreadable configuration the corrected gate answers "blocked", lists `guardrails_read_failed` and carries the default configuration |

## Left out

- HTTP routing, CORS, static files and the route wrappers that only start a job are not modelled. Neither are the import-time bootstrap of `main.py` and the dataset ingest endpoints (`main.py:782-869`), which re-serialise uploaded files.
- Bytes on disk are not modelled. A file's size, SHA-256 digest and JSON parse are attributes of `Fs.Node`; SHA-256 itself is not computed. Writes through `Fs.Store` take a written document's size and digest from an `Fs.Encoder` given to the store.
- JSON key order is not modelled. An object is a `map<string, Json>`. JSON numbers with a fraction are exact reals.
- Json.Show: `str` of a float is the exact positional decimal of the real, cut at 17 decimals. Python writes the shortest round-trip repr, which agrees for the floats a JSON document writes with at most 15 significant digits between 1e-4 and 1e16. Exponent notation (`1e-05`, `1e+16`) and the rounding of decimals that binary floats cannot hold are not modelled. A dict shows its keys in increasing order rather than document order, and `repr` of a string always uses single quotes without escapes. This reaches every rendered value: the self-evaluation prompts, responses and scores (`SelfEval.Items`, `SelfEval.Judged`), the bubble bucket names (`MakeBubbles.CutKey`), the corpus text of `TrainSft` and `TrainDpo`, the registry entry paths and readiness item messages built from ids (`Backend`, `Readiness`).
- The messages of `IsADirectoryError` and `FileNotFoundError` (`Fs.IsADirectory`, `Fs.NoSuchFile`) quote the path with single quotes and no escapes. The repository root is the fixed absolute path `/workbench`.
- Iterating a decoded object (`for k in d`) visits each key once, in increasing string order, where Python follows the document's key order. This reaches every loop over a value that may be an object: the readiness checks of selected modules, dataset ids and capabilities, the guardrail lists, the sense offsets, the bubble cut points, the self-evaluation items and the `ord` check of evaluation prompts.
- Directory listings (`glob`, `iterdir`) are parameters, already in the sorted order the source asks for. This covers the manifest directories, registry entries, metrics files, upload and synthetic dialog files, and WordNet files.
- Clocks, uuids and the hash of the job code are parameters: `now`, `hex` and `codeHash`.
- The global seed and the random generators are parameters. `draw` gives the successive `random.randint` results, and `shuffle` is the permutation `rng.shuffle` applies for a seed.
- Regular expressions are abstract. `Guardrails.Regex` says whether a pattern compiles, whether it matches, what its substitution gives, and what the case-insensitive whole-word search for content categories finds. `\w` in the anti-echo normalisation is ASCII letters, digits and `_`.
- Lower-casing is ASCII only.
- The write probe of `readiness()` (`main.py:519-531`) is a parameter `probe` that says, per directory, whether the probe raised and with what message.
- Floating point is not modelled. The means of the DPO margins and the grounding hit rate are exact real divisions, and the 3-decimal rounding of the evaluation payload is left out.
- The latencies measured in `eval_chat_core` are a parameter `lat`, and so are the language-model statistics `lm` it reports.
- The perplexity `_ppl` of `train_sft` is a parameter `ppl`.
- `eval_predictor_ma` and `_read_ohlcv_close` are a parameter `predictor` of the evaluate job. The moving-average arithmetic is float regression.
- TrainSft.Split: `int(0.9 * len(corpus))` is modelled as `9 * len / 10`. The two agree for corpora shorter than 2^48 characters.
- `train_sft` streams the dataset files to hash them; that hash is a parameter `dataHash`.
- The process caches `_INDEX_CACHE`, `_LM_CACHE`, `_GLOSS_CACHE` and `_LEMMA_SET` are left out. Each lookup is a function of the data it would have loaded. Without `_LM_CACHE`, `Chat.LoadOrBuildLm` saves `lm_ngram.json` on every fallback answer, where one process saves it at most once.
- `_load_or_build_lm` does not load files itself. The prebuilt model, the newest SFT checkpoint, the text read from the dataset files and those files' names are given as `Chat.LmSources`. The choice among them, the n-gram build and the document saved to `lm_ngram.json` are modelled. A prebuilt file or checkpoint that fails to load, or whose `order` or `seed` `int()` refuses, is given as absent; Python's handlers fall through to the next source in the same way. The checkpoint's counts are a `Counting.Table`, so they are saved in the model's rendering of that table rather than as the object loaded.
- Creating the parent directory before a save (`mkdir(parents=True)`) is not modelled. A path is written whatever exists above it. The `lm_ngram.json` saves swallow every exception; `Fs.Store` writes never fail.
- Chat.SeenLemma: when several stored counts are refused by `int()`, the error names one of them, in the model's increasing key order. Python names the first one in the document's key order.
- Text.AsciiDigits: the decimal digits of other scripts are the 68 runs of ten of Unicode 15.0, the version Python 3.12 uses. A Python built on another Unicode version knows slightly different runs.
- The bubble model's training corpus (`_collect_corpus` of `core/runtime/bubble.py`) is a parameter `bubbleCorpus`. The bubble tables that `generate_babble` loads are parameters `uni` and `bi`.
- Chat.LmGenerate: the "offline continuation" answer is not modelled. It is returned only when the bubble learner raises, and with its tables given as parameters the modelled learner never raises.
- The evaluation dialog file (`wordnet_synth_<seed>.jsonl`) is read back as one decoded list of JSON values, one per line. A file whose content does not decode as such a list reads as no lines; how a single line fails to decode is not modelled.
- Readers.Newest: timestamps that are all lists are treated as unorderable, where Python compares lists item by item; and the comparison error carries one fixed message rather than naming the two types compared.
- LatestMetric: inherits the two gaps of `Readers.Newest` (list timestamps, the comparison message).
- MetricsLatest: inherits the two gaps of `Readers.Newest` (list timestamps, the comparison message).
- Scheduler.RunJob: job modules are the parameter `tasks`, whose `run` is a function of the payload. The documents a job module writes between the running and the terminal record are not part of this method's effect; each job's own writes are stated by its own `Run` method (`Train.Run`, `Evaluate.Run` and the others).
- Chat.GenerateAnswer: the fallback's continuation is stated as some extension of the seed `"<lemma> — "`, which is what `Chat.LmGenerate` promises, not as the exact sampled text.
- RuntimePost: inherits the fallback gap of `Chat.GenerateAnswer`.
- The WordNet lemma index (`wordnet-lexicon.jsonl`, one value per line) is read as a single decoded list of values, one per line. How a line is decoded is not modelled: `json.loads` with the `ast.literal_eval` or `eval` fallback of `_iter_index_records` and of the lemma fallbacks of `train_sft` and `train_dpo`. An index that does not decode reads as empty.
- TrainSft.Run and TrainSft.SftPlan require a non-negative `order` in the payload. With a negative order, Python's slicing with negative bounds would apply, and that is not modelled.
- The catalog seeding loop of `list_neural_nets` (`main.py:627-642`) is not modelled. The catalog parser `_parse_catalog` is.
- The automatic evaluation that `save_mappings` starts after saving (`main.py:1050` onwards) is not modelled. The save itself is.
- The `runtime_start`/`runtime_stop` stubs are not modelled. Neither is the fallback scan of `list_modules` (`main.py:178-202`), which only runs when discovery raises; modelled discovery never raises.
- `train_cnn.py`, `train_tsconv.py` and `train_rl.py` (float regression and bandit code) are not part of this model. Neither are the module pipeline scripts, the frontend, and `core/utils/io.py`, whose reads and writes are the `Fs` functions.

## Findings

| source | as written | input that shows it | evidently intended | confidence | as-written member | corrected member |
|---|---|---|---|---|---|---|
| app/backend/main.py:494-538 | the guardrails section catches a failed read of the guardrails configuration and records `guardrails_read_failed`, but the response then loads the same file again outside any handler, so `readiness()` raises and the item never reaches the caller | a guardrails configuration file that exists but is not valid JSON | answer "blocked" with the `guardrails_read_failed` item, carrying a usable configuration (the default) | not executed | Readiness.UnreadableGuardrailsCrash | Readiness.ReadinessFixed, Readiness.UnreadableGuardrailsReported |
