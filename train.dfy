/**
 * The `train` job: building the WordNet lemma index from the `index.*`
 * files, the moving-average predictor baseline, the character n-gram chat
 * model and the lexicon build, each dispatched by module id.
 */
module Train {
  import opened Wrappers
  import opened Text
  import opened Json
  import opened Fs
  import opened Counting
  import Bubble

  // ---------------------------------------------------------------- the WordNet index

  /** One record of the lemma index. */
  datatype IndexRec = IndexRec(word: string, pos: string, offsets: seq<int>)

  /** The dict written for a record: its lemma, part of speech and offsets. */
  function RecFields(r: IndexRec): map<string, Json> {
    map["lemma" := JStr(r.word), "pos" := JStr(r.pos),
             "offsets" := JArr(seq(|r.offsets|, i requires 0 <= i < |r.offsets| => JInt(r.offsets[i])))]
  }

  /**
   * The values of the trailing tokens that `parse` accepts, in their
   * original order; with `int` as the parser these are the sense offsets.
   */
  function TrailingRun(parts: seq<string>, parse: string -> Option<int>): seq<int> {
    if |parts| == 0 then []
    else
      match parse(parts[|parts| - 1])
      case None => []
      case Some(n) => TrailingRun(parts[..|parts| - 1], parse) + [n]
  }

  /** The sense offsets of a line's tokens. */
  function TrailingInts(parts: seq<string>): seq<int> { TrailingRun(parts, ParseInt) }

  /**
   * The run is the maximal one at the end of the line: each of its tokens
   * parses to its value, and the token before it (if any) does not parse.
   */
  lemma {:induction false} TrailingRunMaximal(parts: seq<string>, parse: string -> Option<int>)
    ensures var r := TrailingRun(parts, parse);
      |r| <= |parts|
      && (forall i :: 0 <= i < |r| ==> parse(parts[|parts| - |r| + i]) == Some(r[i]))
      && (|r| < |parts| ==> parse(parts[|parts| - |r| - 1]).None?)
  {
    if |parts| > 0 && parse(parts[|parts| - 1]).Some? {
      var init := parts[..|parts| - 1];
      TrailingRunMaximal(init, parse);
      var r := TrailingRun(parts, parse);
      var q := TrailingRun(init, parse);
      assert r == q + [parse(parts[|parts| - 1]).value];
      forall i | 0 <= i < |r| ensures parse(parts[|parts| - |r| + i]) == Some(r[i]) {
        if i < |q| {
          assert parts[|parts| - |r| + i] == init[|init| - |q| + i];
        }
      }
      if |r| < |parts| {
        assert parts[|parts| - |r| - 1] == init[|init| - |q| - 1];
      }
    }
  }

  /** The `for tok in parts[::-1]` loop: values are collected from the end until a token does not parse. */
  method TrailingOffsets(parts: seq<string>, parse: string -> Option<int>) returns (offsets: seq<int>)
    ensures offsets == TrailingRun(parts, parse)
  {
    offsets := [];
    var k := |parts|;
    assert parts[..k] == parts;
    assert TrailingRun(parts, parse) + [] == TrailingRun(parts, parse);
    while k > 0
      invariant 0 <= k <= |parts|
      invariant TrailingRun(parts, parse) == TrailingRun(parts[..k], parse) + offsets
    {
      var v := parse(parts[k - 1]);
      if v.None? {
        break;
      }
      assert parts[..k][..k - 1] == parts[..k - 1];
      offsets := [v.value] + offsets;
      k := k - 1;
    }
    assert k == 0 ==> parts[..k] == [];
  }

  /** A blank or comment line of an `index.*` file. */
  predicate CommentLine(line: string) { line == "" || HasPrefix(line, " ") || HasPrefix(line, "#") }

  /** The record of one `index.*` line, or None when the line is skipped. */
  function IndexLine(raw: string, pos: string): (r: Option<IndexRec>)
    ensures r.Some? ==> var parts := Words(Strip(raw));
      |parts| >= 3 && r.value.word == parts[0] && r.value.pos == pos
      && 1 <= |r.value.offsets| <= 8 && r.value.offsets == Take(TrailingInts(parts), 8)
    ensures r.None? <==> var line := Strip(raw);
      CommentLine(line) || |Words(line)| < 3 || TrailingInts(Words(line)) == []
  {
    var line := Strip(raw);
    if CommentLine(line) then None
    else
      var parts := Words(line);
      if |parts| < 3 then None
      else
        var offs := TrailingInts(parts);
        if offs == [] then None else Some(IndexRec(parts[0], pos, Take(offs, 8)))
  }

  function LineParser(pos: string): string -> Option<IndexRec> { (raw: string) => IndexLine(raw, pos) }

  /** The records of a file's lines, in order. */
  function IndexLines(lines: seq<string>, pos: string): seq<IndexRec> {
    FilterMap(lines, LineParser(pos))
  }

  /** Only lines that parse contribute, one record each. */
  lemma IndexLinesBound(lines: seq<string>, pos: string)
    ensures |IndexLines(lines, pos)| <= |lines|
    ensures forall r :: r in IndexLines(lines, pos) ==> r.pos == pos && 1 <= |r.offsets| <= 8
  {
    FilterMapFrom(lines, LineParser(pos));
  }

  /** `_wordnet_index_paths()` with `POS_MAP`. */
  const IndexFiles: seq<(string, string)> := [
    (Child(WordnetDict, "index.noun"), "noun"), (Child(WordnetDict, "index.verb"), "verb"),
    (Child(WordnetDict, "index.adj"), "adj"), (Child(WordnetDict, "index.adv"), "adv")]

  /** The records of the first `n` index files, skipping the missing ones. */
  function IndexOf(files: Lines, n: nat): seq<IndexRec>
    requires n <= |IndexFiles|
  {
    if n == 0 then []
    else
      var (path, pos) := IndexFiles[n - 1];
      IndexOf(files, n - 1) + (if path in files then IndexLines(files[path], pos) else [])
  }

  /** The line loop of `build_wordnet_index` over one file. */
  method IndexFile(lines: seq<string>, pos: string) returns (got: seq<IndexRec>)
    ensures got == IndexLines(lines, pos)
  {
    var parse := LineParser(pos);
    got := [];
    var j := 0;
    while j < |lines|
      invariant 0 <= j <= |lines|
      invariant got == FilterMap(lines[..j], parse)
    {
      FilterMapSnoc(lines, parse, j);
      var r := parse(lines[j]);
      if r.Some? {
        got := got + [r.value];
      }
      j := j + 1;
    }
    assert lines[..j] == lines;
  }

  /** The file loop of `build_wordnet_index`: every line of every present index file, in file order. */
  method BuildWordnetIndex(files: Lines) returns (recs: seq<IndexRec>)
    ensures recs == IndexOf(files, |IndexFiles|)
  {
    recs := [];
    var i := 0;
    while i < |IndexFiles|
      invariant 0 <= i <= |IndexFiles|
      invariant recs == IndexOf(files, i)
    {
      var entry := IndexFiles[i];
      IndexOfNext(files, i, entry.0, entry.1);
      if entry.0 in files {
        var got := IndexFile(files[entry.0], entry.1);
        recs := recs + got;
      }
      i := i + 1;
    }
  }

  /** One more index file appends its records, when it is present. */
  lemma IndexOfNext(files: Lines, i: nat, path: string, pos: string)
    requires i < |IndexFiles| && IndexFiles[i] == (path, pos)
    ensures IndexOf(files, i + 1) == IndexOf(files, i) + (if path in files then IndexLines(files[path], pos) else [])
  {
  }

  // ---------------------------------------------------------------- families and ids

  /** `get_nn_family(nn_id)`: the registered family, or None when there is none to read. */
  function NnFamily(t: Tree, nnId: Json): (r: Option<string>)
    ensures !Truthy(nnId) ==> r.None?
    ensures !Exists(t, EntryPath(NeuralNetsDir, Show(nnId))) ==> r.None?
    ensures r.Some? ==>
      exists e :: (LoadJson(t, EntryPath(NeuralNetsDir, Show(nnId))) == Success(JObj(e))
                   && Truthy(Get(e, "family", JNull)) && r.value == Show(Get(e, "family", JNull)))
  {
    if !Truthy(nnId) then None
    else
      var p := EntryPath(NeuralNetsDir, Show(nnId));
      if !Exists(t, p) then None
      else
        match LoadJson(t, p)
        case Failure(_) => None
        case Success(e) =>
          if e.JObj? && Truthy(Get(e.fields, "family", JNull)) then Some(Show(Get(e.fields, "family", JNull))) else None
  }

  const VisionFamilies: set<string> := {"vision", "vision_edge", "vision_detection", "vision_segmentation", "vision_transformer"}

  /** The moving-average window of the predictor baseline. */
  function Window(fam: Option<string>): (w: nat)
    ensures w in {3, 5, 7}
    ensures w == 3 <==> fam.Some? && fam.value in VisionFamilies
    ensures w == 7 <==> fam.Some? && fam.value in {"rl", "graph"}
  {
    if fam.Some? && fam.value in VisionFamilies then 3
    else if fam.Some? && fam.value in {"sequence_model", "nlp_transformer", "nlp"} then 5
    else if fam.Some? && fam.value in {"rl", "graph"} then 7
    else 5
  }

  /** The n-gram order of the chat model. */
  function ChatOrder(fam: Option<string>): (o: nat)
    ensures o in {2, 3, 4}
    ensures o == 2 <==> fam == Some("feedforward")
    ensures o == 4 <==> fam == Some("nlp_transformer")
  {
    if fam == Some("feedforward") then 2
    else if fam == Some("nlp_transformer") then 4
    else 3
  }

  /** `base_id if not nn_id else f"{prefix}_{nn_id}_{seed}"`. */
  function ModelId(prefix: string, base: string, nnId: Json, seed: int): string {
    if Truthy(nnId) then prefix + "_" + Show(nnId) + "_" + IntToString(seed)
    else base + "_" + IntToString(seed)
  }

  function PredictorId(nnId: Json, seed: int): string { ModelId("predictor", "predictor_ma", nnId, seed) }

  function ChatId(nnId: Json, seed: int): string { ModelId("chat", "chat_retrieval", nnId, seed) }

  /** The seed is recoverable from an id: ids with the same prefix and network never collide across seeds. */
  lemma ModelIdSeed(prefix: string, base: string, nnId: Json, s1: int, s2: int)
    requires ModelId(prefix, base, nnId, s1) == ModelId(prefix, base, nnId, s2)
    ensures s1 == s2
  {
    var head := if Truthy(nnId) then prefix + "_" + Show(nnId) + "_" else base + "_";
    assert ModelId(prefix, base, nnId, s1) == head + IntToString(s1);
    assert ModelId(prefix, base, nnId, s2) == head + IntToString(s2);
    assert IntToString(s1) == (head + IntToString(s1))[|head|..];
    assert IntToString(s2) == (head + IntToString(s2))[|head|..];
    ParseIntOfIntToString(s1);
    ParseIntOfIntToString(s2);
  }

  /** The entry `register_model` stores: `nn_id` only when truthy, and `extra` merged last. */
  function TrainedEntry(modelId: string, capability: string, task: string, extra: map<string, Json>, nnId: Json, now: string)
    : map<string, Json>
  {
    var entry := map["id" := JStr(modelId), "name" := JStr(modelId), "capability" := JStr(capability),
                     "task" := JStr(task), "created_at" := JStr(now), "metrics" := JObj(map[])];
    var entry := if Truthy(nnId) then entry["nn_id" := nnId] else entry;
    if |extra| > 0 then entry + extra else entry
  }

  /** The fields every registry entry of a trained model starts with. */
  const EntryKeys: set<string> := {"id", "name", "capability", "task", "created_at", "metrics"}

  /** The base fields, `nn_id` when it is truthy, and `extra` winning over both. */
  lemma TrainedEntryShape(modelId: string, capability: string, task: string, extra: map<string, Json>, nnId: Json, now: string)
    ensures var e := TrainedEntry(modelId, capability, task, extra, nnId, now);
      (forall k :: k in e <==> k in EntryKeys || k in extra || (k == "nn_id" && Truthy(nnId)))
      && (forall k :: k in extra ==> e[k] == extra[k])
      && ("nn_id" !in extra && Truthy(nnId) ==> e["nn_id"] == nnId)
      && ("id" !in extra ==> e["id"] == JStr(modelId))
      && ("name" !in extra ==> e["name"] == JStr(modelId))
      && ("capability" !in extra ==> e["capability"] == JStr(capability))
  {
  }

  /** `register_model(...)`: the entry overwrites the model's registry file. */
  method RegisterModel(store: Store, modelId: string, capability: string, task: string, extra: map<string, Json>,
                       nnId: Json, now: string) returns (path: string)
    modifies store
    ensures path == EntryPath(ModelsDir, modelId)
    ensures store.tree == old(store.tree)[path := store.enc.Node(JObj(TrainedEntry(modelId, capability, task, extra, nnId, now)))]
    ensures store.writes == old(store.writes) + [(path, JObj(TrainedEntry(modelId, capability, task, extra, nnId, now)))]
  {
    var entry := map["id" := JStr(modelId), "name" := JStr(modelId), "capability" := JStr(capability),
                     "task" := JStr(task), "created_at" := JStr(now), "metrics" := JObj(map[])];
    if Truthy(nnId) {
      entry := entry["nn_id" := nnId];
    }
    if |extra| > 0 {
      entry := entry + extra;
    }
    path := EntryPath(ModelsDir, modelId);
    store.WriteJson(path, JObj(entry));
  }

  // ---------------------------------------------------------------- predictor baseline

  const PredictorCkptDir: string := Child(Child(ModulesDir, "predictor-finance"), "models")

  /** The checkpoint document of the moving-average baseline. */
  function PredictorCkpt(window: nat, seed: int, nnId: Json): Json {
    JObj(map["type" := JStr("moving_average"), "window" := JInt(window), "seed" := JInt(seed), "nn_id" := nnId])
  }

  /** The `extra` fields of a predictor's registry entry. */
  function PredictorExtra(ckpt: string, window: nat, seed: int): map<string, Json> {
    map["checkpoint" := JStr(ckpt), "window" := JInt(window), "train_seed" := JInt(seed)]
  }

  /** `train_predictor_baseline(payload)`: the checkpoint, then the registry entry. */
  function Predictor(fam: Option<string>, payload: map<string, Json>, seed: int, now: string): Effect {
    var nnId := Get(payload, "nn_id", JNull);
    var modelId := PredictorId(nnId, seed);
    var w := Window(fam);
    var ckpt := EntryPath(PredictorCkptDir, modelId);
    Effect(map["model_id" := JStr(modelId), "registry" := JStr(EntryPath(ModelsDir, modelId))],
           [(ckpt, PredictorCkpt(w, seed, nnId)),
            (EntryPath(ModelsDir, modelId), JObj(TrainedEntry(modelId, "predictor", "forecast", PredictorExtra(ckpt, w, seed), nnId, now)))])
  }

  /** The checkpoint's write comes first, then the registry entry's. */
  lemma PredictorParts(fam: Option<string>, payload: map<string, Json>, seed: int, now: string)
    ensures var nnId := Get(payload, "nn_id", JNull);
      var modelId := PredictorId(nnId, seed);
      var ckpt := EntryPath(PredictorCkptDir, modelId);
      var e := Predictor(fam, payload, seed, now);
      e.writes == [(ckpt, PredictorCkpt(Window(fam), seed, nnId)),
                   (EntryPath(ModelsDir, modelId), JObj(TrainedEntry(modelId, "predictor", "forecast", PredictorExtra(ckpt, Window(fam), seed), nnId, now)))]
      && e.out == map["model_id" := JStr(modelId), "registry" := JStr(EntryPath(ModelsDir, modelId))]
  {
  }

  /** `train_predictor_baseline(payload)` for an already parsed seed. */
  method TrainPredictor(store: Store, payload: map<string, Json>, seed: int, now: string) returns (out: map<string, Json>)
    modifies store
    ensures var e := Predictor(NnFamily(old(store.tree), Get(payload, "nn_id", JNull)), payload, seed, now);
      out == e.out && store.writes == old(store.writes) + e.writes && store.tree == Replay(old(store.tree), store.enc, e.writes)
  {
    ghost var t0 := store.tree;
    ghost var w0 := store.writes;
    var nnId := Get(payload, "nn_id", JNull);
    var window := Window(NnFamily(store.tree, nnId));
    var modelId := PredictorId(nnId, seed);
    var ckpt := EntryPath(PredictorCkptDir, modelId);
    store.WriteJson(ckpt, PredictorCkpt(window, seed, nnId));
    var reg := RegisterModel(store, modelId, "predictor", "forecast", PredictorExtra(ckpt, window, seed), nnId, now);
    out := map["model_id" := JStr(modelId), "registry" := JStr(reg)];
    ghost var entry := JObj(TrainedEntry(modelId, "predictor", "forecast", PredictorExtra(ckpt, window, seed), nnId, now));
    PredictorParts(NnFamily(t0, nnId), payload, seed, now);
    ReplayTwo(t0, store.enc, ckpt, PredictorCkpt(window, seed, nnId), reg, entry);
    assert w0 + [(ckpt, PredictorCkpt(window, seed, nnId))] + [(reg, entry)]
        == w0 + [(ckpt, PredictorCkpt(window, seed, nnId)), (reg, entry)];
  }

  // ---------------------------------------------------------------- chat n-gram

  /** The corpus text of one line; `obj.get` on a document that is not an object raises. */
  function LineText(l: DataLine): Result<string> {
    var obj := LineDoc(l);
    if !obj.JObj? then Failure(NoGet(TypeName(obj)))
    else
      var o := obj.fields;
      Success(Show(Get(o, "response", JStr(""))) + "\n" + Show(Get(o, "prompt", Get(o, "text", JStr("")))) + "\n")
  }

  /**
   * The text a file contributes, `render` giving each line's text: its lines
   * up to the first that raises (the text before it is kept).
   */
  function SourceText(lines: seq<DataLine>, render: DataLine -> Result<string>): string {
    if |lines| == 0 then ""
    else match render(lines[0])
      case Failure(_) => ""
      case Success(x) => x + SourceText(lines[1..], render)
  }

  const LinesPerSource: nat := 2000

  /** The corpus of `build_chat_ngram_from_datasets`: the first 2000 lines of each source, in order. */
  function ChatCorpus(sources: seq<Source>, render: DataLine -> Result<string>): string {
    if |sources| == 0 then ""
    else SourceText(Take(sources[0].lines, LinesPerSource), render) + ChatCorpus(sources[1..], render)
  }

  /** The line loop of one source. */
  method ReadSource(lines: seq<DataLine>, render: DataLine -> Result<string>) returns (text: string)
    ensures text == SourceText(Take(lines, LinesPerSource), render)
  {
    var ls := Take(lines, LinesPerSource);
    text := "";
    var k := 0;
    while k < |ls|
      invariant 0 <= k <= |ls|
      invariant text + SourceText(ls[k..], render) == SourceText(ls, render)
    {
      assert ls[k..][1..] == ls[k + 1..];
      var x := render(ls[k]);
      if x.Failure? {
        assert SourceText(ls[k..], render) == "";
        assert text + "" == text;
        return;
      }
      text := text + x.value;
      k := k + 1;
    }
  }

  /** The source loop of `build_chat_ngram_from_datasets`. */
  method CollectChatCorpus(sources: seq<Source>, render: DataLine -> Result<string>) returns (corpus: string)
    ensures corpus == ChatCorpus(sources, render)
  {
    corpus := "";
    var i := 0;
    while i < |sources|
      invariant 0 <= i <= |sources|
      invariant corpus + ChatCorpus(sources[i..], render) == ChatCorpus(sources, render)
    {
      var txt := ReadSource(sources[i].lines, render);
      ChatCorpusStep(corpus, txt, sources, i, render);
      corpus := corpus + txt;
      i := i + 1;
    }
    assert corpus + "" == corpus;
  }

  /** One turn of the source loop: the text of source `i` moves from the rest into the prefix. */
  lemma ChatCorpusStep(corpus: string, txt: string, sources: seq<Source>, i: nat, render: DataLine -> Result<string>)
    requires i < |sources|
    requires txt == SourceText(Take(sources[i].lines, LinesPerSource), render)
    ensures corpus + ChatCorpus(sources[i..], render) == (corpus + txt) + ChatCorpus(sources[i + 1..], render)
  {
    assert sources[i..][1..] == sources[i + 1..];
    assert ChatCorpus(sources[i..], render) == txt + ChatCorpus(sources[i + 1..], render);
  }

  /** `",".join(names[:3]) + ("+" if len(sources) > 3 else "")`, or None without sources. */
  function BuiltFrom(sources: seq<Source>): Json {
    if |sources| == 0 then JNull
    else
      var names := seq(|Take(sources, 3)|, i requires 0 <= i < |Take(sources, 3)| => Take(sources, 3)[i].name);
      JStr(Join(",", names) + (if |sources| > 3 then "+" else ""))
  }

  const ChatLmPath: string := Child(Child(ArtifactsDir, "chat"), "lm_ngram.json")

  /** The corpus counted: the collected text, or `"hello world " * 100` when it is empty. */
  function ChatText(sources: seq<Source>): (text: string)
    ensures |text| > 0
  {
    var c := ChatCorpus(sources, LineText);
    if c == "" then Repeat("hello world ", 100) else c
  }

  /** `max(1, int(order))`. */
  function LmOrder(order: int): (o: nat)
    ensures o >= 1 && o >= order
  {
    if order > 1 then order else 1
  }

  /** The document written to `lm_ngram.json`: the first 20000 contexts of the counts. */
  function ChatLmDoc(sources: seq<Source>, seed: int, order: int): Json {
    var text := ChatText(sources);
    var o := LmOrder(order);
    JObj(map["order" := JInt(o),
             "counts" := JObj(Bubble.DictJson(Take(NgramAt(text, o, Positions(text, o)), 20000), Bubble.BucketJson)),
             "seed" := JInt(seed), "built_from" := BuiltFrom(sources)])
  }

  /** The counted model: every transition of the text once, single-character next keys. */
  lemma ChatLmCounts(sources: seq<Source>, order: int, ctx: string, nxt: string)
    ensures var text := ChatText(sources);
      var o := LmOrder(order);
      var counts := NgramAt(text, o, Positions(text, o));
      Total(counts) == Positions(text, o)
      && CountIn(counts, ctx, nxt) == |Occurrences(text, o, Positions(text, o), ctx, nxt)|
      && UnitTable(counts)
  {
    var text := ChatText(sources);
    var o := LmOrder(order);
    NgramTotal(text, o, Positions(text, o));
    NgramCount(text, o, Positions(text, o), ctx, nxt);
    NgramUnit(text, o, Positions(text, o));
  }

  /** `build_chat_ngram_from_datasets(seed, order)` over the sorted synthetic and uploaded sources. */
  method BuildChatNgram(store: Store, sources: seq<Source>, seed: int, order: int) returns (path: string)
    modifies store
    ensures path == ChatLmPath
    ensures store.tree == old(store.tree)[ChatLmPath := store.enc.Node(ChatLmDoc(sources, seed, order))]
    ensures store.writes == old(store.writes) + [(ChatLmPath, ChatLmDoc(sources, seed, order))]
  {
    var corpus := CollectChatCorpus(sources, LineText);
    if corpus == "" {
      corpus := Repeat("hello world ", 100);
    }
    var o := LmOrder(order);
    var counts := BuildNgram(corpus, o);
    var doc := JObj(map["order" := JInt(o), "counts" := JObj(Bubble.DictJson(Take(counts, 20000), Bubble.BucketJson)),
                        "seed" := JInt(seed), "built_from" := BuiltFrom(sources)]);
    store.WriteJson(ChatLmPath, doc);
    path := ChatLmPath;
  }

  /** The `extra` fields of a chat model's registry entry. */
  function ChatExtra(order: nat, seed: int): map<string, Json> {
    map["mode" := JStr("retrieval+ngram"), "lm_path" := JStr(ChatLmPath), "order" := JInt(order), "train_seed" := JInt(seed)]
  }

  /**
   * `train_chat_core(payload)`: the n-gram model, the shared bubble model
   * (trained on `bubbleCorpus`), then the registry entry.
   */
  function Chat(fam: Option<string>, payload: map<string, Json>, seed: int, sources: seq<Source>, bubbleCorpus: string,
                now: string): Effect {
    ChatWith(ChatLmDoc(sources, seed, ChatOrder(fam)), Bubble.ModelDoc(bubbleCorpus, seed), fam, payload, seed, now)
  }

  /** `train_chat_core` once the two models' documents `lm` and `bubble` are built. */
  function ChatWith(lm: Json, bubble: Json, fam: Option<string>, payload: map<string, Json>, seed: int, now: string): Effect {
    var nnId := Get(payload, "nn_id", JNull);
    var modelId := ChatId(nnId, seed);
    Effect(map["model_id" := JStr(modelId), "registry" := JStr(EntryPath(ModelsDir, modelId)),
               "lm" := JStr(ChatLmPath), "bubble" := JStr(Bubble.BubbleModelPath)],
           [(ChatLmPath, lm), (Bubble.BubbleModelPath, bubble),
            (EntryPath(ModelsDir, modelId), JObj(TrainedEntry(modelId, "chat", "dialogue", ChatExtra(ChatOrder(fam), seed), nnId, now)))])
  }

  /** The n-gram model, then the bubble model. */
  method ChatArtifacts(store: Store, sources: seq<Source>, seed: int, order: nat, bubbleCorpus: string)
    returns (lmPath: string, bubblePath: string)
    modifies store
    ensures lmPath == ChatLmPath && bubblePath == Bubble.BubbleModelPath
    ensures store.writes == old(store.writes) + [(ChatLmPath, ChatLmDoc(sources, seed, order)), (Bubble.BubbleModelPath, Bubble.ModelDoc(bubbleCorpus, seed))]
    ensures store.tree == old(store.tree)[ChatLmPath := store.enc.Node(ChatLmDoc(sources, seed, order))]
                                         [Bubble.BubbleModelPath := store.enc.Node(Bubble.ModelDoc(bubbleCorpus, seed))]
  {
    lmPath := BuildChatNgram(store, sources, seed, order);
    bubblePath := Bubble.BuildBubbleModel(store, bubbleCorpus, seed, 2);
  }

  /** The two models' writes come first, then the registry entry's. */
  lemma ChatWithParts(lm: Json, bubble: Json, fam: Option<string>, payload: map<string, Json>, seed: int, now: string)
    ensures var nnId := Get(payload, "nn_id", JNull);
      var modelId := ChatId(nnId, seed);
      var e := ChatWith(lm, bubble, fam, payload, seed, now);
      e.writes == [(ChatLmPath, lm), (Bubble.BubbleModelPath, bubble)]
        + [(EntryPath(ModelsDir, modelId), JObj(TrainedEntry(modelId, "chat", "dialogue", ChatExtra(ChatOrder(fam), seed), nnId, now)))]
      && e.out == map["model_id" := JStr(modelId), "registry" := JStr(EntryPath(ModelsDir, modelId)),
                      "lm" := JStr(ChatLmPath), "bubble" := JStr(Bubble.BubbleModelPath)]
  {
  }

  /** `train_chat_core(payload)` for an already parsed seed. */
  method TrainChat(store: Store, payload: map<string, Json>, seed: int, sources: seq<Source>, bubbleCorpus: string, now: string)
    returns (out: map<string, Json>)
    modifies store
    ensures var e := Chat(NnFamily(old(store.tree), Get(payload, "nn_id", JNull)), payload, seed, sources, bubbleCorpus, now);
      out == e.out && store.writes == old(store.writes) + e.writes && store.tree == Replay(old(store.tree), store.enc, e.writes)
  {
    ghost var t0 := store.tree;
    var nnId := Get(payload, "nn_id", JNull);
    var fam := NnFamily(store.tree, nnId);
    out := ChatWrites(store, nnId, ChatOrder(fam), seed, sources, bubbleCorpus, now);
    ChatReplay(t0, store.enc, fam, payload, seed, sources, bubbleCorpus, now);
  }

  /** The two models and the registry entry, written in that order. */
  method ChatWrites(store: Store, nnId: Json, order: nat, seed: int, sources: seq<Source>, bubbleCorpus: string, now: string)
    returns (out: map<string, Json>)
    modifies store
    ensures var modelId := ChatId(nnId, seed);
      var lm := ChatLmDoc(sources, seed, order);
      var bubble := Bubble.ModelDoc(bubbleCorpus, seed);
      var entry := JObj(TrainedEntry(modelId, "chat", "dialogue", ChatExtra(order, seed), nnId, now));
      out == map["model_id" := JStr(modelId), "registry" := JStr(EntryPath(ModelsDir, modelId)),
                 "lm" := JStr(ChatLmPath), "bubble" := JStr(Bubble.BubbleModelPath)]
      && store.writes == old(store.writes) + [(ChatLmPath, lm), (Bubble.BubbleModelPath, bubble)] + [(EntryPath(ModelsDir, modelId), entry)]
      && store.tree == old(store.tree)[ChatLmPath := store.enc.Node(lm)][Bubble.BubbleModelPath := store.enc.Node(bubble)]
                                      [EntryPath(ModelsDir, modelId) := store.enc.Node(entry)]
  {
    var lmPath, bubblePath := ChatArtifacts(store, sources, seed, order, bubbleCorpus);
    var modelId := ChatId(nnId, seed);
    var reg := RegisterModel(store, modelId, "chat", "dialogue", ChatExtra(order, seed), nnId, now);
    out := map["model_id" := JStr(modelId), "registry" := JStr(reg), "lm" := JStr(lmPath), "bubble" := JStr(bubblePath)];
  }

  /** The chat action's writes: the two models, then the registry entry. */
  lemma ChatReplay(t: Tree, enc: Encoder, fam: Option<string>, payload: map<string, Json>, seed: int, sources: seq<Source>,
                   bubbleCorpus: string, now: string)
    ensures var nnId := Get(payload, "nn_id", JNull);
      var modelId := ChatId(nnId, seed);
      var e := Chat(fam, payload, seed, sources, bubbleCorpus, now);
      var lm := ChatLmDoc(sources, seed, ChatOrder(fam));
      var bubble := Bubble.ModelDoc(bubbleCorpus, seed);
      var entry := JObj(TrainedEntry(modelId, "chat", "dialogue", ChatExtra(ChatOrder(fam), seed), nnId, now));
      e.writes == [(ChatLmPath, lm), (Bubble.BubbleModelPath, bubble)] + [(EntryPath(ModelsDir, modelId), entry)]
      && Replay(t, enc, e.writes)
         == t[ChatLmPath := enc.Node(lm)][Bubble.BubbleModelPath := enc.Node(bubble)][EntryPath(ModelsDir, modelId) := enc.Node(entry)]
      && e.out == map["model_id" := JStr(modelId), "registry" := JStr(EntryPath(ModelsDir, modelId)),
                      "lm" := JStr(ChatLmPath), "bubble" := JStr(Bubble.BubbleModelPath)]
  {
    var lm := ChatLmDoc(sources, seed, ChatOrder(fam));
    var bubble := Bubble.ModelDoc(bubbleCorpus, seed);
    var nnId := Get(payload, "nn_id", JNull);
    var modelId := ChatId(nnId, seed);
    ChatWithParts(lm, bubble, fam, payload, seed, now);
    ReplayThree(t, enc, ChatLmPath, lm, Bubble.BubbleModelPath, bubble, EntryPath(ModelsDir, modelId),
                JObj(TrainedEntry(modelId, "chat", "dialogue", ChatExtra(ChatOrder(fam), seed), nnId, now)));
  }

  /** The index file's content: the list of its records. */
  function IndexDoc(recs: seq<IndexRec>): Json {
    JArr(seq(|recs|, i requires 0 <= i < |recs| => JObj(RecFields(recs[i]))))
  }

  /** `train_lexicon(payload)`: the index, then the shared bubble model. */
  function Lexicon(files: Lines, seed: int, bubbleCorpus: string): Effect {
    LexiconWith(IndexDoc(IndexOf(files, |IndexFiles|)), Bubble.ModelDoc(bubbleCorpus, seed))
  }

  /** `train_lexicon` once the index and bubble documents are built. */
  function LexiconWith(index: Json, bubble: Json): Effect {
    Effect(map["index" := JStr(IndexPath), "bubble" := JStr(Bubble.BubbleModelPath)],
           [(IndexPath, index), (Bubble.BubbleModelPath, bubble)])
  }

  /** `train_lexicon(payload)` for an already parsed seed. */
  method TrainLexicon(store: Store, files: Lines, seed: int, bubbleCorpus: string) returns (out: map<string, Json>)
    modifies store
    ensures var e := Lexicon(files, seed, bubbleCorpus);
      out == e.out && store.writes == old(store.writes) + e.writes && store.tree == Replay(old(store.tree), store.enc, e.writes)
  {
    ghost var t0 := store.tree;
    var recs := BuildWordnetIndex(files);
    var index := IndexDoc(recs);
    ghost var bubble := Bubble.ModelDoc(bubbleCorpus, seed);
    var bub := WriteLexicon(store, index, seed, bubbleCorpus);
    out := map["index" := JStr(IndexPath), "bubble" := JStr(bub)];
    ReplayTwo(t0, store.enc, IndexPath, index, Bubble.BubbleModelPath, bubble);
    LexiconWithParts(index, bubble);
  }

  /** The index write, then the bubble model. */
  method WriteLexicon(store: Store, index: Json, seed: int, bubbleCorpus: string) returns (bub: string)
    modifies store
    ensures bub == Bubble.BubbleModelPath
    ensures store.writes == old(store.writes) + [(IndexPath, index), (Bubble.BubbleModelPath, Bubble.ModelDoc(bubbleCorpus, seed))]
    ensures store.tree == old(store.tree)[IndexPath := store.enc.Node(index)]
                                         [Bubble.BubbleModelPath := store.enc.Node(Bubble.ModelDoc(bubbleCorpus, seed))]
  {
    store.WriteJson(IndexPath, index);
    bub := Bubble.BuildBubbleModel(store, bubbleCorpus, seed, 2);
  }

  lemma LexiconWithParts(index: Json, bubble: Json)
    ensures LexiconWith(index, bubble).out == map["index" := JStr(IndexPath), "bubble" := JStr(Bubble.BubbleModelPath)]
    ensures LexiconWith(index, bubble).writes == [(IndexPath, index), (Bubble.BubbleModelPath, bubble)]
  {
  }

  // ---------------------------------------------------------------- dispatch

  const TrainModules: set<string> := {"lexicon-wordnet3", "chat-core", "predictor-finance"}

  /** `out.update({"module_id": ..., "seed": ..., "status": "ok"})`. */
  function Stamp(out: map<string, Json>, moduleId: Json, seed: int): (r: map<string, Json>)
    ensures "module_id" in r && r["module_id"] == moduleId && "seed" in r && r["seed"] == JInt(seed)
    ensures "status" in r && r["status"] == JStr("ok")
    ensures forall k :: k in r <==> k in out || k == "module_id" || k == "seed" || k == "status"
  {
    out + map["module_id" := moduleId, "seed" := JInt(seed), "status" := JStr("ok")]
  }

  /**
   * What `run(payload)` does: the seed is parsed, then the module id checked,
   * then the action runs on the tree as it was.
   */
  function RunPlan(t: Tree, payload: map<string, Json>, files: Lines, sources: seq<Source>, bubbleCorpus: string, now: string)
    : Result<Effect>
  {
    var seed :- (if Seed(payload).Some? then Success(Seed(payload).value) else Failure(SeedError(payload)));
    var moduleId := Get(payload, "module_id", JNull);
    var name :- ModuleCheck(moduleId, TrainModules);
    var e := Action(t, name, payload, seed, files, sources, bubbleCorpus, now);
    Success(Effect(Stamp(e.out, moduleId, seed), e.writes))
  }

  /** The training action the module id selects. */
  function Action(t: Tree, name: string, payload: map<string, Json>, seed: int, files: Lines, sources: seq<Source>,
                  bubbleCorpus: string, now: string): Effect
  {
    if name == "lexicon-wordnet3" then Lexicon(files, seed, bubbleCorpus)
    else if name == "chat-core" then Chat(NnFamily(t, Get(payload, "nn_id", JNull)), payload, seed, sources, bubbleCorpus, now)
    else Predictor(NnFamily(t, Get(payload, "nn_id", JNull)), payload, seed, now)
  }

  /** `run(payload)`: nothing is written when it raises, and otherwise exactly the action's documents. */
  method Run(store: Store, payload: map<string, Json>, files: Lines, sources: seq<Source>, bubbleCorpus: string, now: string)
    returns (r: Result<Json>)
    modifies store
    ensures var plan := RunPlan(old(store.tree), payload, files, sources, bubbleCorpus, now);
      match plan
      case Failure(err) => r == Failure(err) && store.tree == old(store.tree) && store.writes == old(store.writes)
      case Success(e) => (r == Success(JObj(e.out)) && store.writes == old(store.writes) + e.writes
        && store.tree == Replay(old(store.tree), store.enc, e.writes))
  {
    var moduleId := Get(payload, "module_id", JNull);
    var seedOpt := Seed(payload);
    if seedOpt.None? {
      return Failure(SeedError(payload));
    }
    var seed := seedOpt.value;
    var check := ModuleCheck(moduleId, TrainModules);
    if check.Failure? {
      return Failure(check.error);
    }
    ghost var t0 := store.tree;
    ghost var e := Action(t0, check.value, payload, seed, files, sources, bubbleCorpus, now);
    assert RunPlan(t0, payload, files, sources, bubbleCorpus, now) == Success(Effect(Stamp(e.out, moduleId, seed), e.writes));
    var out: map<string, Json>;
    if check.value == "lexicon-wordnet3" {
      assert e == Lexicon(files, seed, bubbleCorpus);
      out := TrainLexicon(store, files, seed, bubbleCorpus);
    } else if check.value == "chat-core" {
      assert e == Chat(NnFamily(t0, Get(payload, "nn_id", JNull)), payload, seed, sources, bubbleCorpus, now);
      out := TrainChat(store, payload, seed, sources, bubbleCorpus, now);
    } else {
      assert e == Predictor(NnFamily(t0, Get(payload, "nn_id", JNull)), payload, seed, now);
      out := TrainPredictor(store, payload, seed, now);
    }
    assert out == e.out && store.writes == old(store.writes) + e.writes && store.tree == Replay(t0, store.enc, e.writes);
    return Success(JObj(Stamp(out, moduleId, seed)));
  }

  /**
   * `run` raises exactly when the seed is not an integer or the module is
   * not a training module; otherwise its output names the module, the seed
   * and status "ok".
   */
  lemma RunOutcome(t: Tree, payload: map<string, Json>, files: Lines, sources: seq<Source>, bubbleCorpus: string, now: string)
    ensures var plan := RunPlan(t, payload, files, sources, bubbleCorpus, now);
      (plan.Success? <==> Seed(payload).Some? && ModuleCheck(Get(payload, "module_id", JNull), TrainModules).Success?)
      && (Seed(payload).None? ==> plan == Failure(SeedError(payload)))
      && (plan.Success? ==>
            "module_id" in plan.value.out && plan.value.out["module_id"] == Get(payload, "module_id", JNull)
            && "seed" in plan.value.out && plan.value.out["seed"] == JInt(Seed(payload).value)
            && "status" in plan.value.out && plan.value.out["status"] == JStr("ok"))
  {
    var moduleId := Get(payload, "module_id", JNull);
    if Seed(payload).Some? && ModuleCheck(moduleId, TrainModules).Success? {
      var e := Action(t, ModuleCheck(moduleId, TrainModules).value, payload, Seed(payload).value, files, sources, bubbleCorpus, now);
      assert RunPlan(t, payload, files, sources, bubbleCorpus, now) == Success(Effect(Stamp(e.out, moduleId, Seed(payload).value), e.writes));
    }
  }

  /** The fields of a chat model's registry entry that name what was trained. */
  lemma ChatEntryFields(modelId: string, nnId: Json, order: nat, seed: int, now: string)
    ensures var entry := TrainedEntry(modelId, "chat", "dialogue", ChatExtra(order, seed), nnId, now);
      "id" in entry && entry["id"] == JStr(modelId) && "lm_path" in entry && entry["lm_path"] == JStr(ChatLmPath)
      && "train_seed" in entry && entry["train_seed"] == JInt(seed)
  {
    TrainedEntryShape(modelId, "chat", "dialogue", ChatExtra(order, seed), nnId, now);
  }

  /**
   * Training a chat model leaves its registry entry at the path the output
   * names; the entry carries the model id, the n-gram path and the seed.
   */
  lemma ChatRegisters(t: Tree, enc: Encoder, lm: Json, bubble: Json, fam: Option<string>, payload: map<string, Json>,
                      seed: int, now: string)
    ensures var e := ChatWith(lm, bubble, fam, payload, seed, now);
      var nnId := Get(payload, "nn_id", JNull);
      var modelId := ChatId(nnId, seed);
      var entry := TrainedEntry(modelId, "chat", "dialogue", ChatExtra(ChatOrder(fam), seed), nnId, now);
      e.out["model_id"] == JStr(modelId) && e.out["registry"] == JStr(EntryPath(ModelsDir, modelId))
      && LoadJson(Replay(t, enc, e.writes), EntryPath(ModelsDir, modelId)) == Success(JObj(entry))
      && "id" in entry && entry["id"] == JStr(modelId) && "lm_path" in entry && entry["lm_path"] == JStr(ChatLmPath)
      && "train_seed" in entry && entry["train_seed"] == JInt(seed)
  {
    var e := ChatWith(lm, bubble, fam, payload, seed, now);
    var nnId := Get(payload, "nn_id", JNull);
    var modelId := ChatId(nnId, seed);
    ChatWithParts(lm, bubble, fam, payload, seed, now);
    ReplayAt(t, enc, e.writes, EntryPath(ModelsDir, modelId));
    ChatEntryFields(modelId, nnId, ChatOrder(fam), seed, now);
  }

  /** The fields of a predictor's registry entry that name what was trained. */
  lemma PredictorEntryFields(modelId: string, nnId: Json, ckpt: string, window: nat, seed: int, now: string)
    ensures var entry := TrainedEntry(modelId, "predictor", "forecast", PredictorExtra(ckpt, window, seed), nnId, now);
      "id" in entry && entry["id"] == JStr(modelId) && "checkpoint" in entry && entry["checkpoint"] == JStr(ckpt)
      && "train_seed" in entry && entry["train_seed"] == JInt(seed)
  {
    TrainedEntryShape(modelId, "predictor", "forecast", PredictorExtra(ckpt, window, seed), nnId, now);
  }

  /**
   * Training a predictor leaves its registry entry at the path the output
   * names; the entry carries the model id, the checkpoint path and the seed.
   */
  lemma PredictorRegisters(t: Tree, enc: Encoder, fam: Option<string>, payload: map<string, Json>, seed: int, now: string)
    ensures var e := Predictor(fam, payload, seed, now);
      var nnId := Get(payload, "nn_id", JNull);
      var modelId := PredictorId(nnId, seed);
      var ckpt := EntryPath(PredictorCkptDir, modelId);
      var entry := TrainedEntry(modelId, "predictor", "forecast", PredictorExtra(ckpt, Window(fam), seed), nnId, now);
      e.out["model_id"] == JStr(modelId) && e.out["registry"] == JStr(EntryPath(ModelsDir, modelId))
      && LoadJson(Replay(t, enc, e.writes), EntryPath(ModelsDir, modelId)) == Success(JObj(entry))
      && "id" in entry && entry["id"] == JStr(modelId) && "checkpoint" in entry && entry["checkpoint"] == JStr(ckpt)
      && "train_seed" in entry && entry["train_seed"] == JInt(seed)
  {
    var e := Predictor(fam, payload, seed, now);
    var nnId := Get(payload, "nn_id", JNull);
    var modelId := PredictorId(nnId, seed);
    PredictorParts(fam, payload, seed, now);
    ReplayAt(t, enc, e.writes, EntryPath(ModelsDir, modelId));
    PredictorEntryFields(modelId, nnId, EntryPath(PredictorCkptDir, modelId), Window(fam), seed, now);
  }

  /** Training the lexicon leaves the index and the bubble model loadable at the paths its output names. */
  lemma LexiconWrites(t: Tree, enc: Encoder, files: Lines, seed: int, bubbleCorpus: string)
    ensures var e := Lexicon(files, seed, bubbleCorpus);
      LoadJson(Replay(t, enc, e.writes), IndexPath) == Success(IndexDoc(IndexOf(files, |IndexFiles|)))
      && LoadJson(Replay(t, enc, e.writes), Bubble.BubbleModelPath) == Success(Bubble.ModelDoc(bubbleCorpus, seed))
  {
    var e := Lexicon(files, seed, bubbleCorpus);
    assert IndexPath != Bubble.BubbleModelPath by {
      assert IndexPath[|IndexPath| - 1] != Bubble.BubbleModelPath[|Bubble.BubbleModelPath| - 1];
    }
    ReplayAt(t, enc, e.writes, IndexPath);
    ReplayAt(t, enc, e.writes, Bubble.BubbleModelPath);
  }
}
