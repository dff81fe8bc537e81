/**
 * The `train_dpo` job: a toy preference-optimisation run. Preference pairs
 * (prompt, chosen, rejected) are collected from the uploaded and synthetic
 * dialog files, or failing those from the WordNet lemmas; a lexical scorer
 * gives each answer the number of distinct words it shares a bag with, and
 * "training" appends " therefore" to every chosen answer of the first 200
 * pairs, which can only widen the margin.
 */
module TrainDpo {
  import opened Wrappers
  import opened Text
  import opened Json
  import opened Fs
  import TrainSft

  // ---------------------------------------------------------------- pairs

  /** `_collect_pairs()` is called with its default `max_items`. */
  const MaxItems: nat := 500

  /** A preference pair: the answer to prefer and the one to reject. */
  datatype Pair = Pair(prompt: string, chosen: string, rejected: string)

  /** `str(obj.get('prompt') or obj.get('text') or '')`. */
  function PromptOf(o: map<string, Json>): string {
    Show(Or(Or(Get(o, "prompt", JNull), Get(o, "text", JNull)), JStr("")))
  }

  /** `(obj.get('response') or '').strip()`; a truthy response that is not a string has no `strip` and raises. */
  function ResponseOf(o: map<string, Json>): Result<string> {
    var r := Or(Get(o, "response", JNull), JStr(""));
    if r.JStr? then Success(Strip(r.s)) else Failure("'" + TypeName(r) + "' object has no attribute 'strip'")
  }

  /** The chosen answer before the anti-echo prefix: the response, else a definition-like phrase. */
  function Draft(prompt: string, response: string): string {
    if response != "" then response else prompt + " is defined."
  }

  /**
   * The pair one decoded line yields; None when the prompt is empty. The
   * response is read before the prompt is tested, so a bad response raises
   * even on a line that would be skipped.
   */
  function PairOf(obj: Json): Result<Option<Pair>> {
    if !obj.JObj? then Failure(NoGet(TypeName(obj)))
    else
      var prompt := PromptOf(obj.fields);
      var response :- ResponseOf(obj.fields);
      var chosen := Draft(prompt, response);
      var rejected := Strip(prompt);
      if prompt == "" then Success(None)
      else Success(Some(Pair(prompt, if chosen == rejected then "Answer: " + chosen else chosen, rejected)))
  }

  /**
   * A line with an empty prompt is skipped; otherwise the rejected answer is
   * the stripped prompt, the chosen one is the stripped response or the
   * prompt followed by " is defined.", prefixed with "Answer: " exactly when
   * it would equal the rejected one, so the two never coincide.
   */
  lemma PairOfShape(obj: Json)
    ensures PairOf(obj).Failure? <==> !obj.JObj? || ResponseOf(obj.fields).Failure?
    ensures PairOf(obj).Success? ==> (PairOf(obj).value.None? <==> PromptOf(obj.fields) == "")
    ensures PairOf(obj).Success? && PairOf(obj).value.Some? ==>
      var x := PairOf(obj).value.value;
      var draft := Draft(x.prompt, ResponseOf(obj.fields).value);
      x.prompt == PromptOf(obj.fields) && x.prompt != ""
      && x.rejected == Strip(x.prompt)
      && (draft != x.rejected ==> x.chosen == draft)
      && (draft == x.rejected ==> x.chosen == "Answer: " + draft)
      && x.chosen != x.rejected
  {
    if obj.JObj? && ResponseOf(obj.fields).Success? && PromptOf(obj.fields) != "" {
      var x := PairOf(obj).value.value;
      var draft := Draft(x.prompt, ResponseOf(obj.fields).value);
      if draft == x.rejected {
        assert |x.chosen| > |x.rejected|;
      }
    }
  }

  /**
   * The line loop of one file: each line's pair is appended until `max`
   * pairs are held; a line that raises ends the whole collection.
   */
  function PairLines(pairs: seq<Pair>, lines: seq<DataLine>, max: nat): Result<seq<Pair>>
    decreases |lines|
  {
    if |lines| == 0 || |pairs| >= max then Success(pairs)
    else
      var p :- PairOf(LineDoc(lines[0]));
      PairLines(if p.Some? then pairs + [p.value] else pairs, lines[1..], max)
  }

  /** The file loop: the files in order, stopping once `max` pairs are held. */
  function PairSources(pairs: seq<Pair>, sources: seq<Source>, max: nat): Result<seq<Pair>>
    decreases |sources|
  {
    if |sources| == 0 || |pairs| >= max then Success(pairs)
    else
      var next :- PairLines(pairs, sources[0].lines, max);
      PairSources(next, sources[1..], max)
  }

  /** One line read: the pair it yields, if any, appended. */
  lemma PairLinesNext(pairs: seq<Pair>, lines: seq<DataLine>, max: nat)
    requires |lines| > 0 && |pairs| < max && PairOf(LineDoc(lines[0])).Success?
    ensures var p := PairOf(LineDoc(lines[0])).value;
      var next := if p.Some? then pairs + [p.value] else pairs;
      pairs <= next && |next| <= |pairs| + 1 && PairLines(pairs, lines, max) == PairLines(next, lines[1..], max)
  {
  }

  /** Reading lines keeps the pairs held so far as a prefix and never goes past `max`. */
  lemma {:induction false} PairLinesGrow(pairs: seq<Pair>, lines: seq<DataLine>, max: nat)
    requires |pairs| <= max
    ensures var r := PairLines(pairs, lines, max);
      r.Success? ==> pairs <= r.value && |r.value| <= max
    decreases |lines|
  {
    if |lines| > 0 && |pairs| < max && PairOf(LineDoc(lines[0])).Success? {
      PairLinesNext(pairs, lines, max);
      var p := PairOf(LineDoc(lines[0])).value;
      PairLinesGrow(if p.Some? then pairs + [p.value] else pairs, lines[1..], max);
    }
  }

  /** The same across files. */
  lemma {:induction false} PairSourcesGrow(pairs: seq<Pair>, sources: seq<Source>, max: nat)
    requires |pairs| <= max
    ensures var r := PairSources(pairs, sources, max);
      r.Success? ==> pairs <= r.value && |r.value| <= max
    decreases |sources|
  {
    if |sources| > 0 && |pairs| < max {
      PairLinesGrow(pairs, sources[0].lines, max);
      var mid := PairLines(pairs, sources[0].lines, max);
      if mid.Success? {
        PairSourcesGrow(mid.value, sources[1..], max);
      }
    }
  }

  /** The fallback pair of a lemma. */
  function LemmaPair(word: string): Pair { Pair("define " + word, word + " is a term.", word) }

  /** The fallback's loop over index lines: a pair for each line with a truthy lemma. */
  function LemmaPairs(pairs: seq<Pair>, items: seq<Json>): Result<seq<Pair>>
    decreases |items|
  {
    if |items| == 0 then Success(pairs)
    else if !items[0].JObj? then Failure(NoGet(TypeName(items[0])))
    else
      var word := Show(Or(Get(items[0].fields, "lemma", JNull), JStr("")));
      LemmaPairs(if word != "" then pairs + [LemmaPair(word)] else pairs, items[1..])
  }

  /** Every fallback pair is built from a non-empty lemma, at most one per index line. */
  lemma {:induction false} LemmaPairsShape(pairs: seq<Pair>, items: seq<Json>)
    ensures var r := LemmaPairs(pairs, items);
      r.Success? ==>
        |pairs| <= |r.value| <= |pairs| + |items| && r.value[..|pairs|] == pairs
        && forall i :: |pairs| <= i < |r.value| ==>
             exists word :: word != "" && r.value[i] == LemmaPair(word)
    decreases |items|
  {
    if |items| > 0 && items[0].JObj? {
      var word := Show(Or(Get(items[0].fields, "lemma", JNull), JStr("")));
      var next := if word != "" then pairs + [LemmaPair(word)] else pairs;
      LemmaPairsShape(next, items[1..]);
      var r := LemmaPairs(next, items[1..]);
      if r.Success? {
        assert r.value[..|pairs|] == r.value[..|next|][..|pairs|];
        if word != "" {
          assert r.value[|pairs|] == next[|pairs|] == LemmaPair(word);
        }
      }
    }
  }

  /** The pairs of the dialog files: the uploads, then the synthetic files. */
  function DialogPairs(uploads: seq<Source>, synths: seq<Source>): Result<seq<Pair>> {
    PairSources([], uploads + synths, MaxItems)
  }

  /**
   * `_collect_pairs()`: the pairs of the dialog files, or, only when there
   * are none, the pairs of the first 500 lines of the lemma index.
   */
  function CollectedPairs(t: Tree, uploads: seq<Source>, synths: seq<Source>): Result<seq<Pair>> {
    var pairs :- DialogPairs(uploads, synths);
    if |pairs| > 0 then Success(pairs)
    else
      var items :- TrainSft.FallbackItems(t);
      LemmaPairs([], Take(items, MaxItems))
  }

  /**
   * At most 500 pairs are collected, and the lemma fallback is consulted
   * only when the dialog files yield no pair at all.
   */
  lemma CollectedPairsShape(t: Tree, uploads: seq<Source>, synths: seq<Source>)
    ensures var r := CollectedPairs(t, uploads, synths);
      r.Success? ==> |r.value| <= MaxItems
    ensures var d := DialogPairs(uploads, synths);
      d.Success? && |d.value| > 0 ==> CollectedPairs(t, uploads, synths) == d
    ensures var d := DialogPairs(uploads, synths);
      d.Success? && |d.value| == 0 && !Exists(t, IndexPath) ==> CollectedPairs(t, uploads, synths) == Success([])
    ensures var r := CollectedPairs(t, uploads, synths);
      var d := DialogPairs(uploads, synths);
      r.Success? && d.Success? && |d.value| == 0 ==>
        forall i :: 0 <= i < |r.value| ==> exists word :: word != "" && r.value[i] == LemmaPair(word)
  {
    PairSourcesGrow([], uploads + synths, MaxItems);
    var d := DialogPairs(uploads, synths);
    if d.Success? && |d.value| == 0 {
      var items := TrainSft.FallbackItems(t);
      if items.Success? {
        LemmaPairsShape([], Take(items.value, MaxItems));
      }
    }
  }

  /** The line loop of one file. */
  method ReadPairs(pairs0: seq<Pair>, lines: seq<DataLine>, max: nat) returns (r: Result<seq<Pair>>)
    ensures r == PairLines(pairs0, lines, max)
  {
    var pairs := pairs0;
    var i := 0;
    while i < |lines|
      invariant 0 <= i <= |lines|
      invariant PairLines(pairs, lines[i..], max) == PairLines(pairs0, lines, max)
    {
      if |pairs| >= max {
        break;
      }
      var p := PairOf(LineDoc(lines[i]));
      if p.Failure? {
        return Failure(p.error);
      }
      assert lines[i..][1..] == lines[i + 1..];
      if p.value.Some? {
        pairs := pairs + [p.value.value];
      }
      i := i + 1;
    }
    r := Success(pairs);
  }

  /** The fallback's index loop over the first `MaxItems` lines. */
  method ScanLemmaPairs(items: seq<Json>) returns (r: Result<seq<Pair>>)
    ensures r == LemmaPairs([], Take(items, MaxItems))
  {
    var pairs := [];
    var k := 0;
    while k < |items|
      invariant 0 <= k <= |items| && k <= MaxItems
      invariant LemmaPairs(pairs, Take(items, MaxItems)[k..]) == LemmaPairs([], Take(items, MaxItems))
    {
      if k >= MaxItems {
        break;
      }
      var obj := items[k];
      assert Take(items, MaxItems)[k..][0] == obj;
      if !obj.JObj? {
        return Failure(NoGet(TypeName(obj)));
      }
      assert Take(items, MaxItems)[k..][1..] == Take(items, MaxItems)[k + 1..];
      var word := Show(Or(Get(obj.fields, "lemma", JNull), JStr("")));
      if word != "" {
        pairs := pairs + [LemmaPair(word)];
      }
      k := k + 1;
    }
    assert Take(items, MaxItems)[k..] == [];
    r := Success(pairs);
  }

  /** The file loop over the dialog files. */
  method ReadDialogs(sources: seq<Source>) returns (r: Result<seq<Pair>>)
    ensures r == PairSources([], sources, MaxItems)
  {
    var pairs := [];
    var i := 0;
    while i < |sources|
      invariant 0 <= i <= |sources|
      invariant PairSources(pairs, sources[i..], MaxItems) == PairSources([], sources, MaxItems)
    {
      if |pairs| >= MaxItems {
        break;
      }
      assert sources[i..][1..] == sources[i + 1..];
      var next := ReadPairs(pairs, sources[i].lines, MaxItems);
      if next.Failure? {
        return Failure(next.error);
      }
      pairs := next.value;
      i := i + 1;
    }
    r := Success(pairs);
  }

  /** `_collect_pairs()`: the file loop, then the fallback. */
  method CollectPairs(t: Tree, uploads: seq<Source>, synths: seq<Source>) returns (r: Result<seq<Pair>>)
    ensures r == CollectedPairs(t, uploads, synths)
  {
    var pairs := ReadDialogs(uploads + synths);
    if pairs.Failure? || |pairs.value| > 0 {
      return pairs;
    }
    var items := TrainSft.FallbackItems(t);
    if items.Failure? {
      return Failure(items.error);
    }
    r := ScanLemmaPairs(items.value);
  }

  // ---------------------------------------------------------------- scoring

  /** `score(p, a)`: the number of distinct lower-cased alphabetic words of `p + " " + a`. */
  function Score(p: string, a: string): nat { |LowerWords(p + " " + a)| }

  /** The word "training" appends to every chosen answer. */
  const Suffix: string := " therefore"

  /**
   * Appending " therefore" to an answer adds the one word "therefore" to
   * its bag: the score grows by one, or stays when the word was there.
   */
  lemma ScoreSuffix(p: string, a: string)
    ensures Score(p, a + Suffix) == Score(p, a) + (if "therefore" in LowerWords(p + " " + a) then 0 else 1)
  {
    var x := p + " " + a;
    assert p + " " + (a + Suffix) == x + " " + "therefore";
    LowerWordsAppend(x, "therefore");
    var s := LowerWords(x);
    if "therefore" in s {
      assert s + {"therefore"} == s;
    } else {
      assert |s + {"therefore"}| == |s| + 1;
    }
  }

  /** `score(p, c) - score(p, r)`. */
  function Margin(x: Pair): int { Score(x.prompt, x.chosen) - Score(x.prompt, x.rejected) }

  /** The pair with " therefore" appended to its chosen answer. */
  function Improve(x: Pair): Pair { Pair(x.prompt, x.chosen + Suffix, x.rejected) }

  /** Whether improving the pair widens its margin: its chosen text lacks "therefore". */
  predicate Widens(x: Pair) { "therefore" !in LowerWords(x.prompt + " " + x.chosen) }

  /** Improving a pair widens its margin by one exactly when it lacks "therefore", and never narrows it. */
  lemma ImproveMargin(x: Pair)
    ensures Margin(Improve(x)) == Margin(x) + (if Widens(x) then 1 else 0)
    ensures Margin(Improve(x)) >= Margin(x)
  {
    ScoreSuffix(x.prompt, x.chosen);
  }

  /** `sum(margins)` over a list of pairs. */
  function MarginSum(ps: seq<Pair>): int
    decreases |ps|
  {
    if |ps| == 0 then 0 else MarginSum(ps[..|ps| - 1]) + Margin(ps[|ps| - 1])
  }

  /** How many of the pairs lack "therefore" in their chosen text. */
  function WideningCount(ps: seq<Pair>): nat
    decreases |ps|
  {
    if |ps| == 0 then 0 else WideningCount(ps[..|ps| - 1]) + (if Widens(ps[|ps| - 1]) then 1 else 0)
  }

  /** The improved pairs, in order. */
  function Improved(ps: seq<Pair>): (r: seq<Pair>)
    ensures |r| == |ps|
  {
    seq(|ps|, i requires 0 <= i < |ps| => Improve(ps[i]))
  }

  /** The improved margins sum to the base margins plus one per pair that lacks "therefore". */
  lemma {:induction false} ImprovedSum(ps: seq<Pair>)
    ensures MarginSum(Improved(ps)) == MarginSum(ps) + WideningCount(ps)
    decreases |ps|
  {
    if |ps| > 0 {
      var n := |ps| - 1;
      ImprovedSum(ps[..n]);
      assert Improved(ps)[..n] == Improved(ps[..n]);
      assert Improved(ps)[n] == Improve(ps[n]);
      ImproveMargin(ps[n]);
    }
  }

  /** The pairs the margins are taken over. */
  const MarginPairs: nat := 200

  /** `sum(margins) / max(1, len(margins))`. */
  function Mean(sum: int, n: nat): real {
    (sum as real) / ((if n > 1 then n else 1) as real)
  }

  /** The margin before training. */
  function BaseMargin(pairs: seq<Pair>): real {
    var ps := Take(pairs, MarginPairs);
    Mean(MarginSum(ps), |ps|)
  }

  /** The margin after training, over the improved first 200 pairs. */
  function TrainedMargin(pairs: seq<Pair>): real {
    var ps := Take(pairs, MarginPairs);
    Mean(MarginSum(Improved(ps)), |ps|)
  }

  /**
   * Training never lowers the margin: it rises by the share of the first
   * 200 pairs whose chosen text lacks "therefore", so the run reports an
   * improvement exactly when one such pair exists.
   */
  lemma TrainedMarginGain(pairs: seq<Pair>)
    ensures var ps := Take(pairs, MarginPairs);
      TrainedMargin(pairs) == BaseMargin(pairs) + Mean(WideningCount(ps), |ps|)
    ensures TrainedMargin(pairs) >= BaseMargin(pairs)
    ensures TrainedMargin(pairs) > BaseMargin(pairs) <==> WideningCount(Take(pairs, MarginPairs)) > 0
  {
    var ps := Take(pairs, MarginPairs);
    ImprovedSum(ps);
    MeanAdd(MarginSum(Improved(ps)), MarginSum(ps), WideningCount(ps), |ps|);
  }

  /** The mean is linear in the sum, and the mean of a count is positive exactly when the count is. */
  lemma MeanAdd(s: int, a: int, b: nat, n: nat)
    requires s == a + b
    ensures Mean(s, n) == Mean(a, n) + Mean(b, n)
    ensures Mean(b, n) >= 0.0
    ensures Mean(b, n) > 0.0 <==> b > 0
  {
    var d: real := (if n > 1 then n else 1) as real;
    assert d >= 1.0;
    assert (s as real) / d == (a as real) / d + (b as real) / d;
  }

  /** The loop that builds `improved_pairs` from the first 200 pairs. */
  method ImprovePairs(pairs: seq<Pair>) returns (improved: seq<Pair>)
    ensures improved == Improved(Take(pairs, MarginPairs))
  {
    var ps := Take(pairs, MarginPairs);
    improved := [];
    var i := 0;
    while i < |ps|
      invariant 0 <= i <= |ps|
      invariant improved == Improved(ps[..i])
    {
      assert Improved(ps[..i + 1]) == Improved(ps[..i]) + [Improve(ps[i])];
      improved := improved + [Improve(ps[i])];
      i := i + 1;
    }
    assert ps[..i] == ps;
  }

  // ---------------------------------------------------------------- the run

  function RunDir(seed: int): string { Child(Child(ArtifactsDir, "chat"), "dpo_" + IntToString(seed)) }
  function CkptPath(seed: int): string { Child(RunDir(seed), "ckpt_dpo_" + IntToString(seed) + ".json") }
  function DpoMetricsPath(seed: int): string { Child(RunDir(seed), "metrics.json") }
  function RunInfoPath(seed: int): string { Child(RunDir(seed), "run.json") }

  /** The checkpoint: the seed and the suffix. */
  function CkptDoc(seed: int): Json { JObj(map["seed" := JInt(seed), "suffix" := JStr(Suffix)]) }

  /** `metrics.json`. */
  function DpoMetrics(seed: int, base: real, trained: real): map<string, Json> {
    map["job" := JStr("train_dpo"), "seed" := JInt(seed), "base_margin" := JNum(base),
        "trained_margin" := JNum(trained), "improved" := JBool(trained > base)]
  }

  /** `run.json`; the dataset hash is always empty. */
  function RunInfo(seed: int, now: string, codeHash: string): map<string, Json> {
    map["job" := JStr("train_dpo"), "seed" := JInt(seed), "created_at" := JStr(now),
        "code_hash" := JStr(codeHash), "dataset_hash" := JStr(""),
        "artifacts" := JObj(map["ckpt" := JStr(CkptPath(seed)), "metrics" := JStr(DpoMetricsPath(seed))])]
  }

  /** The three documents of a run over `pairs` and what it returns. */
  function DpoEffect(pairs: seq<Pair>, seed: int, codeHash: string, now: string): Effect {
    var metrics := DpoMetrics(seed, BaseMargin(pairs), TrainedMargin(pairs));
    var info := RunInfo(seed, now, codeHash);
    Effect(
      map["status" := JStr("ok"), "run_dir" := JStr(RunDir(seed)), "metrics" := JObj(metrics), "run" := JObj(info)],
      [(CkptPath(seed), CkptDoc(seed)), (DpoMetricsPath(seed), JObj(metrics)), (RunInfoPath(seed), JObj(info))])
  }

  /**
   * `run(payload)`: what it returns and the three documents it writes, or
   * the error it raises before writing anything. `steps` is parsed, so a
   * bad value raises, but it is not otherwise used.
   */
  function DpoPlan(t: Tree, payload: map<string, Json>, uploads: seq<Source>, synths: seq<Source>,
                   codeHash: string, now: string): Result<Effect>
  {
    var seed :- IntArg(payload, "seed", 1337);
    var steps :- IntArg(payload, "steps", 5);
    var pairs :- CollectedPairs(t, uploads, synths);
    Success(DpoEffect(pairs, seed, codeHash, now))
  }

  /** A run fails exactly when an argument is not an integer or the pairs cannot be collected. */
  lemma DpoPlanOutcome(t: Tree, payload: map<string, Json>, uploads: seq<Source>, synths: seq<Source>,
                       codeHash: string, now: string)
    ensures var plan := DpoPlan(t, payload, uploads, synths, codeHash, now);
      (plan.Success? <==> IntArg(payload, "seed", 1337).Success? && IntArg(payload, "steps", 5).Success?
                          && CollectedPairs(t, uploads, synths).Success?)
      && (plan.Success? ==>
            plan.value == DpoEffect(CollectedPairs(t, uploads, synths).value, IntArg(payload, "seed", 1337).value,
                                    codeHash, now))
  {
  }

  /**
   * A run writes its checkpoint, metrics and run record into `dpo_{seed}`,
   * in that order, and returns with status "ok" the metrics it wrote, taken
   * over the margins before and after training.
   */
  lemma DpoEffectShape(pairs: seq<Pair>, seed: int, codeHash: string, now: string)
    ensures var e := DpoEffect(pairs, seed, codeHash, now);
      |e.writes| == 3
      && e.writes[0].0 == CkptPath(seed) && e.writes[1].0 == DpoMetricsPath(seed) && e.writes[2].0 == RunInfoPath(seed)
      && "status" in e.out && e.out["status"] == JStr("ok")
      && "metrics" in e.out && e.writes[1].1 == e.out["metrics"]
      && e.out["metrics"] == JObj(DpoMetrics(seed, BaseMargin(pairs), TrainedMargin(pairs)))
  {
  }

  /** The metrics record both margins and say "improved" exactly when the trained one is higher. */
  lemma DpoMetricsShape(seed: int, base: real, trained: real)
    ensures var m := DpoMetrics(seed, base, trained);
      "base_margin" in m && m["base_margin"] == JNum(base)
      && "trained_margin" in m && m["trained_margin"] == JNum(trained)
      && "improved" in m && (m["improved"] == JBool(true) <==> trained > base)
  {
  }

  /**
   * So a run reports an improvement exactly when one of the first 200 pairs
   * has a chosen text without the word "therefore".
   */
  lemma DpoImproved(pairs: seq<Pair>, seed: int, codeHash: string, now: string)
    ensures var m := DpoMetrics(seed, BaseMargin(pairs), TrainedMargin(pairs));
      "improved" in m && (m["improved"] == JBool(true) <==> WideningCount(Take(pairs, MarginPairs)) > 0)
  {
    DpoMetricsShape(seed, BaseMargin(pairs), TrainedMargin(pairs));
    TrainedMarginGain(pairs);
  }

  /** `base_margin` and `trained_margin`, the latter over the improved pairs. */
  method Margins(pairs: seq<Pair>) returns (base: real, trained: real)
    ensures base == BaseMargin(pairs) && trained == TrainedMargin(pairs)
    ensures trained >= base
  {
    var improved := ImprovePairs(pairs);
    base := BaseMargin(pairs);
    trained := Mean(MarginSum(improved), |Take(pairs, MarginPairs)|);
    TrainedMarginGain(pairs);
  }

  /** The checkpoint, metrics and run record of a run over `pairs`. */
  method DpoWrites(store: Store, pairs: seq<Pair>, seed: int, codeHash: string, now: string)
    returns (out: map<string, Json>)
    modifies store
    ensures var e := DpoEffect(pairs, seed, codeHash, now);
      out == e.out && store.writes == old(store.writes) + e.writes
      && store.tree == Replay(old(store.tree), store.enc, e.writes)
  {
    ghost var t0 := store.tree;
    var base, trained := Margins(pairs);
    var metrics := DpoMetrics(seed, base, trained);
    var info := RunInfo(seed, now, codeHash);
    store.WriteJson(CkptPath(seed), CkptDoc(seed));
    store.WriteJson(DpoMetricsPath(seed), JObj(metrics));
    store.WriteJson(RunInfoPath(seed), JObj(info));
    ReplayThree(t0, store.enc, CkptPath(seed), CkptDoc(seed), DpoMetricsPath(seed), JObj(metrics),
                RunInfoPath(seed), JObj(info));
    out := map["status" := JStr("ok"), "run_dir" := JStr(RunDir(seed)), "metrics" := JObj(metrics), "run" := JObj(info)];
  }

  /** `run(payload)` of the DPO job. */
  method Run(store: Store, payload: map<string, Json>, uploads: seq<Source>, synths: seq<Source>,
             codeHash: string, now: string)
    returns (r: Result<map<string, Json>>)
    modifies store
    ensures var plan := DpoPlan(old(store.tree), payload, uploads, synths, codeHash, now);
      match plan
      case Failure(e) => r == Failure(e) && store.tree == old(store.tree) && store.writes == old(store.writes)
      case Success(eff) =>
        r == Success(eff.out) && store.writes == old(store.writes) + eff.writes
        && store.tree == Replay(old(store.tree), store.enc, eff.writes)
  {
    var seed := IntArg(payload, "seed", 1337);
    if seed.Failure? {
      return Failure(seed.error);
    }
    var steps := IntArg(payload, "steps", 5);
    if steps.Failure? {
      return Failure(steps.error);
    }
    var pairs := CollectPairs(store.tree, uploads, synths);
    if pairs.Failure? {
      return Failure(pairs.error);
    }
    var out := DpoWrites(store, pairs.value, seed.value, codeHash, now);
    r := Success(out);
  }
}
