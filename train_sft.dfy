/**
 * The `train_sft` job: a character n-gram model "fine-tuned" on the local
 * chat datasets. The corpus is collected from the uploaded and synthetic
 * dialog files (or, failing those, the WordNet lemmas), counted, and the
 * counts reinforced at sampled positions for a few steps.
 */
module TrainSft {
  import opened Wrappers
  import opened Text
  import opened Json
  import opened Fs
  import opened Counting
  import Bubble

  // ---------------------------------------------------------------- the corpus

  /** `_collect_corpus()` is called with its default `max_items`. */
  const MaxItems: nat := 2000

  /** `obj.get('response') or obj.get('text') or obj.get('prompt') or ''`. */
  function Pick(o: map<string, Json>): Json {
    Or(Or(Or(Get(o, "response", JNull), Get(o, "text", JNull)), Get(o, "prompt", JNull)), JStr(""))
  }

  /** The response is preferred to the text, and the text to the prompt; with none of them the line adds nothing. */
  lemma PickPrecedence(o: map<string, Json>)
    ensures Truthy(Get(o, "response", JNull)) ==> Pick(o) == o["response"]
    ensures !Truthy(Get(o, "response", JNull)) && Truthy(Get(o, "text", JNull)) ==> Pick(o) == o["text"]
    ensures !Truthy(Get(o, "response", JNull)) && !Truthy(Get(o, "text", JNull)) && Truthy(Get(o, "prompt", JNull))
            ==> Pick(o) == o["prompt"]
    ensures !Truthy(Get(o, "response", JNull)) && !Truthy(Get(o, "text", JNull)) && !Truthy(Get(o, "prompt", JNull))
            ==> Show(Pick(o)) == ""
  {
  }

  /** The text collected so far and the number of lines it holds. */
  datatype Acc = Acc(corpus: string, count: nat)

  /**
   * The line loop of one file: each line whose pick is non-empty adds it
   * and a newline, until `max` lines are held; a line that decodes to
   * something other than an object raises, which abandons the rest of the
   * file.
   */
  function ReadLines(acc: Acc, lines: seq<DataLine>, max: nat): (r: Acc)
    decreases |lines|
  {
    if |lines| == 0 || acc.count >= max then acc
    else
      var obj := LineDoc(lines[0]);
      if !obj.JObj? then acc
      else
        var txt := Show(Pick(obj.fields));
        if txt == "" then ReadLines(acc, lines[1..], max)
        else ReadLines(Acc(acc.corpus + txt + "\n", acc.count + 1), lines[1..], max)
  }

  /** The file loop: the files in order, stopping once `max` lines are held. */
  function ReadSources(acc: Acc, sources: seq<Source>, max: nat): Acc
    decreases |sources|
  {
    if |sources| == 0 || acc.count >= max then acc
    else ReadSources(ReadLines(acc, sources[0].lines, max), sources[1..], max)
  }

  /** The uploaded files, then the synthetic dialog files, each list sorted by name. */
  function CorpusSources(uploads: seq<Source>, synths: seq<Source>): seq<Source> { uploads + synths }

  /**
   * Reading only grows the corpus: the old text stays its prefix, the count
   * grows by at most one per line and never past `max`, and each added
   * line ends in a newline.
   */
  lemma {:induction false} ReadLinesGrows(acc: Acc, lines: seq<DataLine>, max: nat)
    requires acc.count <= max
    ensures var r := ReadLines(acc, lines, max);
      acc.count <= r.count <= max && r.count <= acc.count + |lines|
      && HasPrefix(r.corpus, acc.corpus)
      && (r.count == acc.count <==> r.corpus == acc.corpus)
      && (r.count > acc.count ==> r.corpus[|r.corpus| - 1] == '\n')
    decreases |lines|
  {
    if |lines| > 0 && acc.count < max {
      var obj := LineDoc(lines[0]);
      if obj.JObj? {
        var txt := Show(Pick(obj.fields));
        if txt == "" {
          assert ReadLines(acc, lines, max) == ReadLines(acc, lines[1..], max);
          ReadLinesGrows(acc, lines[1..], max);
        } else {
          var next := Acc(acc.corpus + txt + "\n", acc.count + 1);
          assert ReadLines(acc, lines, max) == ReadLines(next, lines[1..], max);
          ReadLinesGrows(next, lines[1..], max);
          var r := ReadLines(next, lines[1..], max);
          assert HasPrefix(next.corpus, acc.corpus) by {
            assert next.corpus[..|acc.corpus|] == acc.corpus;
          }
          PrefixTrans(acc.corpus, next.corpus, r.corpus);
          assert |next.corpus| > |acc.corpus|;
          if r.count == next.count {
            assert r.corpus[|r.corpus| - 1] == '\n';
          }
        }
      }
    }
  }

  lemma PrefixTrans(a: string, b: string, c: string)
    requires HasPrefix(b, a) && HasPrefix(c, b)
    ensures HasPrefix(c, a) && |a| <= |c|
  {
    assert c[..|a|] == c[..|b|][..|a|];
  }

  /** The same across files. */
  lemma {:induction false} ReadSourcesGrows(acc: Acc, sources: seq<Source>, max: nat)
    requires acc.count <= max
    ensures var r := ReadSources(acc, sources, max);
      acc.count <= r.count <= max && HasPrefix(r.corpus, acc.corpus)
      && (r.count == acc.count <==> r.corpus == acc.corpus)
    decreases |sources|
  {
    if |sources| > 0 && acc.count < max {
      var mid := ReadLines(acc, sources[0].lines, max);
      ReadLinesGrows(acc, sources[0].lines, max);
      ReadSourcesGrows(mid, sources[1..], max);
      PrefixTrans(acc.corpus, mid.corpus, ReadSources(mid, sources[1..], max).corpus);
    }
  }

  /**
   * The uploads are read before the synthetic dialogs: the collection over
   * both is the collection over the synthetic files continued from the one
   * over the uploads.
   */
  lemma {:induction false} UploadsFirst(acc: Acc, uploads: seq<Source>, synths: seq<Source>, max: nat)
    ensures ReadSources(acc, CorpusSources(uploads, synths), max)
            == ReadSources(ReadSources(acc, uploads, max), synths, max)
    decreases |uploads|
  {
    if |uploads| == 0 {
      assert CorpusSources(uploads, synths) == synths;
    } else if acc.count >= max {
      SaturatedStays(acc, synths, max);
    } else {
      assert CorpusSources(uploads, synths)[1..] == CorpusSources(uploads[1..], synths);
      UploadsFirst(ReadLines(acc, uploads[0].lines, max), uploads[1..], synths, max);
    }
  }

  /** Once `max` lines are held nothing more is read. */
  lemma SaturatedStays(acc: Acc, sources: seq<Source>, max: nat)
    requires acc.count >= max
    ensures ReadSources(acc, sources, max) == acc
  {
  }

  /** The lemma loop of the fallback: `lemma + ' '` for each of the first `max` index lines with a truthy lemma. */
  datatype Scan = Scanned(text: string) | NotObject(item: Json)

  function Lemmas(acc: string, k: nat, items: seq<Json>, max: nat): (r: Scan)
    decreases |items|
  {
    if |items| == 0 || k >= max then Scanned(acc)
    else if !items[0].JObj? then NotObject(items[0])
    else
      var word := Show(Or(Get(items[0].fields, "lemma", JNull), JStr("")));
      if word == "" then Lemmas(acc, k, items[1..], max)
      else Lemmas(acc + word + " ", k + 1, items[1..], max)
  }

  /** The fallback text is a run of non-empty words each followed by one space. */
  lemma {:induction false} LemmasShape(acc: string, k: nat, items: seq<Json>, max: nat)
    requires acc == "" || acc[|acc| - 1] == ' '
    ensures Lemmas(acc, k, items, max).Scanned? ==>
      var text := Lemmas(acc, k, items, max).text;
      HasPrefix(text, acc) && (text == "" || text[|text| - 1] == ' ')
    decreases |items|
  {
    if |items| > 0 && k < max && items[0].JObj? {
      var word := Show(Or(Get(items[0].fields, "lemma", JNull), JStr("")));
      if word == "" {
        LemmasShape(acc, k, items[1..], max);
      } else {
        var next := acc + word + " ";
        LemmasShape(next, k + 1, items[1..], max);
        if Lemmas(next, k + 1, items[1..], max).Scanned? {
          assert HasPrefix(next, acc) by {
            assert next[..|acc|] == acc;
          }
          PrefixTrans(acc, next, Lemmas(next, k + 1, items[1..], max).text);
        }
      }
    }
  }

  /** The decoded index lines when the index exists; a directory at its path raises. */
  function FallbackItems(t: Tree): Result<seq<Json>> {
    if !Exists(t, IndexPath) then Success([])
    else if !IsFile(t, IndexPath) then Failure(IsADirectory(IndexPath))
    else Success(IndexItems(t))
  }

  /** `AttributeError` of `obj.get` on an index line that is not an object. */

  /**
   * `_collect_corpus()`: the collected dialog text, or, only when that is
   * empty, the WordNet lemmas.
   */
  function Corpus(t: Tree, uploads: seq<Source>, synths: seq<Source>): (r: Result<string>)
    ensures ReadSources(Acc("", 0), CorpusSources(uploads, synths), MaxItems).corpus != "" ==>
      r == Success(ReadSources(Acc("", 0), CorpusSources(uploads, synths), MaxItems).corpus)
  {
    var collected := ReadSources(Acc("", 0), CorpusSources(uploads, synths), MaxItems).corpus;
    if collected != "" then Success(collected)
    else
      var items :- FallbackItems(t);
      match Lemmas("", 0, items, MaxItems)
      case Scanned(text) => Success(text)
      case NotObject(j) => Failure(NoGet(TypeName(j)))
  }

  /** The collected corpus holds at most 2000 lines, and the lemma fallback is only consulted when it is empty. */
  lemma CorpusShape(t: Tree, uploads: seq<Source>, synths: seq<Source>)
    ensures var acc := ReadSources(Acc("", 0), CorpusSources(uploads, synths), MaxItems);
      acc.count <= MaxItems
      && (acc.corpus == "" <==> acc.count == 0)
      && (acc.corpus != "" ==> Corpus(t, uploads, synths) == Success(acc.corpus))
      && (acc.corpus == "" && !Exists(t, IndexPath) ==> Corpus(t, uploads, synths) == Success(""))
  {
    ReadSourcesGrows(Acc("", 0), CorpusSources(uploads, synths), MaxItems);
  }

  /** The line loop of one file. */
  method ReadFile(acc0: Acc, lines: seq<DataLine>, max: nat) returns (acc: Acc)
    ensures acc == ReadLines(acc0, lines, max)
  {
    acc := acc0;
    var i := 0;
    while i < |lines|
      invariant 0 <= i <= |lines|
      invariant ReadLines(acc, lines[i..], max) == ReadLines(acc0, lines, max)
    {
      if acc.count >= max {
        break;
      }
      var obj := LineDoc(lines[i]);
      if !obj.JObj? {
        return;
      }
      var txt := Show(Pick(obj.fields));
      assert lines[i..][1..] == lines[i + 1..];
      if txt != "" {
        acc := Acc(acc.corpus + txt + "\n", acc.count + 1);
      }
      i := i + 1;
    }
  }

  /** `_collect_corpus`'s file loop followed by the fallback. */
  method CollectCorpus(t: Tree, uploads: seq<Source>, synths: seq<Source>) returns (r: Result<string>)
    ensures r == Corpus(t, uploads, synths)
  {
    var sources := uploads + synths;
    var acc := Acc("", 0);
    var i := 0;
    while i < |sources|
      invariant 0 <= i <= |sources|
      invariant ReadSources(acc, sources[i..], MaxItems) == ReadSources(Acc("", 0), sources, MaxItems)
    {
      if acc.count >= MaxItems {
        break;
      }
      assert sources[i..][1..] == sources[i + 1..];
      acc := ReadFile(acc, sources[i].lines, MaxItems);
      i := i + 1;
    }
    if acc.corpus != "" {
      return Success(acc.corpus);
    }
    var items := FallbackItems(t);
    if items.Failure? {
      return Failure(items.error);
    }
    var scan := ScanLemmas(items.value, MaxItems);
    if scan.NotObject? {
      return Failure(NoGet(TypeName(scan.item)));
    }
    r := Success(scan.text);
  }

  /** The fallback's index loop. */
  method ScanLemmas(items: seq<Json>, max: nat) returns (r: Scan)
    ensures r == Lemmas("", 0, items, max)
  {
    var corpus := "";
    var k := 0;
    var i := 0;
    while i < |items|
      invariant 0 <= i <= |items|
      invariant Lemmas(corpus, k, items[i..], max) == Lemmas("", 0, items, max)
    {
      if k >= max {
        break;
      }
      var obj := items[i];
      if !obj.JObj? {
        return NotObject(obj);
      }
      assert items[i..][1..] == items[i + 1..];
      var word := Show(Or(Get(obj.fields, "lemma", JNull), JStr("")));
      if word != "" {
        corpus := corpus + word + " ";
        k := k + 1;
      }
      i := i + 1;
    }
    r := Scanned(corpus);
  }

  // ---------------------------------------------------------------- counting and reinforcement

  /**
   * `_build_ngram_counts(text, order)` is the n-gram table of the counting
   * module: empty when the text is no longer than the order, and otherwise
   * holding one transition per position, len - order in all.
   */
  lemma NgramCountsShape(text: string, order: nat)
    ensures var counts := NgramAt(text, order, Positions(text, order));
      (|text| <= order ==> counts == [])
      && (|text| > order ==> Total(counts) == |text| - order)
  {
    NgramTotal(text, order, Positions(text, order));
  }

  /** `list(range(from, m, st))`. */
  function RangeStep(from: nat, m: nat, st: nat): (r: seq<nat>)
    requires st >= 1
    ensures forall i :: 0 <= i < |r| ==> from <= r[i] < m
    ensures from < m ==> |r| > 0 && r[0] == from
    decreases m - from
  {
    if from >= m then [] else [from] + RangeStep(from + st, m, st)
  }

  /** `max(1, (n - order) // 50 or 1)`. */
  function SampleStride(m: nat): (st: nat)
    ensures st >= 1
  {
    if m / 50 >= 1 then m / 50 else 1
  }

  /** `rng.shuffle` leaves a permutation of its list. */
  ghost predicate Permutes(shuffle: (int, seq<nat>) -> seq<nat>) {
    forall seed: int, xs: seq<nat> :: multiset(shuffle(seed, xs)) == multiset(xs)
  }

  /** At most this many positions are reinforced per step. */
  const PerStepCap: nat := 200

  /** The positions step `s` reinforces: the first 200 of the shuffled sample. */
  function StepIdxs(text: string, order: nat, seed: int, s: nat, shuffle: (int, seq<nat>) -> seq<nat>): seq<nat>
    requires |text| > order
  {
    var m := |text| - order;
    Take(shuffle(seed + s, RangeStep(0, m, SampleStride(m))), PerStepCap)
  }

  /** Every sampled position has a context and a next character inside the text; there are min(200, sample) of them. */
  lemma StepIdxsInside(text: string, order: nat, seed: int, s: nat, shuffle: (int, seq<nat>) -> seq<nat>)
    requires |text| > order && Permutes(shuffle)
    ensures var m := |text| - order;
      var sample := RangeStep(0, m, SampleStride(m));
      var ps := StepIdxs(text, order, seed, s, shuffle);
      (forall j :: 0 <= j < |ps| ==> ps[j] + order < |text|)
      && |ps| == (if |sample| < PerStepCap then |sample| else PerStepCap)
  {
    var m := |text| - order;
    var sample := RangeStep(0, m, SampleStride(m));
    var sh := shuffle(seed + s, sample);
    assert multiset(sh) == multiset(sample);
    assert |sh| == |multiset(sh)| == |multiset(sample)| == |sample|;
    forall j | 0 <= j < |sh| ensures sh[j] < m {
      assert sh[j] in multiset(sh);
      assert sh[j] in multiset(sample);
      var k :| 0 <= k < |sample| && sample[k] == sh[j];
    }
  }

  /** Every sampled position is inside the text. */
  predicate Inside(text: string, order: nat, ps: seq<nat>) {
    forall j :: 0 <= j < |ps| ==> ps[j] + order < |text|
  }

  /** The inner loop: `counts[ctx][nx] += 1` at each position of `ps`, in order. */
  function Bumps(t: Table, text: string, order: nat, ps: seq<nat>): Table
    requires Inside(text, order, ps)
    decreases |ps|
  {
    if |ps| == 0 then t
    else
      var i := ps[|ps| - 1];
      Increment(Bumps(t, text, order, ps[..|ps| - 1]), text[i..i + order], [text[i + order]])
  }

  /** Each position adds one transition, and no count ever goes down. */
  lemma {:induction false} BumpsGrow(t: Table, text: string, order: nat, ps: seq<nat>, ctx: string, nxt: string)
    requires Inside(text, order, ps)
    ensures Total(Bumps(t, text, order, ps)) == Total(t) + |ps|
    ensures CountIn(Bumps(t, text, order, ps), ctx, nxt) >= CountIn(t, ctx, nxt)
    decreases |ps|
  {
    if |ps| > 0 {
      var i := ps[|ps| - 1];
      var prev := Bumps(t, text, order, ps[..|ps| - 1]);
      BumpsGrow(t, text, order, ps[..|ps| - 1], ctx, nxt);
      IncrementCount(prev, text[i..i + order], [text[i + order]], ctx, nxt);
    }
  }

  lemma InsideConcat(text: string, order: nat, a: seq<nat>, b: seq<nat>)
    requires Inside(text, order, a) && Inside(text, order, b)
    ensures Inside(text, order, a + b)
  {
    forall j | 0 <= j < |a + b| ensures (a + b)[j] + order < |text| {
      if j >= |a| {
        assert (a + b)[j] == b[j - |a|];
      }
    }
  }

  lemma BumpsAppend(t: Table, text: string, order: nat, ps: seq<nat>, i: nat)
    requires Inside(text, order, ps) && i + order < |text|
    ensures Inside(text, order, ps + [i])
    ensures Bumps(t, text, order, ps + [i]) == Increment(Bumps(t, text, order, ps), text[i..i + order], [text[i + order]])
  {
    assert (ps + [i])[..|ps|] == ps;
  }

  lemma ConcatPrefixSnoc(a: seq<nat>, b: seq<nat>, j: nat)
    requires j < |b|
    ensures (a + b[..j]) + [b[j]] == a + b[..j + 1]
  {
  }

  /** The positions reinforced by the first `k` steps, step after step. */
  function Schedule(text: string, order: nat, seed: int, k: nat, shuffle: (int, seq<nat>) -> seq<nat>): seq<nat>
    requires Permutes(shuffle)
  {
    if k == 0 || |text| <= order then []
    else Schedule(text, order, seed, k - 1, shuffle) + StepIdxs(text, order, seed, k - 1, shuffle)
  }

  /** Every scheduled position is inside the text, and each step schedules min(200, sample) of them. */
  lemma {:induction false} ScheduleShape(text: string, order: nat, seed: int, k: nat, shuffle: (int, seq<nat>) -> seq<nat>)
    requires Permutes(shuffle)
    ensures Inside(text, order, Schedule(text, order, seed, k, shuffle))
    ensures |Schedule(text, order, seed, k, shuffle)| == k * PerStep(text, order)
  {
    if k > 0 && |text| > order {
      ScheduleShape(text, order, seed, k - 1, shuffle);
      StepIdxsInside(text, order, seed, k - 1, shuffle);
      InsideConcat(text, order, Schedule(text, order, seed, k - 1, shuffle), StepIdxs(text, order, seed, k - 1, shuffle));
      StepsTimes(k - 1, PerStep(text, order));
    }
  }

  lemma StepsTimes(k: nat, p: nat)
    ensures k * p + p == (k + 1) * p
  {
  }

  /** The counts after `k` reinforcement steps; a text no longer than the order stops the loop at once. */
  function Trained(base: Table, text: string, order: nat, seed: int, k: nat, shuffle: (int, seq<nat>) -> seq<nat>): Table
    requires Permutes(shuffle)
  {
    ScheduleShape(text, order, seed, k, shuffle);
    Bumps(base, text, order, Schedule(text, order, seed, k, shuffle))
  }

  /** The number of increments one step makes: min(200, number of sampled positions). */
  function PerStep(text: string, order: nat): (p: nat)
    ensures p <= PerStepCap
  {
    if |text| <= order then 0
    else
      var m := |text| - order;
      var n := |RangeStep(0, m, SampleStride(m))|;
      if n < PerStepCap then n else PerStepCap
  }

  /**
   * Reinforcement only adds: after k steps every count is at least its base
   * value, and the table holds exactly k * min(200, sample) more transitions.
   */
  lemma TrainedGrows(base: Table, text: string, order: nat, seed: int, k: nat,
                     shuffle: (int, seq<nat>) -> seq<nat>, ctx: string, nxt: string)
    requires Permutes(shuffle)
    ensures CountIn(Trained(base, text, order, seed, k, shuffle), ctx, nxt) >= CountIn(base, ctx, nxt)
    ensures Total(Trained(base, text, order, seed, k, shuffle)) == Total(base) + k * PerStep(text, order)
  {
    ScheduleShape(text, order, seed, k, shuffle);
    BumpsGrow(base, text, order, Schedule(text, order, seed, k, shuffle), ctx, nxt);
  }

  /** A text no longer than the order is never reinforced. */
  lemma TrainedShort(base: Table, text: string, order: nat, seed: int, k: nat, shuffle: (int, seq<nat>) -> seq<nat>)
    requires Permutes(shuffle) && |text| <= order
    ensures Trained(base, text, order, seed, k, shuffle) == base
  {
  }

  /**
   * One pass of the inner loop: `counts[ctx][nx] += 1` for each chosen
   * position, continuing the positions `done` already reinforced on `base`.
   */
  method ReinforceStep(counts: Table, text: string, order: nat, chosen: seq<nat>, ghost base: Table, ghost done: seq<nat>)
    returns (r: Table)
    requires Inside(text, order, done) && Inside(text, order, chosen)
    requires counts == Bumps(base, text, order, done)
    ensures Inside(text, order, done + chosen) && r == Bumps(base, text, order, done + chosen)
  {
    r := counts;
    var j := 0;
    assert done + chosen[..0] == done;
    while j < |chosen|
      invariant 0 <= j <= |chosen|
      invariant Inside(text, order, done + chosen[..j]) && r == Bumps(base, text, order, done + chosen[..j])
    {
      var i := chosen[j];
      ConcatPrefixSnoc(done, chosen, j);
      BumpsAppend(base, text, order, done + chosen[..j], i);
      r := Increment(r, text[i..i + order], [text[i + order]]);
      j := j + 1;
    }
    assert chosen[..j] == chosen;
  }

  /** One step of the loop: sample positions with `random.Random(seed + s)` and reinforce the first 200. */
  method ReinforceOnce(counts: Table, text: string, order: nat, seed: int, s: nat, shuffle: (int, seq<nat>) -> seq<nat>,
                       ghost base: Table, ghost done: seq<nat>)
    returns (r: Table)
    requires Permutes(shuffle) && |text| > order
    requires Inside(text, order, done) && counts == Bumps(base, text, order, done)
    ensures Inside(text, order, done + StepIdxs(text, order, seed, s, shuffle))
    ensures r == Bumps(base, text, order, done + StepIdxs(text, order, seed, s, shuffle))
  {
    var chosen := StepIdxs(text, order, seed, s, shuffle);
    StepIdxsInside(text, order, seed, s, shuffle);
    r := ReinforceStep(counts, text, order, chosen, base, done);
  }

  /** Step `s + 1` appends the positions of step `s` to the schedule. */
  lemma ScheduleNext(text: string, order: nat, seed: int, s: nat, shuffle: (int, seq<nat>) -> seq<nat>)
    requires Permutes(shuffle) && |text| > order
    ensures Schedule(text, order, seed, s + 1, shuffle)
            == Schedule(text, order, seed, s, shuffle) + StepIdxs(text, order, seed, s, shuffle)
  {
  }

  /** The "training" loop of `run`. */
  method Reinforce(base: Table, text: string, order: nat, seed: int, steps: int, shuffle: (int, seq<nat>) -> seq<nat>)
    returns (counts: Table)
    requires Permutes(shuffle)
    ensures counts == Trained(base, text, order, seed, if steps > 0 then steps else 0, shuffle)
  {
    var k: nat := if steps > 0 then steps else 0;
    counts := base;
    var s := 0;
    ghost var done: seq<nat> := [];
    while s < k
      invariant s <= k
      invariant done == Schedule(text, order, seed, s, shuffle)
      invariant Inside(text, order, done) && counts == Bumps(base, text, order, done)
    {
      var n := |text|;
      if n <= order {
        break;
      }
      counts := ReinforceOnce(counts, text, order, seed, s, shuffle, base, done);
      ScheduleNext(text, order, seed, s, shuffle);
      done := done + StepIdxs(text, order, seed, s, shuffle);
      s := s + 1;
    }
    ScheduleShape(text, order, seed, k, shuffle);
  }

  // ---------------------------------------------------------------- the run

  /** `int(0.9 * len(corpus))`, which it equals for every length below 2^48. */
  function Split(len: nat): (k: nat)
    ensures k <= len
  {
    (9 * len) / 10
  }

  /** `corpus[:split]`. */
  function TrainText(corpus: string): string { corpus[..Split(|corpus|)] }

  /** `corpus[split:] or corpus[:max(1, len(corpus) // 10)]`. */
  function ValText(corpus: string): (v: string)
    ensures |corpus| > 0 ==> |v| > 0
  {
    var k := Split(|corpus|);
    if k < |corpus| then corpus[k..]
    else Take(corpus, if |corpus| / 10 > 1 then |corpus| / 10 else 1)
  }

  const CheckpointContexts: nat := 20000

  function RunDir(seed: int): string { Child(Child(ArtifactsDir, "chat"), "sft_" + IntToString(seed)) }
  function CkptPath(seed: int): string { Child(RunDir(seed), "ckpt_sft_" + IntToString(seed) + ".json") }
  function SftMetricsPath(seed: int): string { Child(RunDir(seed), "metrics.json") }
  function RunInfoPath(seed: int): string { Child(RunDir(seed), "run.json") }

  /** The checkpoint: the order, the first 20000 contexts of the trained counts, and the seed. */
  function CkptDoc(order: int, counts: Table, seed: int): Json {
    JObj(map["order" := JInt(order),
             "counts" := JObj(Bubble.DictJson(Take(counts, CheckpointContexts), Bubble.BucketJson)),
             "seed" := JInt(seed)])
  }

  /** The checkpoint keeps exactly the contexts among the first 20000 of the table. */
  lemma CkptContexts(order: int, counts: Table, seed: int)
    ensures var c := Take(counts, CheckpointContexts);
      CkptDoc(order, counts, seed).fields["counts"].fields.Keys == (set i | 0 <= i < |c| :: c[i].key)
      && |c| <= CheckpointContexts
  {
    Bubble.DictJsonKeys(Take(counts, CheckpointContexts), Bubble.BucketJson);
  }

  /** `metrics.json`: the perplexities of the validation text under the base and the trained counts. */
  function SftMetrics(seed: int, order: int, pplBase: real, pplTrained: real): map<string, Json> {
    map["job" := JStr("train_sft"), "seed" := JInt(seed), "order" := JInt(order),
        "ppl_base" := JNum(pplBase), "ppl_trained" := JNum(pplTrained), "improved" := JBool(pplTrained < pplBase)]
  }

  /** `run.json`. */
  function RunInfo(seed: int, now: string, codeHash: string, dataHash: string): map<string, Json> {
    map["job" := JStr("train_sft"), "seed" := JInt(seed), "created_at" := JStr(now),
        "code_hash" := JStr(codeHash), "dataset_hash" := JStr(dataHash),
        "artifacts" := JObj(map["ckpt" := JStr(CkptPath(seed)), "metrics" := JStr(SftMetricsPath(seed))])]
  }

  /** The perplexity of a text under a table (floating point, outside this model). */
  type Perplexity = (string, Table, nat) -> real

  /** `order` as `run` reads it; a negative order is outside this model. */
  predicate OrderInModel(payload: map<string, Json>) {
    IntArg(payload, "order", 3).Success? ==> IntArg(payload, "order", 3).value >= 0
  }

  /** The base counts of the training split. */
  function BaseCounts(corpus: string, order: nat): Table {
    var train := TrainText(corpus);
    NgramAt(train, order, Positions(train, order))
  }

  /** The trained counts `run` checkpoints for a corpus. */
  function TrainedCounts(corpus: string, order: nat, seed: int, steps: int, shuffle: (int, seq<nat>) -> seq<nat>): Table
    requires Permutes(shuffle)
  {
    Trained(BaseCounts(corpus, order), TrainText(corpus), order, seed, if steps > 0 then steps else 0, shuffle)
  }

  /**
   * The checkpointed counts hold every base count of the training split and
   * exactly `steps * min(200, sample)` more transitions than its
   * `len - order` positions.
   */
  lemma TrainedCountsGrow(corpus: string, order: nat, seed: int, steps: int, shuffle: (int, seq<nat>) -> seq<nat>,
                          ctx: string, nxt: string)
    requires Permutes(shuffle)
    ensures var counts := TrainedCounts(corpus, order, seed, steps, shuffle);
      var train := TrainText(corpus);
      CountIn(counts, ctx, nxt) >= CountIn(BaseCounts(corpus, order), ctx, nxt)
      && Total(counts) == Positions(train, order) + (if steps > 0 then steps else 0) * PerStep(train, order)
  {
    var train := TrainText(corpus);
    NgramTotal(train, order, Positions(train, order));
    TrainedGrows(BaseCounts(corpus, order), train, order, seed, if steps > 0 then steps else 0, shuffle, ctx, nxt);
  }

  /** The three documents of a run over `corpus` and what it returns. */
  function SftEffect(corpus: string, seed: int, order: nat, steps: int, shuffle: (int, seq<nat>) -> seq<nat>,
                     ppl: Perplexity, codeHash: string, dataHash: string, now: string): Effect
    requires Permutes(shuffle)
  {
    var counts := TrainedCounts(corpus, order, seed, steps, shuffle);
    var val := ValText(corpus);
    var metrics := SftMetrics(seed, order, ppl(val, BaseCounts(corpus, order), order), ppl(val, counts, order));
    var info := RunInfo(seed, now, codeHash, dataHash);
    Effect(
      map["status" := JStr("ok"), "run_dir" := JStr(RunDir(seed)), "ckpt" := JStr(CkptPath(seed)),
          "metrics" := JObj(metrics), "run" := JObj(info)],
      [(CkptPath(seed), CkptDoc(order, counts, seed)), (SftMetricsPath(seed), JObj(metrics)),
       (RunInfoPath(seed), JObj(info))])
  }

  /**
   * `run(payload)`: what it returns and the three documents it writes
   * (checkpoint, metrics, run record), or the error it raises before
   * writing anything.
   */
  function SftPlan(t: Tree, payload: map<string, Json>, uploads: seq<Source>, synths: seq<Source>,
                   shuffle: (int, seq<nat>) -> seq<nat>, ppl: Perplexity, codeHash: string, dataHash: string,
                   now: string): Result<Effect>
    requires Permutes(shuffle) && OrderInModel(payload)
  {
    var seed :- IntArg(payload, "seed", 1337);
    var order :- IntArg(payload, "order", 3);
    var steps :- IntArg(payload, "steps", 5);
    var corpus :- Corpus(t, uploads, synths);
    Success(SftEffect(corpus, seed, order, steps, shuffle, ppl, codeHash, dataHash, now))
  }

  /** A run fails exactly when an argument is not an integer or the corpus cannot be read. */
  lemma SftPlanOutcome(t: Tree, payload: map<string, Json>, uploads: seq<Source>, synths: seq<Source>,
                       shuffle: (int, seq<nat>) -> seq<nat>, ppl: Perplexity, codeHash: string, dataHash: string, now: string)
    requires Permutes(shuffle) && OrderInModel(payload)
    ensures var plan := SftPlan(t, payload, uploads, synths, shuffle, ppl, codeHash, dataHash, now);
      (plan.Success? <==> IntArg(payload, "seed", 1337).Success? && IntArg(payload, "order", 3).Success?
                          && IntArg(payload, "steps", 5).Success? && Corpus(t, uploads, synths).Success?)
      && (plan.Success? ==>
            plan.value == SftEffect(Corpus(t, uploads, synths).value, IntArg(payload, "seed", 1337).value,
                                    IntArg(payload, "order", 3).value, IntArg(payload, "steps", 5).value,
                                    shuffle, ppl, codeHash, dataHash, now))
  {
  }

  /**
   * A run writes its checkpoint, metrics and run record into `sft_{seed}`,
   * in that order, returns the metrics it wrote with status "ok", and the
   * metrics say "improved" exactly when the trained perplexity is lower.
   */
  lemma SftEffectShape(corpus: string, seed: int, order: nat, steps: int, shuffle: (int, seq<nat>) -> seq<nat>,
                       ppl: Perplexity, codeHash: string, dataHash: string, now: string)
    requires Permutes(shuffle)
    ensures var e := SftEffect(corpus, seed, order, steps, shuffle, ppl, codeHash, dataHash, now);
      |e.writes| == 3 && "metrics" in e.out && e.out["metrics"].JObj?
      && e.writes[0].0 == CkptPath(seed) && e.writes[1].0 == SftMetricsPath(seed) && e.writes[2].0 == RunInfoPath(seed)
      && e.writes[1].1 == e.out["metrics"]
      && "status" in e.out && e.out["status"] == JStr("ok")
      && var m := e.out["metrics"].fields;
         "improved" in m && "ppl_trained" in m && "ppl_base" in m && m["ppl_trained"].JNum? && m["ppl_base"].JNum?
         && (m["improved"] == JBool(true) <==> m["ppl_trained"].r < m["ppl_base"].r)
  {
  }

  /** The checkpoint, metrics and run record of a run over `corpus`. */
  method SftWrites(store: Store, corpus: string, seed: int, order: nat, steps: int, shuffle: (int, seq<nat>) -> seq<nat>,
                   ppl: Perplexity, codeHash: string, dataHash: string, now: string)
    returns (out: map<string, Json>)
    requires Permutes(shuffle)
    modifies store
    ensures var e := SftEffect(corpus, seed, order, steps, shuffle, ppl, codeHash, dataHash, now);
      out == e.out && store.writes == old(store.writes) + e.writes
      && store.tree == Replay(old(store.tree), store.enc, e.writes)
  {
    ghost var t0 := store.tree;
    var base, counts := Fit(corpus, order, seed, steps, shuffle);
    var val := ValText(corpus);
    var metrics := SftMetrics(seed, order, ppl(val, base, order), ppl(val, counts, order));
    var info := RunInfo(seed, now, codeHash, dataHash);
    store.WriteJson(CkptPath(seed), CkptDoc(order, counts, seed));
    store.WriteJson(SftMetricsPath(seed), JObj(metrics));
    store.WriteJson(RunInfoPath(seed), JObj(info));
    ReplayThree(t0, store.enc, CkptPath(seed), CkptDoc(order, counts, seed), SftMetricsPath(seed), JObj(metrics),
                RunInfoPath(seed), JObj(info));
    out := map["status" := JStr("ok"), "run_dir" := JStr(RunDir(seed)), "ckpt" := JStr(CkptPath(seed)),
               "metrics" := JObj(metrics), "run" := JObj(info)];
  }

  /** The base counts of the training split and the counts after reinforcement. */
  method Fit(corpus: string, order: nat, seed: int, steps: int, shuffle: (int, seq<nat>) -> seq<nat>)
    returns (base: Table, counts: Table)
    requires Permutes(shuffle)
    ensures base == BaseCounts(corpus, order)
    ensures counts == TrainedCounts(corpus, order, seed, steps, shuffle)
  {
    var train := TrainText(corpus);
    base := BuildNgram(train, order);
    counts := Reinforce(base, train, order, seed, steps, shuffle);
  }

  /** `run(payload)` of the SFT job. */
  method Run(store: Store, payload: map<string, Json>, uploads: seq<Source>, synths: seq<Source>,
             shuffle: (int, seq<nat>) -> seq<nat>, ppl: Perplexity, codeHash: string, dataHash: string, now: string)
    returns (r: Result<map<string, Json>>)
    requires Permutes(shuffle) && OrderInModel(payload)
    modifies store
    ensures var plan := SftPlan(old(store.tree), payload, uploads, synths, shuffle, ppl, codeHash, dataHash, now);
      match plan
      case Failure(e) => r == Failure(e) && store.tree == old(store.tree) && store.writes == old(store.writes)
      case Success(eff) =>
        r == Success(eff.out) && store.writes == old(store.writes) + eff.writes
        && store.tree == Replay(old(store.tree), store.enc, eff.writes)
  {
    var seed := IntArg(payload, "seed", 1337);
    if seed.Failure? {
      return Failure(seed.error);
    }
    var order := IntArg(payload, "order", 3);
    if order.Failure? {
      return Failure(order.error);
    }
    var steps := IntArg(payload, "steps", 5);
    if steps.Failure? {
      return Failure(steps.error);
    }
    var corpus := CollectCorpus(store.tree, uploads, synths);
    if corpus.Failure? {
      return Failure(corpus.error);
    }
    var out := SftWrites(store, corpus.value, seed.value, order.value, steps.value, shuffle, ppl, codeHash, dataHash, now);
    r := Success(out);
  }
}
