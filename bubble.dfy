/**
 * The "bubble" model: a character unigram/bigram model learned from whatever
 * text the workbench has, over a small lower-case alphabet, and the babble
 * generator that walks it one character at a time.
 */
module Bubble {
  import opened Wrappers
  import opened Text
  import opened Json
  import opened Fs
  import opened Counting

  const Lowercase: string := "abcdefghijklmnopqrstuvwxyz"
  /** `string.ascii_lowercase + " .,!?:;\n"`. */
  const AllowedChars: string := Lowercase + " .,!?:;\n"
  const BubbleDir: string := Child(ArtifactsDir, "bubble")
  const BubbleModelPath: string := Child(BubbleDir, "model.json")
  const UnigramCap: nat := 200
  const BigramCap: nat := 2000

  /** Membership in `AllowedChars`, by character class. */
  predicate Allowed(c: char) { 'a' <= c <= 'z' || c in " .,!?:;\n" }

  lemma AllowedIsAllowedChars(c: char)
    ensures Allowed(c) <==> c in AllowedChars
  {
    if 'a' <= c <= 'z' {
      assert Lowercase[c as int - 'a' as int] == c;
      assert AllowedChars[c as int - 'a' as int] == c;
    }
  }

  /** `c.lower() if c.lower() in allowed else " "`. */
  function NormChar(c: char): (d: char)
    ensures Allowed(d)
    ensures Allowed(c) ==> d == c
    ensures d != ' ' ==> d == LowerChar(c)
    ensures 'A' <= c <= 'Z' ==> d == LowerChar(c)
  {
    if Allowed(LowerChar(c)) then LowerChar(c) else ' '
  }

  /** The normalised training text: one allowed character per corpus character. */
  function Normalise(corpus: string): (text: string)
    ensures |text| == |corpus|
    ensures forall i :: 0 <= i < |text| ==> Allowed(text[i])
    ensures forall i :: 0 <= i < |text| ==> text[i] == ' ' || text[i] == LowerChar(corpus[i])
    ensures forall i :: 0 <= i < |text| && Allowed(corpus[i]) ==> text[i] == corpus[i]
  {
    seq(|corpus|, i requires 0 <= i < |corpus| => NormChar(corpus[i]))
  }

  /** `(string.ascii_lowercase + " ") * 200`. */
  const FallbackCorpus: string := Repeat(Lowercase + " ", 200)

  /** An empty corpus is replaced by the fallback alphabet text. */
  function TrainingCorpus(corpus: string): (r: string)
    ensures corpus != "" ==> r == corpus
    ensures corpus == "" ==> |r| == 27 * 200 && HasPrefix(r, Lowercase + " ")
  {
    if corpus == "" then FallbackCorpus else corpus
  }

  /** The document `build_bubble_model` stores. */
  datatype BubbleModel = BubbleModel(seed: int, order: int, unigram: Bucket, bigram: Table)

  /** The model built from `corpus` (the `order` argument has no effect on it). */
  function ModelOf(corpus: string, seed: int): BubbleModel {
    var text := Normalise(TrainingCorpus(corpus));
    var uni := Unigrams(text, |text|);
    var bi := NgramAt(text, 1, Positions(text, 1));
    BubbleModel(seed, 2, Take(SortBy(uni, ByKey), UnigramCap), Take(bi, BigramCap))
  }

  /** Before capping, the unigram counts sum to the text length and the bigram counts to one less. */
  lemma CountSums(corpus: string)
    ensures var text := Normalise(TrainingCorpus(corpus));
      |text| > 0
      && Sum(Unigrams(text, |text|)) == |text|
      && Total(NgramAt(text, 1, Positions(text, 1))) == |text| - 1
  {
    var text := Normalise(TrainingCorpus(corpus));
    UnigramSum(text, |text|);
    NgramTotal(text, 1, Positions(text, 1));
  }

  /**
   * The stored model: order 2, at most 200 unigram and 2000 bigram entries,
   * the unigram entries in key order, each of them a count of the text, and
   * every key a single character.
   */
  lemma ModelShape(corpus: string, seed: int)
    ensures var m := ModelOf(corpus, seed);
      m.order == 2 && m.seed == seed
      && |m.unigram| <= UnigramCap && |m.bigram| <= BigramCap
      && SortedBy(m.unigram, ByKey)
      && UnitKeys(m.unigram) && UnitTable(m.bigram)
  {
    var text := Normalise(TrainingCorpus(corpus));
    UnigramUnit(text, |text|);
    NgramUnit(text, 1, Positions(text, 1));
    CappedShape(Unigrams(text, |text|), NgramAt(text, 1, Positions(text, 1)), seed);
  }

  /** Capping keeps the key order and the single-character keys. */
  lemma CappedShape(uni: Bucket, bi: Table, seed: int)
    requires UnitKeys(uni) && UnitTable(bi)
    ensures var m := BubbleModel(seed, 2, Take(SortBy(uni, ByKey), UnigramCap), Take(bi, BigramCap));
      |m.unigram| <= UnigramCap && |m.bigram| <= BigramCap
      && SortedBy(m.unigram, ByKey)
      && UnitKeys(m.unigram) && UnitTable(m.bigram)
  {
    var s := SortBy(uni, ByKey);
    forall c | c in Take(s, UnigramCap) ensures |c.key| == 1 {
      assert c in s;
      assert c in multiset(uni);
    }
  }

  /** `{k: v for k, v in items}`: later cells win. */
  function DictJson<V>(d: Dict<V>, f: V -> Json): map<string, Json>
    decreases |d|
  {
    if |d| == 0 then map[]
    else DictJson(d[..|d| - 1], f)[d[|d| - 1].key := f(d[|d| - 1].val)]
  }

  function CountJson(n: int): Json { JInt(n) }

  /** `{k: v for k, v in items}` has exactly the items' keys. */
  lemma {:induction false} DictJsonKeys<V>(d: Dict<V>, f: V -> Json)
    ensures DictJson(d, f).Keys == set i | 0 <= i < |d| :: d[i].key
    decreases |d|
  {
    if |d| > 0 {
      var init := d[..|d| - 1];
      DictJsonKeys(init, f);
      assert (set i | 0 <= i < |d| :: d[i].key) == (set i | 0 <= i < |init| :: init[i].key) + {d[|d| - 1].key};
    }
  }

  function BucketJson(b: Bucket): Json { JObj(DictJson(b, CountJson)) }

  function ModelJson(m: BubbleModel): Json {
    JObj(map["seed" := JInt(m.seed), "order" := JInt(m.order),
             "unigram" := BucketJson(m.unigram),
             "bigram" := JObj(DictJson(m.bigram, BucketJson)),
             "built_from" := JStr("auto")])
  }

  /** The document `build_bubble_model` writes for `corpus`. */
  function ModelDoc(corpus: string, seed: int): Json { ModelJson(ModelOf(corpus, seed)) }

  /** `build_bubble_model(seed, order)` over the collected corpus. */
  method BuildBubbleModel(store: Store, corpus: string, seed: int, order: int) returns (path: string)
    modifies store
    ensures path == BubbleModelPath
    ensures store.tree == old(store.tree)[BubbleModelPath := store.enc.Node(ModelDoc(corpus, seed))]
    ensures store.writes == old(store.writes) + [(BubbleModelPath, ModelDoc(corpus, seed))]
  {
    var text := Normalise(TrainingCorpus(corpus));
    var uni := Tally(text);
    var bi := BuildNgram(text, 1);
    var model := BubbleModel(seed, 2, Take(SortBy(uni, ByKey), UnigramCap), Take(bi, BigramCap));
    store.WriteJson(BubbleModelPath, ModelJson(model));
    path := BubbleModelPath;
  }

  // ---------------------------------------------------------------- babble

  /** The bucket the character after `prev` is drawn from: its bigram bucket, else the unigram counts. */
  function Source(uni: Bucket, bi: Table, prev: string): Bucket {
    match Find(bi, prev)
    case Some(b) => if |b| > 0 then b else uni
    case None => uni
  }

  /** A character drawn from `src`: one of its keys, or a space when its total is not positive. */
  predicate DrawnFrom(src: Bucket, c: char) {
    if Sum(src) > 0 then HasKey(src, [c]) else c == ' '
  }

  /** The character before position `i`, a space at the start. */
  function PrevAt(s: string, i: nat): string
    requires i <= |s|
  {
    if i == 0 then " " else [s[i - 1]]
  }

  /**
   * `generate_babble(seed_text, n_chars)` on the loaded model's unigram and
   * bigram tables (both empty when the model file is missing or unreadable);
   * `draw(k)` is the k-th `random.randint` draw.
   */
  method GenerateBabble(uni: Bucket, bi: Table, seedText: string, nChars: int, draw: nat -> int)
    returns (out: string)
    ensures |seedText| <= |out| && out[..|seedText|] == seedText
    ensures UnitKeys(uni) && UnitTable(bi) ==>
      |out| == |seedText| + (if nChars > 0 then nChars else 0)
    ensures UnitKeys(uni) && UnitTable(bi) ==>
      forall i :: |seedText| <= i < |out| ==> DrawnFrom(Source(uni, bi, PrevAt(out, i)), out[i])
  {
    ghost var unit := UnitKeys(uni) && UnitTable(bi);
    out := seedText;
    var prev := if |seedText| > 0 then [seedText[|seedText| - 1]] else " ";
    var k: nat := 0;
    var n := if nChars > 0 then nChars else 0;
    var step := 0;
    while step < n
      invariant 0 <= step <= n
      invariant |seedText| <= |out| && out[..|seedText|] == seedText
      invariant unit ==> |out| == |seedText| + step && prev == PrevAt(out, |out|)
      invariant unit ==> forall i :: |seedText| <= i < |out| ==> DrawnFrom(Source(uni, bi, PrevAt(out, i)), out[i])
    {
      var ch: string;
      ch, k := NextChar(uni, bi, prev, draw, k);
      if unit {
        BabbleStep(uni, bi, seedText, out, ch);
      }
      out := out + ch;
      prev := ch;
      step := step + 1;
    }
  }

  /** One step of the loop: the sampled bucket, the unigram counts, or a space. */
  method NextChar(uni: Bucket, bi: Table, prev: string, draw: nat -> int, k: nat) returns (ch: string, next: nat)
    ensures UnitKeys(uni) && UnitTable(bi) ==> |ch| == 1 && DrawnFrom(Source(uni, bi, prev), ch[0])
  {
    var bucket := Find(bi, prev);
    if bucket.Some? && |bucket.value| > 0 {
      ch, next := Draw(bucket.value, draw, k);
    } else if |uni| > 0 {
      ch, next := Draw(uni, draw, k);
    } else {
      ch, next := " ", k;
    }
    var src := Source(uni, bi, prev);
    if UnitKeys(uni) && UnitTable(bi) {
      assert bucket.Some? ==> Cell(prev, bucket.value) in bi;
      assert UnitKeys(src);
      if Sum(src) > 0 {
        var j :| 0 <= j < |src| && src[j].key == ch;
        assert src[j] in src;
      }
    }
  }

  /** Appending a drawn character keeps every earlier position's predecessor. */
  lemma BabbleStep(uni: Bucket, bi: Table, seedText: string, out: string, ch: string)
    requires |seedText| <= |out| && |ch| == 1
    requires DrawnFrom(Source(uni, bi, PrevAt(out, |out|)), ch[0])
    requires forall i :: |seedText| <= i < |out| ==> DrawnFrom(Source(uni, bi, PrevAt(out, i)), out[i])
    ensures forall i :: |seedText| <= i < |out + ch| ==> DrawnFrom(Source(uni, bi, PrevAt(out + ch, i)), (out + ch)[i])
  {
    var ok := (p: string, c: char) => DrawnFrom(Source(uni, bi, p), c);
    AppendKeeps(ok, |seedText|, out, ch);
  }

  /** A property of each position and its predecessor survives appending one character that has it. */
  lemma AppendKeeps(ok: (string, char) -> bool, from: nat, out: string, ch: string)
    requires from <= |out| && |ch| == 1
    requires ok(PrevAt(out, |out|), ch[0])
    requires forall i :: from <= i < |out| ==> ok(PrevAt(out, i), out[i])
    ensures forall i :: from <= i < |out + ch| ==> ok(PrevAt(out + ch, i), (out + ch)[i])
  {
    var o := out + ch;
    forall i | from <= i < |o| ensures ok(PrevAt(o, i), o[i]) {
      if i < |out| {
        assert PrevAt(o, i) == PrevAt(out, i) && o[i] == out[i];
      } else {
        assert PrevAt(o, i) == PrevAt(out, |out|) && o[i] == ch[0];
      }
    }
  }
}
