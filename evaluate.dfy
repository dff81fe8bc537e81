/**
 * The `evaluate` job: the synthetic WordNet dialog set, the chat-core
 * evaluation over its prompts (grounding hits, latency percentiles, the
 * registry entry of the evaluated model) and the dispatch by module id.
 */
module Evaluate {
  import opened Wrappers
  import opened Text
  import opened Json
  import opened Fs
  import Recorder
  import Train

  // ---------------------------------------------------------------- the synthetic dialog set

  /** `_iter_index_records()` over the decoded index lines: the objects with a truthy lemma, in order. */
  function IndexRecords(items: seq<Json>): (recs: seq<map<string, Json>>)
    ensures |recs| <= |items|
    ensures forall i :: 0 <= i < |recs| ==> Truthy(Get(recs[i], "lemma", JNull)) && JObj(recs[i]) in items
    ensures (exists i :: 0 <= i < |items| && items[i].JObj? && Truthy(Get(items[i].fields, "lemma", JNull)))
            ==> |recs| > 0
    decreases |items|
  {
    if |items| == 0 then []
    else
      var init := items[..|items| - 1];
      var last := items[|items| - 1];
      var recs := IndexRecords(init);
      assert forall x :: x in init ==> x in items;
      if last.JObj? && Truthy(Get(last.fields, "lemma", JNull)) then recs + [last.fields]
      else
        assert forall i :: 0 <= i < |init| ==> init[i] == items[i];
        recs
  }

  /** The index loop of `_iter_index_records`. */
  method IterIndexRecords(t: Tree) returns (recs: seq<map<string, Json>>)
    ensures recs == IndexRecords(IndexItems(t))
  {
    var items := IndexItems(t);
    recs := [];
    var i := 0;
    while i < |items|
      invariant 0 <= i <= |items|
      invariant recs == IndexRecords(items[..i])
    {
      assert items[..i + 1][..i] == items[..i];
      var rec := items[i];
      if rec.JObj? && Truthy(Get(rec.fields, "lemma", JNull)) {
        recs := recs + [rec.fields];
      }
      i := i + 1;
    }
    assert items[..i] == items;
  }

  /** The `limit` placeholder records used when the index yields none. */
  function Placeholders(limit: int): (recs: seq<map<string, Json>>)
    ensures |recs| == if limit > 0 then limit else 0
    ensures forall n :: 0 <= n < |recs| ==> "lemma" in recs[n] && recs[n]["lemma"] == JStr("word" + IntToString(n))
  {
    seq(if limit > 0 then limit else 0,
        n requires 0 <= n => map["lemma" := JStr("word" + IntToString(n)), "pos" := JStr("noun"),
                                 "offsets" := JArr([JInt(n)])])
  }

  /** The records the dialogs are drawn from. */
  function SynthRecords(t: Tree, limit: int): (recs: seq<map<string, Json>>)
    ensures IndexRecords(IndexItems(t)) != [] ==> recs == IndexRecords(IndexItems(t))
    ensures IndexRecords(IndexItems(t)) == [] ==> recs == Placeholders(limit)
  {
    var recs := IndexRecords(IndexItems(t));
    if |recs| > 0 then recs else Placeholders(limit)
  }

  /** `ARTIFACTS_DATASETS / f"wordnet_synth_{seed}.jsonl"`. */
  function SynthPath(seed: int): string {
    Child(ArtifactDatasetsDir, "wordnet_synth_" + IntToString(seed) + ".jsonl")
  }

  function DialogPrompt(r: map<string, Json>): string {
    "What does " + "'" + Show(Get(r, "lemma", JNull)) + "'" + (" mean? (POS: " + Show(Get(r, "pos", JStr("?"))) + ")")
  }

  function DialogAnswer(r: map<string, Json>): string {
    "'" + Show(Get(r, "lemma", JNull)) + "' relates to offsets " + Show(Get(r, "offsets", JArr([]))) + " in WordNet."
  }

  /** `f"wn_{seed}_{k}"`. */
  function DialogId(seed: int, k: nat): string { "wn_" + IntToString(seed) + "_" + IntToString(k) }

  /** The dialog line written for record `r` as the `k`-th line. */
  function DialogItem(r: map<string, Json>, seed: int, k: nat): Json {
    JObj(map["id" := JStr(DialogId(seed, k)), "prompt" := JStr(DialogPrompt(r)),
             "response" := JStr(DialogAnswer(r)), "seed" := JInt(seed), "source" := JStr("wordnet")])
  }

  /** `max(1, len // n)` for `0 < n`. */
  function Stride(len: nat, n: nat): (step: nat)
    requires 0 < n
    ensures step >= 1
  {
    if len / n >= 1 then len / n else 1
  }

  /** The lines written: record `(k * step) % len` as line `k`, for `k < n = min(limit, len)`. */
  function SynthDoc(recs: seq<map<string, Json>>, seed: int, limit: int): (items: seq<Json>)
  {
    var n := if limit < |recs| then limit else |recs|;
    if n <= 0 then []
    else
      var step := Stride(|recs|, n);
      seq(n, k requires 0 <= k < n => DialogItem(recs[(k * step) % |recs|], seed, k))
  }

  /** Line `k` of the document. */
  lemma SynthDocAt(recs: seq<map<string, Json>>, seed: int, limit: int, k: nat)
    requires 0 < limit && 0 < |recs| && k < (if limit < |recs| then limit else |recs|)
    ensures var n := if limit < |recs| then limit else |recs|;
      |SynthDoc(recs, seed, limit)| == n
      && SynthDoc(recs, seed, limit)[k] == DialogItem(recs[(k * Stride(|recs|, n)) % |recs|], seed, k)
  {
  }

  /** With n <= len records, the stride never reaches past the end: k * step < len for every k < n. */
  lemma StrideInside(len: nat, n: nat, k: nat)
    requires 0 < n <= len && k < n
    ensures k * Stride(len, n) < len
    ensures k * Stride(len, n) <= (n - 1) * Stride(len, n)
  {
    var q := len / n;
    assert q >= 1 by {
      assert n * 1 <= len;
    }
    assert Stride(len, n) == q;
    assert n * q <= len by {
      assert len == n * q + len % n;
    }
    MulMono(k, n - 1, q);
    assert (n - 1) * q == n * q - q;
  }

  lemma MulMono(a: nat, b: nat, c: nat)
    requires a <= b
    ensures a * c <= b * c
  {
  }

  /**
   * With a positive limit, exactly min(limit, len) lines are written, line
   * k comes from record k * step (no index wraps around, and the chosen
   * records are strictly increasing) and is numbered `wn_{seed}_k`.
   */
  lemma SynthSelection(recs: seq<map<string, Json>>, seed: int, limit: int)
    requires limit > 0 && |recs| > 0
    ensures var n := if limit < |recs| then limit else |recs|;
      var step := Stride(|recs|, n);
      var items := SynthDoc(recs, seed, limit);
      |items| == n
      && (forall k :: 0 <= k < n ==> k * step < |recs| && items[k] == DialogItem(recs[k * step], seed, k))
      && (forall k :: 0 <= k < n ==> items[k].fields["id"] == JStr(DialogId(seed, k)))
      && (forall j, k :: 0 <= j < k < n ==> j * step < k * step)
  {
    var n := if limit < |recs| then limit else |recs|;
    var step := Stride(|recs|, n);
    forall k | 0 <= k < n
      ensures k * step < |recs| && SynthDoc(recs, seed, limit)[k] == DialogItem(recs[k * step], seed, k)
    {
      StrideInside(|recs|, n, k);
      ModSmall(k * step, |recs|);
    }
    PicksIncrease(|recs|, n);
  }

  /** Line `k` takes record `k * step`, so later lines take later records. */
  lemma PicksIncrease(len: nat, n: nat)
    requires 0 < n
    ensures forall j, k :: 0 <= j < k < n ==> j * Stride(len, n) < k * Stride(len, n)
  {
    var step := Stride(len, n);
    forall j, k | 0 <= j < k < n
      ensures j * step < k * step
    {
      MulMono(j + 1, k, step);
      MulSucc(j, step);
    }
  }

  lemma ModSmall(x: nat, m: nat)
    requires x < m
    ensures x % m == x
  {
  }

  lemma MulSucc(k: nat, step: nat)
    ensures (k + 1) * step == k * step + step
  {
  }

  /** `i // step == k` for `i = k * step`. */
  lemma DivOfMul(k: nat, step: nat)
    requires step > 0
    ensures (k * step) / step == k
  {
    var i := k * step;
    var q := i / step;
    assert i == q * step + i % step;
    if q > k {
      MulMono(k + 1, q, step);
      MulSucc(k, step);
    } else if q < k {
      MulMono(q + 1, k, step);
      MulSucc(q, step);
    }
  }

  const ZeroDivision: string := "integer division or modulo by zero"

  /** The dialog file's writes: none when it exists already, else the file with its lines. */
  function SynthWrites(t: Tree, seed: int, limit: int): seq<(string, Json)> {
    if Exists(t, SynthPath(seed)) then []
    else [(SynthPath(seed), JArr(SynthDoc(SynthRecords(t, limit), seed, limit)))]
  }

  /** What `synth_wordnet_dialogs` returns; a zero limit raises after the empty file is created. */
  function SynthResult(t: Tree, seed: int, limit: int): Result<string> {
    if !Exists(t, SynthPath(seed)) && limit == 0 then Failure(ZeroDivision) else Success(SynthPath(seed))
  }

  /**
   * `synth_wordnet_dialogs(seed, limit)`: an existing file is returned as it
   * is; otherwise the dialog lines are written (the file stores its lines as
   * one JSON list, one item per line).
   */
  method SynthWordnetDialogs(store: Store, seed: int, limit: int) returns (r: Result<string>)
    modifies store
    ensures r == SynthResult(old(store.tree), seed, limit)
    ensures store.writes == old(store.writes) + SynthWrites(old(store.tree), seed, limit)
    ensures store.tree == Replay(old(store.tree), store.enc, SynthWrites(old(store.tree), seed, limit))
  {
    var out := SynthPath(seed);
    if Exists(store.tree, out) {
      assert SynthWrites(store.tree, seed, limit) == [];
      return Success(out);
    }
    ghost var t0 := store.tree;
    var recs := IterIndexRecords(store.tree);
    if |recs| == 0 {
      recs := Placeholders(limit);
    }
    assert recs == SynthRecords(t0, limit);
    var n := if limit < |recs| then limit else |recs|;
    if n <= 0 {
      store.WriteJson(out, JArr([]));
      ReplaySnoc(t0, store.enc, [], out, JArr([]));
      return if n == 0 then Failure(ZeroDivision) else Success(out);
    }
    var items := SynthLoop(recs, seed, limit);
    store.WriteJson(out, JArr(items));
    ReplaySnoc(t0, store.enc, [], out, JArr(items));
    r := Success(out);
  }

  /** The writing loop: `for i in range(0, n * step, step)`, line `i // step` from record `i % len`. */
  method SynthLoop(recs: seq<map<string, Json>>, seed: int, limit: int) returns (items: seq<Json>)
    requires 0 < limit && 0 < |recs|
    ensures items == SynthDoc(recs, seed, limit)
  {
    var n := if limit < |recs| then limit else |recs|;
    var step := Stride(|recs|, n);
    ghost var doc := SynthDoc(recs, seed, limit);
    assert |doc| == n;
    items := [];
    var i := 0;
    ghost var k: nat := 0;
    while i < n * step
      invariant 0 <= k <= n && i == k * step
      invariant items == doc[..k]
    {
      DivOfMul(k, step);
      StrideBelow(k, n, step);
      SynthDocAt(recs, seed, limit, k);
      assert doc[..k + 1] == doc[..k] + [doc[k]];
      items := items + [DialogItem(recs[i % |recs|], seed, i / step)];
      MulSucc(k, step);
      i := i + step;
      k := k + 1;
    }
    StrideBelow(k, n, step);
    assert items == doc;
  }

  /** `k * step < n * step` exactly when `k < n`. */
  lemma StrideBelow(k: nat, n: nat, step: nat)
    requires step > 0
    ensures k * step < n * step <==> k < n
  {
    if k < n {
      MulMono(k + 1, n, step);
      MulSucc(k, step);
    } else {
      MulMono(n, k, step);
    }
  }

  // ---------------------------------------------------------------- grounding hits

  /** `p.split("'")[1]`: the text after the first quote up to the next one, if there is a quote. */
  function Segment(p: string): (seg: Option<string>)
    ensures seg.None? ==> forall i :: 0 <= i < |p| ==> p[i] != '\''
  {
    match SplitOnce(p, "'")
    case None =>
      NoSep(p);
      None
    case Some((before, after)) =>
      match SplitOnce(after, "'")
      case Some((seg, rest)) => Some(seg)
      case None => Some(after)
  }

  /** The segment sits between a quote and the rest of the prompt. */
  lemma SegmentInside(p: string) returns (a: string, b: string)
    requires Segment(p).Some?
    ensures p == (a + "'") + (Segment(p).value + b)
  {
    var (before, after) := SplitOnce(p, "'").value;
    a := before;
    match SplitOnce(after, "'")
    case Some((seg, rest)) =>
      b := "'" + rest;
      assert after == seg + b;
    case None =>
      b := "";
      assert after == after + b;
  }

  /** No split means no separator character anywhere. */
  lemma NoSep(p: string)
    requires SplitOnce(p, "'").None?
    ensures forall i :: 0 <= i < |p| ==> p[i] != '\''
  {
    forall i | 0 <= i < |p| ensures p[i] != '\'' {
      if p[i] == '\'' {
        FindReaches(p, 0, i);
      }
    }
  }

  /** `FindFrom` finds a one-character separator at or before any position that holds it. */
  lemma {:induction false} FindReaches(p: string, from: nat, i: nat)
    requires from <= i < |p| && p[i] == '\''
    ensures FindFrom(p, "'", from).Some?
    decreases i - from
  {
    if p[from..from + 1] != "'" {
      assert p[from..from + 1] == [p[from]];
      FindReaches(p, from + 1, i);
    }
  }

  /** `lemma and lemma.lower() in p.lower()`. */
  predicate Hit(p: string) {
    var seg := Segment(p);
    seg.Some? && seg.value != "" && Contains(Lower(p), Lower(seg.value))
  }

  /** The segment is always inside the prompt, so a prompt is a hit exactly when its segment is non-empty. */
  lemma HitRule(p: string)
    ensures Hit(p) <==> Segment(p).Some? && Segment(p).value != ""
  {
    var seg := Segment(p);
    if seg.Some? {
      var a, b := SegmentInside(p);
      LowerConcat(a + "'", seg.value + b);
      LowerConcat(seg.value, b);
      ContainsInside(Lower(a + "'"), Lower(seg.value), Lower(b));
    }
  }

  /** A text with no quote character. */
  predicate NoQuote(s: string) { forall i :: 0 <= i < |s| ==> s[i] != '\'' }

  /** The search stops at the first quote. */
  lemma {:induction false} FindFirst(s: string, from: nat, k: nat)
    requires from <= k < |s| && s[k] == '\'' && forall i :: from <= i < k ==> s[i] != '\''
    ensures FindFrom(s, "'", from) == Some(k)
    decreases k - from
  {
    assert s[from..from + 1] == [s[from]];
    if from < k {
      FindFirst(s, from + 1, k);
    }
  }

  /** The segment of `a'l'rest` is `l` when neither `a` nor `l` holds a quote. */
  lemma SegmentOf(a: string, l: string, rest: string)
    requires NoQuote(a) && NoQuote(l)
    ensures Segment(a + "'" + l + "'" + rest) == Some(l)
  {
    var p := a + "'" + l + "'" + rest;
    var after := l + "'" + rest;
    assert p == a + "'" + after;
    FindFirst(p, 0, |a|);
    assert p[..|a|] == a && p[|a| + 1..] == after;
    FindFirst(after, 0, |l|);
    assert after[..|l|] == l && after[|l| + 1..] == rest;
  }

  /**
   * A synthesized prompt grounds itself: when the lemma's text holds no
   * quote, the prompt is a hit exactly when that text is not empty.
   */
  lemma DialogPromptHit(r: map<string, Json>)
    requires NoQuote(Show(Get(r, "lemma", JNull)))
    ensures Segment(DialogPrompt(r)) == Some(Show(Get(r, "lemma", JNull)))
    ensures HitPrompt(JStr(DialogPrompt(r))) <==> Show(Get(r, "lemma", JNull)) != ""
  {
    var l := Show(Get(r, "lemma", JNull));
    var rest := " mean? (POS: " + Show(Get(r, "pos", JStr("?"))) + ")";
    var a := "What does ";
    assert NoQuote(a) by {
      forall i | 0 <= i < |a| ensures a[i] != '\'' {
        assert a[i] in {'W', 'h', 'a', 't', ' ', 'd', 'o', 'e', 's'};
      }
    }
    SegmentOf(a, l, rest);
    HitRule(DialogPrompt(r));
  }

  /** `b in a + b + c`. */
  lemma {:induction false} ContainsInside(a: string, b: string, c: string)
    ensures Contains(a + (b + c), b)
    decreases |a|
  {
    if |a| == 0 {
      assert a + (b + c) == b + c;
      assert (b + c)[..|b|] == b;
    } else {
      ContainsInside(a[1..], b, c);
      assert (a + (b + c))[1..] == a[1..] + (b + c);
    }
  }

  /** `sum(ord(c) for c in p)` succeeds: a string, or a list or object of single characters. */
  predicate OrdsOk(p: Json) {
    match p
    case JStr(_) => true
    case JArr(items) => forall i :: 0 <= i < |items| ==> items[i].JStr? && |items[i].s| == 1
    case JObj(f) => forall k :: k in f ==> |k| == 1
    case _ => false
  }

  /** An item `ord` accepts: a one-character string. */
  predicate OrdItem(x: Json) { x.JStr? && |x.s| == 1 }

  /** The `TypeError` `ord` raises on an item it does not accept. */
  function OrdItemError(x: Json): string {
    if x.JStr? then "ord() expected a character, but string of length " + IntToString(|x.s|) + " found"
    else "ord() expected string of length 1, but " + TypeName(x) + " found"
  }

  /**
   * The `TypeError` the prompt loop raises on a prompt it cannot read: a
   * prompt that is not iterable, or the first item of it that `ord` rejects.
   */
  function OrdError(p: Json): (e: string)
    requires !OrdsOk(p)
    ensures Iter(p).None? ==> e == "'" + TypeName(p) + "' object is not iterable"
    ensures Iter(p).Some? ==>
      exists i :: 0 <= i < |Iter(p).value| && !OrdItem(Iter(p).value[i])
        && (forall j :: 0 <= j < i ==> OrdItem(Iter(p).value[j]))
        && e == OrdItemError(Iter(p).value[i])
  {
    match Iter(p)
    case None => "'" + TypeName(p) + "' object is not iterable"
    case Some(xs) =>
      var i := FirstWhere(xs, x => !OrdItem(x));
      assert i < |xs| by {
        if p.JObj? {
          var k :| k in p.fields && |k| != 1;
          assert JStr(k) in xs;
        }
      }
      OrdItemError(xs[i])
  }

  /** The outcome of the prompt loop: the hit count, or the first prompt `ord` cannot read. */
  datatype Tally = Counted(hits: nat) | NotIterable(prompt: Json)

  /** A prompt that counts as a hit. */
  predicate HitPrompt(p: Json) { p.JStr? && Hit(p.s) }

  /** The number of hits among the prompts, or the error the first prompt that `ord` cannot read raises. */
  function HitCount(ps: seq<Json>): (r: Tally)
    ensures r.Counted? ==> r.hits <= |ps|
    ensures r.NotIterable? ==> !OrdsOk(r.prompt)
    decreases |ps|
  {
    if |ps| == 0 then Counted(0)
    else
      var init := ps[..|ps| - 1];
      var p := ps[|ps| - 1];
      match HitCount(init)
      case NotIterable(q) => NotIterable(q)
      case Counted(h) =>
        if !OrdsOk(p) then NotIterable(p)
        else Counted(h + (if HitPrompt(p) then 1 else 0))
  }

  /** The count fails exactly when some prompt cannot be read by `ord`. */
  lemma {:induction false} HitCountSucceeds(ps: seq<Json>)
    ensures HitCount(ps).Counted? <==> forall i :: 0 <= i < |ps| ==> OrdsOk(ps[i])
    decreases |ps|
  {
    if |ps| > 0 {
      var init := ps[..|ps| - 1];
      assert forall i :: 0 <= i < |init| ==> init[i] == ps[i];
      HitCountSucceeds(init);
    }
  }

  /** Every prompt a hit: the count is the number of prompts; none a hit: the count is zero. */
  lemma {:induction false} HitCountExtremes(ps: seq<Json>)
    requires HitCount(ps).Counted?
    ensures (forall i :: 0 <= i < |ps| ==> HitPrompt(ps[i])) ==> HitCount(ps).hits == |ps|
    ensures (forall i :: 0 <= i < |ps| ==> !HitPrompt(ps[i])) ==> HitCount(ps).hits == 0
    decreases |ps|
  {
    if |ps| > 0 {
      var init := ps[..|ps| - 1];
      assert forall i :: 0 <= i < |init| ==> init[i] == ps[i];
      HitCountExtremes(init);
    }
  }

  /** Appending a readable prompt adds one exactly when it is a hit. */
  lemma HitCountSnoc(ps: seq<Json>, p: Json)
    requires HitCount(ps).Counted? && OrdsOk(p)
    ensures HitCount(ps + [p]) == Counted(HitCount(ps).hits + if HitPrompt(p) then 1 else 0)
  {
    assert (ps + [p])[..|ps|] == ps;
    assert (ps + [p])[|ps|] == p;
  }

  /** The prompt loop of `eval_chat_core`. */
  method CountHits(ps: seq<Json>) returns (r: Tally)
    ensures r == HitCount(ps)
  {
    var hits := 0;
    var i := 0;
    while i < |ps|
      invariant 0 <= i <= |ps|
      invariant HitCount(ps[..i]) == Counted(hits)
    {
      var p := ps[i];
      if !OrdsOk(p) {
        HitCountStops(ps, i);
        return NotIterable(p);
      }
      var hit := PromptHit(p);
      HitCountStep(ps, i);
      if hit {
        hits := hits + 1;
      }
      i := i + 1;
    }
    assert ps[..i] == ps;
    r := Counted(hits);
  }

  /** One more readable prompt of the list. */
  lemma HitCountStep(ps: seq<Json>, i: nat)
    requires i < |ps| && HitCount(ps[..i]).Counted? && OrdsOk(ps[i])
    ensures HitCount(ps[..i + 1]) == Counted(HitCount(ps[..i]).hits + if HitPrompt(ps[i]) then 1 else 0)
  {
    assert ps[..i + 1] == ps[..i] + [ps[i]];
    HitCountSnoc(ps[..i], ps[i]);
  }

  /** The quoted-lemma test on one prompt; a prompt that is not a string has no lemma. */
  method PromptHit(p: Json) returns (hit: bool)
    ensures hit == HitPrompt(p)
  {
    var word := if p.JStr? then Segment(p.s) else None;
    hit := word.Some? && word.value != "" && Contains(Lower(p.s), Lower(word.value));
  }

  /** Once a prompt fails, so does every longer list. */
  lemma {:induction false} HitCountStops(ps: seq<Json>, i: nat)
    requires i < |ps| && HitCount(ps[..i]).Counted? && !OrdsOk(ps[i])
    ensures HitCount(ps) == NotIterable(ps[i])
    decreases |ps| - i
  {
    assert ps[..i + 1][..i] == ps[..i];
    if i + 1 < |ps| {
      FailureSticks(ps, i + 1);
    } else {
      assert ps[..i + 1] == ps;
    }
  }

  /** A failing prefix fails the whole list the same way. */
  lemma {:induction false} FailureSticks(ps: seq<Json>, j: nat)
    requires j <= |ps| && HitCount(ps[..j]).NotIterable?
    ensures HitCount(ps) == HitCount(ps[..j])
    decreases |ps| - j
  {
    if j == |ps| {
      assert ps[..j] == ps;
    } else {
      assert ps[..j + 1][..j] == ps[..j];
      FailureSticks(ps, j + 1);
    }
  }

  // ---------------------------------------------------------------- percentiles

  /** Python's `round` on `num / den`: to the nearest integer, ties to the even one. */
  function RoundHalfEven(num: int, den: int): (r: int)
    requires den > 0
    ensures num / den <= r <= num / den + 1
    ensures num % den == 0 ==> r == num / den
  {
    var f := num / den;
    var rem := num % den;
    if 2 * rem < den then f
    else if 2 * rem > den then f + 1
    else if f % 2 == 0 then f else f + 1
  }

  /** The index `pct(arr, q)` reads: `round(q / 100 * (len - 1))`, inside the list for 0 <= q <= 100. */
  function PctIndex(len: nat, q: int): (k: int)
    requires len > 0
    ensures 0 <= q <= 100 ==> 0 <= k < len
    ensures q == 0 ==> k == 0
    ensures q == 100 ==> k == len - 1
  {
    PctBounds(len, q);
    RoundHalfEven(q * (len - 1), 100)
  }

  lemma PctBounds(len: nat, q: int)
    requires len > 0
    ensures var x := q * (len - 1);
      (0 <= q <= 100 ==> 0 <= x / 100 && (x / 100 < len - 1 || (x / 100 == len - 1 && x % 100 == 0)))
      && (q == 100 ==> x / 100 == len - 1 && x % 100 == 0)
  {
    var x := q * (len - 1);
    if 0 <= q <= 100 {
      MulMono(q, 100, len - 1);
      assert 0 <= x <= 100 * (len - 1);
    }
    if q == 100 {
      assert x == (len - 1) * 100;
    }
  }

  /** `pct(arr, q)` for the sorted latencies: 0.0 for an empty list, else the element at `PctIndex`. */
  function Pct(arr: seq<real>, q: int): (v: real)
    requires 0 <= q <= 100
    ensures |arr| == 0 ==> v == 0.0
    ensures |arr| > 0 ==> v == arr[PctIndex(|arr|, q)] && v in arr
  {
    if |arr| == 0 then 0.0 else arr[PctIndex(|arr|, q)]
  }

  // ---------------------------------------------------------------- the chat evaluation

  /** The decoded lines of the dialog file (stored as one list); the file is only read when it is a file. */
  function DialogLines(t: Tree, seed: int): Result<seq<Json>> {
    var p := SynthPath(seed);
    if !IsFile(t, p) then Failure(IsADirectory(p))
    else
      match LoadJson(t, p)
      case Success(JArr(items)) => Success(items)
      case _ => Success([])
  }

  const PromptLines: nat := 100
  const DefaultPrompt: string := "What does 'example' mean?"

  /** The prompt an object line contributes. */
  function PromptOf(o: map<string, Json>): Json { Get(o, "prompt", JStr("")) }

  /** `obj.get("prompt", "")` for each of the lines that decode to an object, in order. */
  function PromptsOf(lines: seq<Json>): (ps: seq<Json>)
    ensures |ps| <= |lines|
    ensures |ps| == 0 <==> forall i :: 0 <= i < |lines| ==> !lines[i].JObj?
    ensures forall k :: 0 <= k < |ps| ==> exists i :: 0 <= i < |lines| && lines[i].JObj? && ps[k] == PromptOf(lines[i].fields)
    decreases |lines|
  {
    if |lines| == 0 then []
    else
      var init := lines[..|lines| - 1];
      var last := lines[|lines| - 1];
      var ps := PromptsOf(init) + (if last.JObj? then [PromptOf(last.fields)] else []);
      assert forall i :: 0 <= i < |init| ==> init[i] == lines[i];
      ps
  }

  /**
   * Reading line by line appends: the prompts of `a + b` are those of `a`
   * followed by those of `b`, so each object line contributes its prompt,
   * in file order, and every other line nothing.
   */
  lemma {:induction false} PromptsOfConcat(a: seq<Json>, b: seq<Json>)
    ensures PromptsOf(a + b) == PromptsOf(a) + PromptsOf(b)
    decreases |b|
  {
    if |b| == 0 {
      assert a + b == a;
    } else {
      var b' := b[..|b| - 1];
      var last := b[|b| - 1];
      var tail := if last.JObj? then [PromptOf(last.fields)] else [];
      assert (a + b)[..|a + b| - 1] == a + b';
      assert (a + b)[|a + b| - 1] == last;
      assert PromptsOf(a + b) == PromptsOf(a + b') + tail;
      assert PromptsOf(b) == PromptsOf(b') + tail;
      PromptsOfConcat(a, b');
      assert (PromptsOf(a) + PromptsOf(b')) + tail == PromptsOf(a) + (PromptsOf(b') + tail);
    }
  }

  lemma PromptsOfOne(line: Json)
    ensures PromptsOf([line]) == (if line.JObj? then [PromptOf(line.fields)] else [])
  {
    assert [line][..0] == [];
  }

  /** The prompts of the first 100 lines, or the one default prompt when none of them is an object. */
  function Prompts(lines: seq<Json>): (ps: seq<Json>)
    ensures 1 <= |ps| <= PromptLines
    ensures (exists i :: 0 <= i < |lines| && i < PromptLines && lines[i].JObj?) ==> ps == PromptsOf(Take(lines, PromptLines))
    ensures (forall i :: 0 <= i < |lines| && i < PromptLines ==> !lines[i].JObj?) ==> ps == [JStr(DefaultPrompt)]
  {
    var first := Take(lines, PromptLines);
    assert forall i :: 0 <= i < |first| ==> first[i] == lines[i] && i < PromptLines;
    var ps := PromptsOf(first);
    if |ps| == 0 then [JStr(DefaultPrompt)] else ps
  }

  /** The registry entry of the model, `{}` when it is absent or unreadable; an entry that is not an object raises. */
  function RegEntry(t: Tree, modelId: string): Result<map<string, Json>> {
    var p := EntryPath(ModelsDir, modelId);
    if !Exists(t, p) then Success(map[])
    else
      match LoadJson(t, p)
      case Failure(_) => Success(map[])
      case Success(reg) =>
        if reg.JObj? then Success(reg.fields) else Failure(NoGet(TypeName(reg)))
  }

  /** The metrics document of the chat evaluation. */
  function ChatPayload(modelId: Json, seed: int, reg: map<string, Json>, lat: seq<real>, hits: nat, n: nat,
                       lm: map<string, Json>): map<string, Json>
  {
    map["model_id" := modelId, "seed" := JInt(seed),
        "model_train_seed" := Get(reg, "train_seed", JNull), "nn_id" := Get(reg, "nn_id", JNull),
        "latency_ms" := JObj(map["p50" := JNum(Pct(lat, 50)), "p95" := JNum(Pct(lat, 95))]),
        "grounding_hit_rate" := JNum(hits as real / (if n > 1 then n else 1) as real),
        "lm" := JObj(lm)]
  }

  /** What a task returns (or raises) and the documents it wrote before returning. */
  datatype Outcome = Outcome(r: Result<map<string, Json>>, writes: seq<(string, Json)>)

  /** The evaluation once the dialog file is in place, on the tree `t` that holds it. */
  function ChatScore(t: Tree, modelId: Json, seed: int, lat: seq<real>, lm: map<string, Json>): Result<map<string, Json>> {
    var lines :- DialogLines(t, seed);
    var ps := Prompts(lines);
    var hits :- match HitCount(ps) case Counted(h) => Success(h) case NotIterable(p) => Failure(OrdError(p));
    var reg :- RegEntry(t, Show(modelId));
    Success(ChatPayload(modelId, seed, reg, lat, hits, |ps|, lm))
  }

  /**
   * `eval_chat_core(model_id, seed)`: the dialog file is made if missing, its
   * prompts scored, and the payload recorded as the model's chat metrics.
   * `lat` is the ascending list of measured latencies and `lm` the n-gram
   * summary, both outside this model.
   */
  function ChatEval(t: Tree, enc: Encoder, modelId: Json, seed: int, lat: seq<real>, lm: map<string, Json>, now: string)
    : Outcome
  {
    var synth := SynthWrites(t, seed, 200);
    Recorded(synth, ChatScore(Replay(t, enc, synth), modelId, seed, lat, lm), "chat", Show(modelId), now)
  }

  /** After the writes `before`, a successful payload is recorded as the model's metrics for `capability`. */
  function Recorded(before: seq<(string, Json)>, score: Result<map<string, Json>>, capability: string, id: string,
                    now: string): (o: Outcome)
    ensures o.r == score
    ensures score.Failure? ==> o.writes == before
    ensures score.Success? ==>
      o.writes == before + [(Recorder.MetricsPath(capability, id), JObj(Recorder.MetricsDoc(score.value, id, now)))]
  {
    match score
    case Failure(e) => Outcome(Failure(e), before)
    case Success(payload) =>
      Outcome(Success(payload), before + [(Recorder.MetricsPath(capability, id), JObj(Recorder.MetricsDoc(payload, id, now)))])
  }

  /** Scoring the prompts of the dialog file on `t`. */
  method Score(t: Tree, modelId: Json, seed: int, lat: seq<real>, lm: map<string, Json>) returns (r: Result<map<string, Json>>)
    ensures r == ChatScore(t, modelId, seed, lat, lm)
  {
    var lines := DialogLines(t, seed);
    if lines.Failure? {
      return Failure(lines.error);
    }
    var ps := Prompts(lines.value);
    var hits := CountHits(ps);
    if hits.NotIterable? {
      return Failure(OrdError(hits.prompt));
    }
    var reg := RegEntry(t, Show(modelId));
    if reg.Failure? {
      return Failure(reg.error);
    }
    r := Success(ChatPayload(modelId, seed, reg.value, lat, hits.hits, |ps|, lm));
  }

  /** A second call finds the file the first one wrote: it writes nothing and returns the path. */
  lemma SynthIdempotent(t: Tree, enc: Encoder, seed: int, limit: int)
    ensures var t1 := Replay(t, enc, SynthWrites(t, seed, limit));
      SynthWrites(t1, seed, limit) == [] && SynthResult(t1, seed, limit) == Success(SynthPath(seed))
  {
    var ws := SynthWrites(t, seed, limit);
    if ws == [] {
      assert Replay(t, enc, ws) == t;
    } else {
      ReplaySnoc(t, enc, [], SynthPath(seed), ws[0].1);
      assert [] + [ws[0]] == ws;
    }
  }

  /** Reading back a dialog file this job wrote yields exactly the lines it wrote. */
  lemma SynthReadBack(t: Tree, enc: Encoder, seed: int, limit: int)
    requires !Exists(t, SynthPath(seed))
    ensures DialogLines(Replay(t, enc, SynthWrites(t, seed, limit)), seed)
            == Success(SynthDoc(SynthRecords(t, limit), seed, limit))
  {
    var v := JArr(SynthDoc(SynthRecords(t, limit), seed, limit));
    ReplaySnoc(t, enc, [], SynthPath(seed), v);
  }

  /**
   * The scoring fails exactly when the dialog path is not a file, a prompt
   * cannot be read by `ord`, or the registry entry is not an object; on
   * success the payload has the seven documented keys, names the model and
   * the seed, and its hit rate lies between 0 and 1.
   */
  lemma ChatScoreOutcome(t: Tree, modelId: Json, seed: int, lat: seq<real>, lm: map<string, Json>)
    ensures ChatScore(t, modelId, seed, lat, lm).Success? <==>
      IsFile(t, SynthPath(seed))
      && (forall i :: 0 <= i < |Prompts(DialogLines(t, seed).value)| ==> OrdsOk(Prompts(DialogLines(t, seed).value)[i]))
      && RegEntry(t, Show(modelId)).Success?
  {
    var lines := DialogLines(t, seed);
    if lines.Success? {
      HitCountSucceeds(Prompts(lines.value));
    }
  }

  /** The payload's keys, its model and seed, and a hit rate between 0 and 1. */
  lemma ChatPayloadShape(modelId: Json, seed: int, reg: map<string, Json>, lat: seq<real>, hits: nat, n: nat,
                         lm: map<string, Json>)
    requires hits <= n
    ensures var d := ChatPayload(modelId, seed, reg, lat, hits, n, lm);
      d.Keys == {"model_id", "seed", "model_train_seed", "nn_id", "latency_ms", "grounding_hit_rate", "lm"}
      && d["model_id"] == modelId && d["seed"] == JInt(seed)
      && d["grounding_hit_rate"].JNum? && 0.0 <= d["grounding_hit_rate"].r <= 1.0
      && (n > 0 && hits == n ==> d["grounding_hit_rate"].r == 1.0)
  {
    var den := if n > 1 then n else 1;
    assert hits as real <= den as real;
  }

  /** `eval_chat_core`. */
  method EvalChatCore(store: Store, modelId: Json, seed: int, lat: seq<real>, lm: map<string, Json>, now: string)
    returns (r: Result<map<string, Json>>)
    modifies store
    ensures var o := ChatEval(old(store.tree), store.enc, modelId, seed, lat, lm, now);
      r == o.r && store.writes == old(store.writes) + o.writes && store.tree == Replay(old(store.tree), store.enc, o.writes)
  {
    ghost var t0 := store.tree;
    ghost var w0 := store.writes;
    var _ := SynthWordnetDialogs(store, seed, 200);
    ghost var synth := SynthWrites(t0, seed, 200);
    var score := Score(store.tree, modelId, seed, lat, lm);
    var id := Show(modelId);
    assert ChatEval(t0, store.enc, modelId, seed, lat, lm, now) == Recorded(synth, score, "chat", id, now);
    if score.Failure? {
      return score;
    }
    var payload := score.value;
    ghost var w := (Recorder.MetricsPath("chat", id), JObj(Recorder.MetricsDoc(payload, id, now)));
    var _ := Recorder.RecordMetrics(store, "chat", id, payload, now);
    ReplaySnoc(t0, store.enc, synth, w.0, w.1);
    ConcatAssoc(w0, synth, [w]);
    r := Success(payload);
  }

  // ---------------------------------------------------------------- dispatch

  const EvalModules: set<string> := {"lexicon-wordnet3", "chat-core", "predictor-finance"}

  /** `model_id or default`: the given id when truthy. */
  function ModelIdOr(modelId: Json, default: string): (r: Json)
    ensures Truthy(modelId) ==> r == modelId
    ensures !Truthy(modelId) ==> r == JStr(default)
  {
    if Truthy(modelId) then modelId else JStr(default)
  }

  function ChatDefault(seed: int): string { "chat_retrieval_" + IntToString(seed) }

  function PredictorDefault(seed: int): string { "predictor_ma_" + IntToString(seed) }

  /**
   * The action a module id selects. `predictor(id, seed)` is the
   * moving-average evaluation's payload (floating-point code outside this
   * model); its payload is recorded as the model's predictor metrics.
   */
  function EvalAction(t: Tree, enc: Encoder, name: string, modelId: Json, seed: int, lat: seq<real>, lm: map<string, Json>,
                      predictor: (string, int) -> map<string, Json>, now: string): Outcome
  {
    if name == "lexicon-wordnet3" then
      Outcome(Success(map["dataset" := JStr(SynthPath(seed))]), SynthWrites(t, seed, 200))
    else if name == "chat-core" then
      ChatEval(t, enc, ModelIdOr(modelId, ChatDefault(seed)), seed, lat, lm, now)
    else
      var id := Show(ModelIdOr(modelId, PredictorDefault(seed)));
      Recorded([], Success(predictor(id, seed)), "predictor", id, now)
  }

  /** `run(payload)`: the seed is parsed, the module checked, then the action runs and its output is stamped. */
  function EvalPlan(t: Tree, enc: Encoder, payload: map<string, Json>, lat: seq<real>, lm: map<string, Json>,
                    predictor: (string, int) -> map<string, Json>, now: string): Outcome
  {
    var moduleId := Get(payload, "module_id", JNull);
    match Seed(payload)
    case None => Outcome(Failure(SeedError(payload)), [])
    case Some(seed) =>
      match ModuleCheck(moduleId, EvalModules)
      case Failure(e) => Outcome(Failure(e), [])
      case Success(name) =>
        var o := EvalAction(t, enc, name, Get(payload, "model_id", JNull), seed, lat, lm, predictor, now);
        match o.r
        case Failure(e) => o
        case Success(out) => Outcome(Success(Train.Stamp(out, moduleId, seed)), o.writes)
  }

  /**
   * `run` raises exactly when the seed is not an integer, the module is not
   * an evaluation module, or the action raises; a successful output names
   * the module, the seed and status "ok", and the chat and predictor
   * evaluations default their model ids from the seed.
   */
  lemma EvalOutcome(t: Tree, enc: Encoder, payload: map<string, Json>, lat: seq<real>, lm: map<string, Json>,
                    predictor: (string, int) -> map<string, Json>, now: string)
    ensures var o := EvalPlan(t, enc, payload, lat, lm, predictor, now);
      var moduleId := Get(payload, "module_id", JNull);
      (Seed(payload).None? ==> o == Outcome(Failure(SeedError(payload)), []))
      && (Seed(payload).Some? && ModuleCheck(moduleId, EvalModules).Failure? ==> o.r.Failure? && o.writes == [])
      && (o.r.Success? ==>
            moduleId.JStr? && moduleId.s in EvalModules
            && o.r.value["module_id"] == moduleId && o.r.value["seed"] == JInt(Seed(payload).value)
            && o.r.value["status"] == JStr("ok"))
      && (Seed(payload).Some? && moduleId == JStr("chat-core") && !Truthy(Get(payload, "model_id", JNull)) ==>
            o == (var c := ChatEval(t, enc, JStr(ChatDefault(Seed(payload).value)), Seed(payload).value, lat, lm, now);
                  if c.r.Success? then Outcome(Success(Train.Stamp(c.r.value, moduleId, Seed(payload).value)), c.writes) else c))
  {
  }

  /** The module dispatch of `run`: the action `EvalAction` describes, carried out on the store. */
  method EvalDispatch(store: Store, name: string, modelId: Json, seed: int, lat: seq<real>, lm: map<string, Json>,
                      predictor: (string, int) -> map<string, Json>, now: string) returns (out: Result<map<string, Json>>)
    modifies store
    ensures var o := EvalAction(old(store.tree), store.enc, name, modelId, seed, lat, lm, predictor, now);
      out == o.r && store.writes == old(store.writes) + o.writes && store.tree == Replay(old(store.tree), store.enc, o.writes)
  {
    ghost var t0 := store.tree;
    if name == "lexicon-wordnet3" {
      var p := SynthWordnetDialogs(store, seed, 200);
      out := Success(map["dataset" := JStr(p.value)]);
    } else if name == "chat-core" {
      out := EvalChatCore(store, ModelIdOr(modelId, ChatDefault(seed)), seed, lat, lm, now);
    } else {
      var id := Show(ModelIdOr(modelId, PredictorDefault(seed)));
      var data := predictor(id, seed);
      var _ := Recorder.RecordMetrics(store, "predictor", id, data, now);
      ReplaySnoc(t0, store.enc, [], Recorder.MetricsPath("predictor", id), JObj(Recorder.MetricsDoc(data, id, now)));
      out := Success(data);
    }
  }

  /** `run(payload)` of the evaluate job. */
  method Run(store: Store, payload: map<string, Json>, lat: seq<real>, lm: map<string, Json>,
             predictor: (string, int) -> map<string, Json>, now: string) returns (r: Result<map<string, Json>>)
    modifies store
    ensures var o := EvalPlan(old(store.tree), store.enc, payload, lat, lm, predictor, now);
      r == o.r && store.writes == old(store.writes) + o.writes && store.tree == Replay(old(store.tree), store.enc, o.writes)
  {
    var moduleId := Get(payload, "module_id", JNull);
    var seedOpt := Seed(payload);
    if seedOpt.None? {
      return Failure(SeedError(payload));
    }
    var seed := seedOpt.value;
    var modelId := Get(payload, "model_id", JNull);
    var check := ModuleCheck(moduleId, EvalModules);
    if check.Failure? {
      return Failure(check.error);
    }
    assert Seed(payload) == Some(seed) && ModuleCheck(moduleId, EvalModules) == Success(check.value);
    var out := EvalDispatch(store, check.value, modelId, seed, lat, lm, predictor, now);
    if out.Failure? {
      return out;
    }
    r := Success(Train.Stamp(out.value, moduleId, seed));
  }
}
