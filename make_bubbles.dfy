/**
 * The bubble curriculum: chat examples from one dataset file are grouped
 * into buckets by the length of their prompt, each example going to the
 * first length cut it fits under.
 */
module MakeBubbles {
  import opened Wrappers
  import opened Text
  import opened Json
  import opened Fs
  import Bubble

  /** The bucket of examples longer than every cut. */
  const Overflow: string := "> 256"

  const DefaultCuts: seq<Json> := [JInt(16), JInt(32), JInt(64), JInt(128), JInt(256)]

  /** The bucket name `f"<= {c}"`. */
  function CutKey(c: Json): (k: string)
    ensures k != Overflow
  {
    assert ("<= " + Show(c))[0] == '<';
    "<= " + Show(c)
  }

  /** Bucket names as `str` writes the cut: an int as its digits, a whole float with ".0". */
  lemma CutKeyExamples()
    ensures CutKey(JInt(16)) == "<= 16"
    ensures CutKey(JNum(16.0)) == "<= 16.0"
  {
    assert NatToString(16) == "16";
    assert IntToString(16) == "16";
    ShowWholeFloat(16);
  }

  /** A float cut with decimals keeps them, and its sign. */
  lemma CutKeyDecimals()
    ensures CutKey(JNum(16.5)) == "<= 16.5"
    ensures CutKey(JNum(-0.25)) == "<= -0.25"
  {
    assert NatToString(16) == "16";
    assert FracValue("5") == 0.5;
    ShowFloat(16.5, 16, "5");
    assert FracValue("25") == 0.25;
    ShowFloat(0.25, 0, "25");
    ShowNegativeFloat(0.25);
  }

  /** `L <= c`: None where the comparison raises. */
  function AtMost(n: int, c: Json): Option<bool> {
    match c
    case JInt(m) => Some(n <= m)
    case JBool(b) => Some(n <= (if b then 1 else 0))
    case JNum(x) => Some(n as real <= x)
    case _ => None
  }

  /** The bucket of an example whose prompt has length `n`: the first cut it fits under, else the overflow bucket. */
  function Place(n: int, cuts: seq<Json>): Result<string>
    decreases |cuts|
  {
    if |cuts| == 0 then Success(Overflow)
    else match AtMost(n, cuts[0])
      case None => Failure("'<=' not supported between instances of 'int' and '" + TypeName(cuts[0]) + "'")
      case Some(fits) => if fits then Success(CutKey(cuts[0])) else Place(n, cuts[1..])
  }

  /**
   * An example goes to the first cut, in list order, that its length fits
   * under, and to the overflow bucket when it fits under none.
   */
  lemma {:induction false} PlaceFirst(n: int, cuts: seq<Json>)
    ensures var r := Place(n, cuts);
      r.Success? ==>
        (r.value == Overflow && forall j :: 0 <= j < |cuts| ==> AtMost(n, cuts[j]) == Some(false))
        || (exists j :: 0 <= j < |cuts| && AtMost(n, cuts[j]) == Some(true) && r.value == CutKey(cuts[j])
                        && forall i :: 0 <= i < j ==> AtMost(n, cuts[i]) == Some(false))
    ensures (forall j :: 0 <= j < |cuts| ==> AtMost(n, cuts[j]).Some?) ==> Place(n, cuts).Success?
    decreases |cuts|
  {
    if |cuts| > 0 && AtMost(n, cuts[0]) == Some(false) {
      PlaceFirst(n, cuts[1..]);
      var r := Place(n, cuts);
      if r.Success? && r.value != Overflow {
        var j :| 0 <= j < |cuts[1..]| && AtMost(n, cuts[1..][j]) == Some(true) && r.value == CutKey(cuts[1..][j])
                 && forall i :: 0 <= i < j ==> AtMost(n, cuts[1..][i]) == Some(false);
        assert AtMost(n, cuts[j + 1]) == Some(true) && r.value == CutKey(cuts[j + 1]);
        forall i | 0 <= i < j + 1 ensures AtMost(n, cuts[i]) == Some(false) {
          if i > 0 {
            assert cuts[i] == cuts[1..][i - 1];
          }
        }
      }
      if r.Success? && r.value == Overflow {
        forall j | 0 <= j < |cuts| ensures AtMost(n, cuts[j]) == Some(false) {
          if j > 0 {
            assert cuts[j] == cuts[1..][j - 1];
          }
        }
      }
      if forall j :: 0 <= j < |cuts| ==> AtMost(n, cuts[j]).Some? {
        assert forall j :: 0 <= j < |cuts[1..]| ==> cuts[1..][j] == cuts[j + 1];
      }
    }
  }

  /** The inner `for c in cuts` loop with its `placed` flag. */
  method PlaceOf(n: int, cuts: seq<Json>) returns (r: Result<string>)
    ensures r == Place(n, cuts)
  {
    var j := 0;
    var placed := false;
    r := Success(Overflow);
    while j < |cuts|
      invariant 0 <= j <= |cuts|
      invariant Place(n, cuts) == Place(n, cuts[j..])
    {
      assert cuts[j..][1..] == cuts[j + 1..];
      var fits := AtMost(n, cuts[j]);
      if fits.None? {
        return Failure("'<=' not supported between instances of 'int' and '" + TypeName(cuts[j]) + "'");
      }
      if fits.value {
        r := Success(CutKey(cuts[j]));
        placed := true;
        break;
      }
      j := j + 1;
    }
    if !placed {
      r := Success(Overflow);
    }
  }

  /** The indices `i` with `places[i] == k`, ascending. */
  function Indices(places: seq<string>, k: string): seq<nat>
    decreases |places|
  {
    if |places| == 0 then []
    else Indices(places[..|places| - 1], k) + (if places[|places| - 1] == k then [|places| - 1] else [])
  }

  /** `Indices` holds exactly the positions of `k`, in strictly ascending order. */
  lemma {:induction false} IndicesExact(places: seq<string>, k: string)
    ensures forall i :: i in Indices(places, k) <==> 0 <= i < |places| && places[i] == k
    ensures forall a, b :: 0 <= a < b < |Indices(places, k)| ==> Indices(places, k)[a] < Indices(places, k)[b]
    ensures k !in places ==> Indices(places, k) == []
    decreases |places|
  {
    if |places| > 0 {
      var init := places[..|places| - 1];
      IndicesExact(init, k);
      assert forall i :: 0 <= i < |init| ==> init[i] == places[i];
      var q := Indices(init, k);
      if places[|init|] == k {
        forall a, b | 0 <= a < b < |q| + 1 ensures (q + [|init|])[a] < (q + [|init|])[b] {
          if b == |q| {
            assert q[a] in q;
          }
        }
      }
    }
  }

  /** The buckets after `bubbles[places[i]].append(i)` for every `i` in order. */
  function Group(init: map<string, seq<nat>>, places: seq<string>): map<string, seq<nat>>
    decreases |places|
  {
    if |places| == 0 then init
    else
      var g := Group(init, places[..|places| - 1]);
      var k := places[|places| - 1];
      g[k := (if k in g then g[k] else []) + [|places| - 1]]
  }

  /** Each bucket holds its initial indices followed by the positions placed in it, in order. */
  lemma {:induction false} GroupIndices(init: map<string, seq<nat>>, places: seq<string>)
    ensures forall k :: k in Group(init, places) <==> k in init || k in places
    ensures forall k :: k in Group(init, places) ==>
      Group(init, places)[k] == (if k in init then init[k] else []) + Indices(places, k)
    decreases |places|
  {
    if |places| > 0 {
      var front := places[..|places| - 1];
      GroupIndices(init, front);
      forall k ensures k in places <==> k in front || k == places[|places| - 1] {
        if k in places {
          var i :| 0 <= i < |places| && places[i] == k;
          if i < |places| - 1 {
            assert front[i] == k;
          }
        }
      }
      forall k | k in Group(init, places)
        ensures Group(init, places)[k] == (if k in init then init[k] else []) + Indices(places, k)
      {
        GroupEntry(init, places, k);
      }
    }
  }

  /** One bucket after one more placement, given that it held the right indices before it. */
  lemma GroupEntry(init: map<string, seq<nat>>, places: seq<string>, k: string)
    requires |places| > 0 && k in Group(init, places)
    requires var g := Group(init, places[..|places| - 1]);
      k in g ==> g[k] == (if k in init then init[k] else []) + Indices(places[..|places| - 1], k)
    requires k in Group(init, places[..|places| - 1]) <==> k in init || k in places[..|places| - 1]
    ensures Group(init, places)[k] == (if k in init then init[k] else []) + Indices(places, k)
  {
    var n := |places| - 1;
    var front := places[..n];
    var g := Group(init, front);
    var pre := if k in init then init[k] else [];
    assert Group(init, places) == g[places[n] := (if places[n] in g then g[places[n]] else []) + [n]];
    if k == places[n] {
      assert Indices(places, k) == Indices(front, k) + [n];
      if k !in g {
        IndicesExact(front, k);
      }
      assert (pre + Indices(front, k)) + [n] == pre + (Indices(front, k) + [n]);
    } else {
      assert Indices(places, k) == Indices(front, k) + [];
      assert Indices(front, k) + [] == Indices(front, k);
    }
  }

  /** The empty buckets: one per cut and the overflow bucket, which is there whatever the cuts. */
  function InitBuckets(cuts: seq<Json>): (b: map<string, seq<nat>>)
    ensures Overflow in b
    ensures forall k :: k in b <==> k == Overflow || exists c :: c in cuts && k == CutKey(c)
    ensures forall k :: k in b ==> b[k] == []
  {
    var keys := (set c | c in cuts :: CutKey(c)) + {Overflow};
    map k | k in keys :: []
  }

  function PlaceFn(cuts: seq<Json>): ((string, string)) -> Result<string> { (ex: (string, string)) => Place(|ex.0|, cuts) }

  /** The buckets of `items`; the first comparison that raises is the outcome. */
  function Buckets(items: seq<(string, string)>, cuts: seq<Json>): Result<map<string, seq<nat>>> {
    var places :- MapResult(items, PlaceFn(cuts));
    Success(Group(InitBuckets(cuts), places))
  }

  /** Every example index lands in exactly one bucket, its own place, and each bucket is ascending. */
  lemma BucketsPartition(items: seq<(string, string)>, cuts: seq<Json>)
    ensures var r := Buckets(items, cuts);
      r.Success? ==>
        Overflow in r.value
        && (forall i :: 0 <= i < |items| ==>
              (Place(|items[i].0|, cuts).Success?
               && Place(|items[i].0|, cuts).value in r.value
               && forall k :: k in r.value ==> (i in r.value[k] <==> k == Place(|items[i].0|, cuts).value)))
        && (forall k :: k in r.value ==> forall i :: i in r.value[k] ==> i < |items|)
        && (forall k :: k in r.value ==> forall a, b :: 0 <= a < b < |r.value[k]| ==> r.value[k][a] < r.value[k][b])
  {
    var pl := MapResult(items, PlaceFn(cuts));
    MapResultShape(items, PlaceFn(cuts));
    if pl.Success? {
      var places := pl.value;
      var init := InitBuckets(cuts);
      GroupIndices(init, places);
      var b := Group(init, places);
      forall k | k in b
        ensures b[k] == Indices(places, k)
        ensures forall i :: i in b[k] <==> 0 <= i < |places| && places[i] == k
        ensures forall a, c :: 0 <= a < c < |b[k]| ==> b[k][a] < b[k][c]
      {
        if k in init {
          assert init[k] == [];
          assert [] + Indices(places, k) == Indices(places, k);
        }
        IndicesExact(places, k);
      }
      forall i | 0 <= i < |items| ensures places[i] in b {
        assert places[i] in places;
      }
    }
  }

  /** The outer loop over the examples, appending each index to its bucket. */
  method Bucketize(items: seq<(string, string)>, cuts: seq<Json>) returns (r: Result<map<string, seq<nat>>>)
    ensures r == Buckets(items, cuts)
  {
    var bubbles := InitBuckets(cuts);
    ghost var places: seq<string> := [];
    var i := 0;
    while i < |items|
      invariant 0 <= i <= |items|
      invariant MapResult(items[..i], PlaceFn(cuts)) == Success(places)
      invariant |places| == i
      invariant bubbles == Group(InitBuckets(cuts), places)
    {
      var k := PlaceOf(|items[i].0|, cuts);
      if k.Failure? {
        assert items[..i + 1][..i] == items[..i];
        MapResultFails(items, PlaceFn(cuts), i + 1);
        return Failure(k.error);
      }
      MapResultSnoc(items, PlaceFn(cuts), i, places);
      assert (places + [k.value])[..i] == places;
      places := places + [k.value];
      bubbles := bubbles[k.value := (if k.value in bubbles then bubbles[k.value] else []) + [i]];
      i := i + 1;
    }
    assert items[..|items|] == items;
    return Success(bubbles);
  }

  /** One example: `obj.get('prompt') or obj.get('text') or obj.get('question') or ''` and its response; a line that is not an object raises. */
  function BubbleItem(l: DataLine): Result<(string, string)> {
    var obj := LineDoc(l);
    if !obj.JObj? then Failure(NoGet(TypeName(obj)))
    else
      var o := obj.fields;
      Success((Show(Or(Get(o, "prompt", JNull), Or(Get(o, "text", JNull), Or(Get(o, "question", JNull), JStr(""))))),
               Show(Or(Get(o, "response", JNull), Or(Get(o, "answer", JNull), JStr(""))))))
  }

  /** The uploads whose stem is the dataset id, in listing order. */
  function Named(uploads: seq<Source>, dsId: string): (r: seq<Source>)
    ensures forall s :: s in r <==> s in uploads && Stem(s.name) == dsId
    decreases |uploads|
  {
    if |uploads| == 0 then []
    else
      var init := uploads[..|uploads| - 1];
      var last := uploads[|uploads| - 1];
      assert forall s :: s in uploads <==> s in init || s == last;
      Named(init, dsId) + (if Stem(last.name) == dsId then [last] else [])
  }

  /**
   * The candidate sources: the uploads named after the dataset, else the
   * synthetic dialogs, else all uploads (each list in sorted order).
   */
  function Sources(uploads: seq<Source>, synths: seq<Source>, dsId: string): (r: seq<Source>)
    ensures |Named(uploads, dsId)| > 0 ==> r == Named(uploads, dsId)
    ensures |Named(uploads, dsId)| == 0 && |synths| > 0 ==> r == synths
    ensures |Named(uploads, dsId)| == 0 && |synths| == 0 ==> r == uploads
  {
    if |Named(uploads, dsId)| > 0 then Named(uploads, dsId) else if |synths| > 0 then synths else uploads
  }

  const MaxLines: nat := 1000

  /** The examples: only the first source is read, and at most its first 1000 lines. */
  function ReadItems(sources: seq<Source>): (r: Result<seq<(string, string)>>)
    ensures |sources| == 0 ==> r == Success([])
    ensures r.Success? && |sources| > 0 ==>
      |r.value| == |Take(sources[0].lines, MaxLines)| && |r.value| <= MaxLines
      && forall i :: 0 <= i < |r.value| ==> Success(r.value[i]) == BubbleItem(sources[0].lines[i])
  {
    if |sources| == 0 then Success([])
    else
      var lines := Take(sources[0].lines, MaxLines);
      MapResultShape(lines, BubbleItem);
      MapResult(lines, BubbleItem)
  }

  /** `payload.get('buckets') or [16, 32, 64, 128, 256]`; a value that cannot be iterated raises. */
  function Cuts(payload: map<string, Json>): (r: Result<seq<Json>>)
    ensures !Truthy(Get(payload, "buckets", JNull)) ==> r == Success(DefaultCuts)
    ensures var v := Get(payload, "buckets", JNull);
      && (v.JArr? && |v.items| > 0 ==> r == Success(v.items))
      && (v.JObj? && |v.fields| > 0 ==> r.Success? && |r.value| == |v.fields|
                                        && (forall i :: 0 <= i < |r.value| ==> r.value[i].JStr? && r.value[i].s in v.fields)
                                        && (forall k :: k in v.fields ==> JStr(k) in r.value))
      && ((v.JInt? || v.JNum? || v.JBool?) && Truthy(v) ==> r == Failure("'" + TypeName(v) + "' object is not iterable"))
  {
    var cuts := Or(Get(payload, "buckets", JNull), JArr(DefaultCuts));
    match Iter(cuts)
    case Some(xs) => Success(xs)
    case None => Failure("'" + TypeName(cuts) + "' object is not iterable")
  }

  function IntList(xs: seq<nat>): Json {
    JArr(seq(|xs|, i requires 0 <= i < |xs| => JInt(xs[i])))
  }

  function BubblesPath(dsId: string, seed: int): string {
    Child(Bubble.BubbleDir, "bubbles_" + dsId + "_" + IntToString(seed) + ".json")
  }

  /** The curriculum document. */
  function CurriculumDoc(dsId: string, seed: int, now: string, b: map<string, seq<nat>>, count: nat, sourceCount: nat): Json {
    JObj(map["dataset_id" := JStr(dsId), "seed" := JInt(seed), "built_at" := JStr(now),
             "buckets" := JObj(map k | k in b :: IntList(b[k])),
             "count" := JInt(count), "source_count" := JInt(sourceCount)])
  }

  /**
   * What `run(payload)` returns and writes; `uploads` and `synths` are the
   * sorted listings of the uploaded and synthetic dataset files, `now` is
   * `now_iso()`.
   */
  function Plan(payload: map<string, Json>, uploads: seq<Source>, synths: seq<Source>, now: string): Result<Effect> {
    var seed :- IntArg(payload, "seed", 1337);
    var dsId := Show(Get(payload, "dataset_id", JStr("wordnet_synth")));
    var sources := Sources(uploads, synths, dsId);
    var items :- ReadItems(sources);
    var cuts :- Cuts(payload);
    var b :- Buckets(items, cuts);
    var path := BubblesPath(dsId, seed);
    Success(Effect(map["status" := JStr("ok"), "bubbles" := JStr(path)],
                   [(path, CurriculumDoc(dsId, seed, now, b, |items|, |sources|))]))
  }

  /** The document counts the examples read and every candidate source, though only the first is read. */
  lemma PlanCounts(payload: map<string, Json>, uploads: seq<Source>, synths: seq<Source>, now: string)
    ensures var plan := Plan(payload, uploads, synths, now);
      var dsId := Show(Get(payload, "dataset_id", JStr("wordnet_synth")));
      var sources := Sources(uploads, synths, dsId);
      plan.Success? ==>
        ReadItems(sources).Success? && |plan.value.writes| == 1
        && plan.value.writes[0].1.JObj?
        && plan.value.writes[0].1.fields["count"] == JInt(|ReadItems(sources).value|)
        && plan.value.writes[0].1.fields["source_count"] == JInt(|sources|)
        && |ReadItems(sources).value| <= MaxLines
  {
  }

  /** `run(payload)`: nothing is written when it raises. */
  method Run(store: Store, payload: map<string, Json>, uploads: seq<Source>, synths: seq<Source>, now: string)
    returns (r: Result<Json>)
    modifies store
    ensures match Plan(payload, uploads, synths, now)
      case Failure(err) => r == Failure(err) && store.tree == old(store.tree) && store.writes == old(store.writes)
      case Success(e) => (r == Success(JObj(e.out)) && store.writes == old(store.writes) + e.writes
                          && store.tree == Replay(old(store.tree), store.enc, e.writes))
  {
    var seed := IntArg(payload, "seed", 1337);
    if seed.Failure? {
      return Failure(seed.error);
    }
    var dsId := Show(Get(payload, "dataset_id", JStr("wordnet_synth")));
    var sources := Sources(uploads, synths, dsId);
    var items: Result<seq<(string, string)>> := Success([]);
    if |sources| > 0 {
      items := MapAll(Take(sources[0].lines, MaxLines), BubbleItem);
    }
    if items.Failure? {
      return Failure(items.error);
    }
    var cuts := Cuts(payload);
    if cuts.Failure? {
      return Failure(cuts.error);
    }
    var b := Bucketize(items.value, cuts.value);
    if b.Failure? {
      return Failure(b.error);
    }
    var path := BubblesPath(dsId, seed.value);
    var doc := CurriculumDoc(dsId, seed.value, now, b.value, |items.value|, |sources|);
    ghost var t0 := store.tree;
    store.WriteJson(path, doc);
    ReplaySnoc(t0, store.enc, [], path, doc);
    return Success(JObj(map["status" := JStr("ok"), "bubbles" := JStr(path)]));
  }
}
