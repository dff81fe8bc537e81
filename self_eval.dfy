/**
 * The self-reflection pass: every (prompt, response) pair is scored by the
 * lexical Jaccard similarity of its word sets, and a weakly grounded
 * response is optionally rewritten as an explicit answer.
 */
module SelfEval {
  import opened Wrappers
  import opened Text
  import opened Json
  import opened Fs

  /** `_score(a, b)`: Jaccard similarity of the two word sets, 1 when both are empty. */
  function Score(a: string, b: string): (s: real)
    ensures 0.0 <= s <= 1.0
    ensures s == 1.0 <==> LowerWords(a) == LowerWords(b)
    ensures s == 0.0 <==> LowerWords(a) * LowerWords(b) == {} && LowerWords(a) + LowerWords(b) != {}
  {
    Jaccard(LowerWords(a), LowerWords(b))
  }

  /** The similarity of two word sets, with `max(1, union)` as the divisor. */
  function Jaccard(ta: set<string>, tb: set<string>): (s: real)
    ensures 0.0 <= s <= 1.0
    ensures s == 1.0 <==> ta == tb
    ensures s == 0.0 <==> ta * tb == {} && ta + tb != {}
  {
    if ta == {} && tb == {} then 1.0
    else if ta == {} || tb == {} then 0.0
    else
      JaccardBounds(ta, tb);
      (|ta * tb| as real) / (|ta + tb| as real)
  }

  /** The overlap of two non-empty sets is at most their union, all of it exactly when they are equal. */
  lemma JaccardBounds(a: set<string>, b: set<string>)
    requires a != {} && b != {}
    ensures 0 < |a + b| && |a * b| <= |a + b|
    ensures |a * b| == |a + b| <==> a == b
  {
    assert |a - b| + |b - a| + |a * b| == |a + b|;
    if |a * b| == |a + b| {
      assert |a - b| == 0 && |b - a| == 0;
      assert a - b == {} && b - a == {};
      forall x | x in a ensures x in b {
        assert x !in a - b;
      }
      forall x | x in b ensures x in a {
        assert x !in b - a;
      }
    }
    var x :| x in a;
    assert x in a + b;
  }

  /** The score does not depend on the order of its arguments. */
  lemma ScoreSymmetric(a: string, b: string)
    ensures Score(a, b) == Score(b, a)
  {
    JaccardSymmetric(LowerWords(a), LowerWords(b));
  }

  lemma JaccardSymmetric(ta: set<string>, tb: set<string>)
    ensures Jaccard(ta, tb) == Jaccard(tb, ta)
  {
    assert ta * tb == tb * ta;
    assert ta + tb == tb + ta;
  }

  const RewriteReason: string := "low lexical grounding"

  /** `str(it.get('prompt') or '')` and `str(it.get('response') or '')`; an item that is not an object has no `.get`. */
  function ItemTexts(it: Json): Result<(string, string)> {
    if !it.JObj? then Failure(NoGet(TypeName(it)))
    else
      var o := it.fields;
      Success((Show(Or(Get(o, "prompt", JNull), JStr(""))), Show(Or(Get(o, "response", JNull), JStr("")))))
  }

  /**
   * The result record of a pair whose score is `s`; the rewrite fields are
   * present exactly when requested and the score is below one half.
   */
  function Judged(p: string, r: string, s: real, rewrite: bool): (o: map<string, Json>)
    ensures "prompt" in o && o["prompt"] == JStr(p) && "response" in o && o["response"] == JStr(r)
    ensures "score" in o && o["score"] == JNum(s)
    ensures ("rewritten" in o <==> rewrite && s < 0.5) && ("rewrite_reason" in o <==> "rewritten" in o)
    ensures "rewritten" in o ==> o["rewritten"] == JStr("Answer: " + r) && o["rewrite_reason"] == JStr(RewriteReason)
  {
    var base := map["prompt" := JStr(p), "response" := JStr(r), "score" := JNum(s)];
    if rewrite && s < 0.5 then base["rewritten" := JStr("Answer: " + r)]["rewrite_reason" := JStr(RewriteReason)]
    else base
  }

  /** The record of one pair. */
  function Record(pr: (string, string), rewrite: bool): map<string, Json> {
    Judged(pr.0, pr.1, Score(pr.0, pr.1), rewrite)
  }

  /** The record of one item; an item without `.get` raises. */
  function JudgeItem(rewrite: bool, it: Json): Result<Json> {
    var pr :- ItemTexts(it);
    Success(JObj(Record(pr, rewrite)))
  }

  function JudgeFn(rewrite: bool): Json -> Result<Json> { it => JudgeItem(rewrite, it) }

  /** The records of `items`, in order; the first item without `.get` raises. */
  function JudgedAll(items: seq<Json>, rewrite: bool): Result<seq<Json>> {
    MapResult(items, JudgeFn(rewrite))
  }

  /** One record per item, in order, each judging that item's texts; it fails exactly when some item is not an object. */
  lemma JudgedAllShape(items: seq<Json>, rewrite: bool)
    ensures JudgedAll(items, rewrite).Success? <==> forall i :: 0 <= i < |items| ==> items[i].JObj?
    ensures JudgedAll(items, rewrite).Success? ==>
      var rs := JudgedAll(items, rewrite).value;
      |rs| == |items| &&
      forall i :: 0 <= i < |items| ==> rs[i] == JObj(Record(ItemTexts(items[i]).value, rewrite))
  {
    MapResultShape(items, JudgeFn(rewrite));
  }

  /** The `for it in items` loop. */
  method JudgeItems(items: seq<Json>, rewrite: bool) returns (res: Result<seq<Json>>)
    ensures res == JudgedAll(items, rewrite)
  {
    res := MapAll(items, JudgeFn(rewrite));
  }

  /** The two pairs used when the payload brings none. */
  const DefaultItems: seq<Json> := [
    JObj(map["prompt" := JStr("define apple"), "response" := JStr("apple is a fruit")]),
    JObj(map["prompt" := JStr("what is run"), "response" := JStr("run means to move fast")])
  ]

  /** `payload.get('items') or []`, replaced by the built-in pairs when empty; a value that cannot be iterated raises. */
  function Items(payload: map<string, Json>): (r: Result<seq<Json>>)
    ensures !Truthy(Get(payload, "items", JNull)) ==> r == Success(DefaultItems)
    ensures r.Success? && Truthy(Get(payload, "items", JNull)) ==> Some(r.value) == Iter(Get(payload, "items", JNull))
    ensures var v := Get(payload, "items", JNull);
      && (v.JArr? && |v.items| > 0 ==> r == Success(v.items))
      && (v.JObj? && |v.fields| > 0 ==> r.Success? && |r.value| == |v.fields| && forall i :: 0 <= i < |r.value| ==> r.value[i].JStr?)
      && ((v.JInt? || v.JNum? || v.JBool?) && Truthy(v) ==> r == Failure("'" + TypeName(v) + "' object is not iterable"))
  {
    var items := Or(Get(payload, "items", JNull), JArr([]));
    if !Truthy(items) then Success(DefaultItems)
    else match Iter(items)
      case Some(xs) => Success(xs)
      case None => Failure("'" + TypeName(items) + "' object is not iterable")
  }

  function SelfEvalPath(seed: int): string {
    Child(Child(ArtifactsDir, "chat"), "self_eval_" + IntToString(seed) + ".json")
  }

  /** What `run(payload)` returns and writes; `now` is `now_iso()`. */
  function Plan(payload: map<string, Json>, now: string): Result<Effect> {
    var seed :- IntArg(payload, "seed", 1337);
    var items :- Items(payload);
    var results :- JudgedAll(items, Truthy(Get(payload, "rewrite", JNull)));
    var path := SelfEvalPath(seed);
    Success(Effect(map["status" := JStr("ok"), "self_eval" := JStr(path), "count" := JInt(|results|)],
                   [(path, JObj(map["created_at" := JStr(now), "items" := JArr(results)]))]))
  }

  /** A successful pass reports one result per input pair (two without input) and writes only its artifact. */
  lemma PlanOutcome(payload: map<string, Json>, now: string)
    ensures var plan := Plan(payload, now);
      plan.Success? ==>
        Items(payload).Success? && Seed(payload).Some?
        && plan.value.out["count"] == JInt(|Items(payload).value|)
        && (!Truthy(Get(payload, "items", JNull)) ==> plan.value.out["count"] == JInt(2))
        && plan.value.writes == [(SelfEvalPath(Seed(payload).value), plan.value.writes[0].1)]
  {
    var plan := Plan(payload, now);
    if plan.Success? {
      var items := Items(payload).value;
      JudgedAllShape(items, Truthy(Get(payload, "rewrite", JNull)));
    }
  }

  /** A non-empty object as `items` is iterated by key, and the first key has no `.get`. */
  lemma ObjectItemsRaise(payload: map<string, Json>, now: string)
    requires Seed(payload).Some?
    requires var v := Get(payload, "items", JNull); v.JObj? && |v.fields| > 0
    ensures Plan(payload, now) == Failure(NoGet("str"))
  {
    var items := Items(payload).value;
    StrFirstRaises(items, Truthy(Get(payload, "rewrite", JNull)));
  }

  lemma StrFirstRaises(items: seq<Json>, rewrite: bool)
    requires |items| > 0 && items[0].JStr?
    ensures JudgedAll(items, rewrite) == Failure(NoGet("str"))
  {
    var f := JudgeFn(rewrite);
    var one := items[..1];
    assert one[..0] == [] && one[0] == items[0];
    assert MapResult(one[..0], f) == Success([]);
    MapResultFails(items, f, 1);
  }

  /** `run(payload)`: nothing is written when it raises. */
  method Run(store: Store, payload: map<string, Json>, now: string) returns (r: Result<Json>)
    modifies store
    ensures match Plan(payload, now)
      case Failure(err) => r == Failure(err) && store.tree == old(store.tree) && store.writes == old(store.writes)
      case Success(e) => (r == Success(JObj(e.out)) && store.writes == old(store.writes) + e.writes
                          && store.tree == Replay(old(store.tree), store.enc, e.writes))
  {
    var seed := IntArg(payload, "seed", 1337);
    if seed.Failure? {
      return Failure(seed.error);
    }
    var items := Items(payload);
    if items.Failure? {
      return Failure(items.error);
    }
    var results := JudgeItems(items.value, Truthy(Get(payload, "rewrite", JNull)));
    if results.Failure? {
      return Failure(results.error);
    }
    var path := SelfEvalPath(seed.value);
    ghost var t0 := store.tree;
    store.WriteJson(path, JObj(map["created_at" := JStr(now), "items" := JArr(results.value)]));
    ReplaySnoc(t0, store.enc, [], path, JObj(map["created_at" := JStr(now), "items" := JArr(results.value)]));
    return Success(JObj(map["status" := JStr("ok"), "self_eval" := JStr(path), "count" := JInt(|results.value|)]));
  }
}
