/**
 * `apply_guardrails(text, cfg)`: word truncation to `max_tokens`, masking of
 * configured PII patterns with "[PII]", and flagging of configured content
 * categories. Regular-expression matching is abstract: a `Regex` supplies
 * whether a pattern compiles, whether it matches, its substitution, and the
 * case-insensitive whole-word search used for content categories.
 */
module Guardrails {
  import opened Wrappers
  import opened Json
  import opened Text

  datatype Regex = Regex(
    compiles: string -> bool,
    search: (string, string) -> bool,
    sub: (string, string, string) -> string,
    wordSearch: (string, string) -> bool)

  /** One entry of the `actions` list; patterns and categories are the configured values. */
  datatype Action =
    | Truncate(maxTokens: int)
    | PiiMask(pattern: Json)
    | ContentFlag(categories: seq<Json>)
    | AntiEcho

  datatype Guarded = Guarded(original: string, result: string, actions: seq<Action>)

  function ActionJson(a: Action): Json {
    match a
    case Truncate(m) => JObj(map["type" := JStr("truncate"), "max_tokens" := JInt(m)])
    case PiiMask(p) => JObj(map["type" := JStr("pii_mask"), "pattern" := p])
    case ContentFlag(cs) => JObj(map["type" := JStr("content_flag"), "categories" := JArr(cs)])
    case AntiEcho => JObj(map["type" := JStr("anti_echo"), "reason" := JStr("output matched input")])
  }

  function GuardedJson(g: Guarded): Json {
    JObj(map[
      "original" := JStr(g.original),
      "result" := JStr(g.result),
      "actions" := JArr(seq(|g.actions|, i requires 0 <= i < |g.actions| => ActionJson(g.actions[i])))])
  }

  /** `a` is `b` with some elements deleted. */
  predicate SubSeq<T(==)>(a: seq<T>, b: seq<T>)
    decreases |b|
  {
    if |b| == 0 then |a| == 0
    else SubSeq(a, b[1..]) || (|a| > 0 && a[0] == b[0] && SubSeq(a[1..], b[1..]))
  }

  // ---------------------------------------------------------------- configuration

  /** `int(cfg.get("max_tokens", 256))`. */
  function MaxTokens(cfg: map<string, Json>): (r: Result<int>)
    ensures "max_tokens" !in cfg ==> r == Success(256)
  {
    var v := Get(cfg, "max_tokens", JInt(256));
    match IntOf(v)
    case Some(n) => Success(n)
    case None => Failure(IntError(v))
  }

  /** The values `for x in cfg.get(key, []) or []` visits. */
  function ConfigList(cfg: map<string, Json>, key: string): (r: Result<seq<Json>>)
    ensures !Truthy(Get(cfg, key, JArr([]))) ==> r == Success([])
    ensures var v := Get(cfg, key, JArr([]));
      && (v.JArr? ==> r == Success(v.items))
      && (v.JStr? ==> r.Success? && |r.value| == |v.s|)
      && (v.JObj? ==> r.Success? && |r.value| == |v.fields| && (forall i :: 0 <= i < |r.value| ==> r.value[i].JStr? && r.value[i].s in v.fields)
                                        && (forall k :: k in v.fields ==> JStr(k) in r.value))
      && ((v.JInt? || v.JNum? || v.JBool?) && Truthy(v) ==> r == Failure("'" + TypeName(v) + "' object is not iterable"))
  {
    var v := Get(cfg, key, JArr([]));
    if !Truthy(v) then Success([])
    else match Iter(v)
      case Some(xs) => Success(xs)
      case None => Failure("'" + TypeName(v) + "' object is not iterable")
  }

  // ---------------------------------------------------------------- the three steps

  /** Truncation by whitespace-separated words. */
  function Truncation(text: string, maxTokens: int): (r: (string, seq<Action>))
    ensures |Words(text)| > maxTokens ==>
              r.1 == [Truncate(maxTokens)] && Words(r.0) == Take(Words(text), maxTokens)
    ensures |Words(text)| <= maxTokens ==> r == (text, [])
  {
    var tokens := Words(text);
    if |tokens| > maxTokens then
      KeptWords(text, maxTokens);
      (JoinSpace(Take(tokens, maxTokens)), [Truncate(maxTokens)])
    else (text, [])
  }

  /** Re-splitting the kept words gives them back. */
  lemma KeptWords(text: string, k: int)
    ensures Words(JoinSpace(Take(Words(text), k))) == Take(Words(text), k)
  {
    var tokens := Words(text);
    var kept := Take(tokens, k);
    TokensAreRuns(text, NotSpace);
    assert forall w :: w in kept ==> w in tokens;
    assert forall w :: w in kept ==> IsWord(w);
    WordsOfJoin(kept);
  }

  /**
   * What `re.compile` raises for a pattern that is not a string. Its cache
   * lookup hashes the pattern first, so a list or a dict is refused as
   * unhashable; any other value reaches the type test.
   */
  function NotPattern(p: Json): string {
    if p.JArr? || p.JObj? then "unhashable type: '" + TypeName(p) + "'"
    else "first argument must be string or compiled pattern"
  }

  /** Adds `done` in front of the categories a later result reports. */
  function PrependFlags(done: seq<Json>, r: Result<seq<Json>>): Result<seq<Json>> {
    match r
    case Success(fs) => Success(done + fs)
    case Failure(e) => Failure(e)
  }

  lemma PrependFlagsTwice(a: seq<Json>, b: seq<Json>, r: Result<seq<Json>>)
    ensures PrependFlags(a, PrependFlags(b, r)) == PrependFlags(a + b, r)
  {
    if r.Success? {
      assert a + (b + r.value) == (a + b) + r.value;
    }
  }

  lemma PrependTwice(a: seq<Json>, b: seq<Json>, r: Result<(string, seq<Json>)>)
    ensures Prepend(a, Prepend(b, r)) == Prepend(a + b, r)
  {
    if r.Success? {
      assert a + (b + r.value.1) == (a + b) + r.value.1;
    }
  }

  /** Adds `done` in front of the items a later result reports. */
  function Prepend(done: seq<Json>, r: Result<(string, seq<Json>)>): Result<(string, seq<Json>)> {
    match r
    case Success((s, ms)) => Success((s, done + ms))
    case Failure(e) => Failure(e)
  }

  /** `patterns[i]` is the first pattern that is not a string. */
  predicate FirstNonString(patterns: seq<Json>, i: int) {
    0 <= i < |patterns| && !patterns[i].JStr? && forall j :: 0 <= j < i ==> patterns[j].JStr?
  }

  lemma FirstNonStringTail(patterns: seq<Json>, k: int)
    requires |patterns| > 0 && patterns[0].JStr?
    requires FirstNonString(patterns[1..], k)
    ensures FirstNonString(patterns, k + 1) && patterns[k + 1] == patterns[1..][k]
  {
    forall j | 0 < j < k + 1 ensures patterns[j].JStr? {
      assert patterns[j] == patterns[1..][j - 1];
    }
  }

  /**
   * The PII loop: each compiling pattern that matches the current text
   * replaces its matches with "[PII]" and is reported; patterns that do not
   * compile are skipped; a pattern that is not a string raises.
   */
  function Mask(result: string, patterns: seq<Json>, re: Regex): (r: Result<(string, seq<Json>)>)
    ensures r.Failure? <==> exists i :: 0 <= i < |patterns| && !patterns[i].JStr?
    ensures r.Failure? ==> exists i :: FirstNonString(patterns, i) && r.error == NotPattern(patterns[i])
    ensures r.Success? ==> SubSeq(r.value.1, patterns)
    ensures r.Success? ==> forall p :: p in r.value.1 ==> p.JStr? && re.compiles(p.s)
    ensures r.Success? && |r.value.1| == 0 ==> r.value.0 == result
    decreases |patterns|
  {
    if |patterns| == 0 then Success((result, []))
    else if !patterns[0].JStr? then Failure(NotPattern(patterns[0]))
    else
      var p := patterns[0].s;
      var rest := if re.compiles(p) && re.search(p, result)
                  then Prepend([patterns[0]], Mask(re.sub(p, "[PII]", result), patterns[1..], re))
                  else Mask(result, patterns[1..], re);
      assert (exists i :: 0 <= i < |patterns| && !patterns[i].JStr?)
             <==> (exists i :: 0 <= i < |patterns[1..]| && !patterns[1..][i].JStr?) by {
        forall i | 0 < i < |patterns| ensures patterns[i] == patterns[1..][i - 1] { }
      }
      assert rest.Failure? ==> exists i :: FirstNonString(patterns, i) && rest.error == NotPattern(patterns[i]) by {
        if rest.Failure? {
          var k :| FirstNonString(patterns[1..], k) && rest.error == NotPattern(patterns[1..][k]);
          FirstNonStringTail(patterns, k);
        }
      }
      rest
  }

  /** The text after replacing, in turn, the matches of each pattern of `ms` with "[PII]". */
  function SubChain(text: string, ms: seq<Json>, re: Regex): string
    decreases |ms|
  {
    if |ms| == 0 then text
    else SubChain(if ms[0].JStr? then re.sub(ms[0].s, "[PII]", text) else text, ms[1..], re)
  }

  /**
   * The masked text is the chain of substitutions of the reported patterns,
   * and each reported pattern compiles and matched the text left by the
   * substitutions of the patterns reported before it.
   */
  lemma {:induction false} MaskChain(result: string, patterns: seq<Json>, re: Regex)
    ensures var r := Mask(result, patterns, re);
      r.Success? ==>
        r.value.0 == SubChain(result, r.value.1, re)
        && forall k :: 0 <= k < |r.value.1| ==>
             r.value.1[k].JStr? && re.compiles(r.value.1[k].s)
             && re.search(r.value.1[k].s, SubChain(result, r.value.1[..k], re))
    decreases |patterns|
  {
    var r := Mask(result, patterns, re);
    if |patterns| > 0 && patterns[0].JStr? && r.Success? {
      var p := patterns[0].s;
      if re.compiles(p) && re.search(p, result) {
        var t' := re.sub(p, "[PII]", result);
        MaskChain(t', patterns[1..], re);
        var ms := r.value.1;
        var rest := Mask(t', patterns[1..], re).value.1;
        assert ms == [patterns[0]] + rest;
        forall k | 0 <= k < |ms|
          ensures ms[k].JStr? && re.compiles(ms[k].s) && re.search(ms[k].s, SubChain(result, ms[..k], re))
        {
          assert ms[k] in ms;
          if k > 0 {
            assert ms[..k][1..] == rest[..k - 1];
          }
        }
      } else {
        MaskChain(result, patterns[1..], re);
      }
    }
  }

  /** Masking with `a + b` masks with `a`, then with `b` from the text `a` leaves. */
  function MaskThen(first: Result<(string, seq<Json>)>, b: seq<Json>, re: Regex): Result<(string, seq<Json>)> {
    match first
    case Failure(e) => Failure(e)
    case Success((t, ms)) => Prepend(ms, Mask(t, b, re))
  }

  lemma {:induction false} MaskSplit(t: string, a: seq<Json>, b: seq<Json>, re: Regex)
    ensures Mask(t, a + b, re) == MaskThen(Mask(t, a, re), b, re)
    decreases |a|
  {
    if |a| == 0 {
      assert a + b == b;
      var r := Mask(t, b, re);
      if r.Success? {
        assert [] + r.value.1 == r.value.1;
      }
    } else {
      assert (a + b)[0] == a[0] && (a + b)[1..] == a[1..] + b;
      if a[0].JStr? {
        var p := a[0].s;
        if re.compiles(p) && re.search(p, t) {
          var t' := re.sub(p, "[PII]", t);
          MaskSplit(t', a[1..], b, re);
          var m := Mask(t', a[1..], re);
          if m.Success? {
            PrependTwice([a[0]], m.value.1, Mask(m.value.0, b, re));
          }
        } else {
          MaskSplit(t, a[1..], b, re);
        }
      }
    }
  }

  /**
   * At its turn a pattern meets the text the earlier patterns left: it is
   * reported next exactly when it compiles and matches that text, which is
   * the substitution chain of the patterns reported so far; what is
   * reported up to any turn begins the final report.
   */
  lemma MaskTurn(result: string, patterns: seq<Json>, re: Regex, i: nat)
    requires i < |patterns|
    ensures var whole := Mask(result, patterns, re);
      var pre := Mask(result, patterns[..i], re);
      whole.Success? ==>
        pre.Success? && patterns[i].JStr?
        && pre.value.0 == SubChain(result, pre.value.1, re)
        && pre.value.1 <= whole.value.1
        && ((re.compiles(patterns[i].s) && re.search(patterns[i].s, pre.value.0))
            <==> Mask(result, patterns[..i + 1], re).value.1 == pre.value.1 + [patterns[i]])
  {
    var whole := Mask(result, patterns, re);
    if whole.Success? {
      assert patterns[..i] + patterns[i..] == patterns;
      MaskSplit(result, patterns[..i], patterns[i..], re);
      var pre := Mask(result, patterns[..i], re);
      assert patterns[i] == patterns[i..][0];
      MaskChain(result, patterns[..i], re);
      assert patterns[..i + 1] == patterns[..i] + [patterns[i]];
      MaskSplit(result, patterns[..i], [patterns[i]], re);
      var p := patterns[i].s;
      if !(re.compiles(p) && re.search(p, pre.value.0)) {
        assert |pre.value.1 + [patterns[i]]| != |pre.value.1|;
      }
    }
  }

  function EscapeError(c: Json): string {
    "decoding to str: need a bytes-like object, " + TypeName(c) + " found"
  }

  /**
   * The content-filter loop: the string categories found as whole words,
   * ignoring case, in config order; a category that is not a string raises.
   */
  function Flags(result: string, cats: seq<Json>, re: Regex): (r: Result<seq<Json>>)
    ensures r.Failure? <==> exists i :: 0 <= i < |cats| && !cats[i].JStr?
    ensures r.Failure? ==> exists i :: FirstNonString(cats, i) && r.error == EscapeError(cats[i])
    ensures r.Success? ==> SubSeq(r.value, cats)
    ensures r.Success? ==> forall c :: c in r.value ==> c.JStr? && re.wordSearch(c.s, result)
    ensures r.Success? ==> forall i :: 0 <= i < |cats| && cats[i].JStr? && re.wordSearch(cats[i].s, result) ==> cats[i] in r.value
    decreases |cats|
  {
    if |cats| == 0 then Success([])
    else if !cats[0].JStr? then Failure(EscapeError(cats[0]))
    else
      var rest := Flags(result, cats[1..], re);
      assert (exists i :: 0 <= i < |cats| && !cats[i].JStr?)
             <==> (exists i :: 0 <= i < |cats[1..]| && !cats[1..][i].JStr?) by {
        forall i | 0 < i < |cats| ensures cats[i] == cats[1..][i - 1] { }
      }
      if rest.Failure? then
        assert exists i :: FirstNonString(cats, i) && rest.error == EscapeError(cats[i]) by {
          var k :| FirstNonString(cats[1..], k) && rest.error == EscapeError(cats[1..][k]);
          FirstNonStringTail(cats, k);
        }
        rest
      else
        assert forall i :: 0 < i < |cats| ==> cats[i] == cats[1..][i - 1];
        if re.wordSearch(cats[0].s, result) then Success([cats[0]] + rest.value) else rest
  }

  function PiiActions(ms: seq<Json>): (acts: seq<Action>)
    ensures |acts| == |ms| && forall i :: 0 <= i < |ms| ==> acts[i] == PiiMask(ms[i])
  {
    seq(|ms|, i requires 0 <= i < |ms| => PiiMask(ms[i]))
  }

  function FlagAction(flags: seq<Json>): seq<Action> {
    if |flags| > 0 then [ContentFlag(flags)] else []
  }


  /** The whole of `apply_guardrails`; a `Failure` is the exception it raises. */
  function Apply(text: string, cfg: Json, re: Regex): Result<Guarded> {
    if !cfg.JObj? then Failure(NoGet(TypeName(cfg)))
    else
      var o := cfg.fields;
      var maxTokens :- MaxTokens(o);
      var (truncated, truncActs) := Truncation(text, maxTokens);
      var patterns :- ConfigList(o, "pii_regex");
      var (masked, matched) :- Mask(truncated, patterns, re);
      var cats :- ConfigList(o, "content_filters");
      var flags :- Flags(masked, cats, re);
      Success(Guarded(text, masked, truncActs + PiiActions(matched) + FlagAction(flags)))
  }

  // ---------------------------------------------------------------- the imperative function

  method ApplyGuardrails(text: string, cfg: Json, re: Regex) returns (out: Result<Guarded>)
    ensures out == Apply(text, cfg, re)
  {
    if !cfg.JObj? {
      return Failure(NoGet(TypeName(cfg)));
    }
    var o := cfg.fields;
    var mt := MaxTokens(o);
    if mt.Failure? {
      return Failure(mt.error);
    }
    var maxTokens := mt.value;
    var result, actions := Truncation(text, maxTokens).0, Truncation(text, maxTokens).1;

    var pl := ConfigList(o, "pii_regex");
    if pl.Failure? {
      return Failure(pl.error);
    }
    var m := MaskLoop(result, pl.value, re);
    if m.Failure? {
      return Failure(m.error);
    }
    var matched;
    result, matched := m.value.0, m.value.1;
    actions := actions + PiiActions(matched);

    var cl := ConfigList(o, "content_filters");
    if cl.Failure? {
      return Failure(cl.error);
    }
    var f := FlagLoop(result, cl.value, re);
    if f.Failure? {
      return Failure(f.error);
    }
    var flags := f.value;
    if |flags| > 0 {
      actions := actions + [ContentFlag(flags)];
    }
    assert m == Mask(Truncation(text, maxTokens).0, pl.value, re);
    assert actions == Truncation(text, maxTokens).1 + PiiActions(m.value.1) + FlagAction(f.value);
    return Success(Guarded(text, result, actions));
  }

  /** `for pattern in patterns: ...`: masks in turn and collects the patterns that matched. */
  method MaskLoop(text: string, patterns: seq<Json>, re: Regex) returns (out: Result<(string, seq<Json>)>)
    ensures out == Mask(text, patterns, re)
  {
    var result := text;
    var matched: seq<Json> := [];
    var i := 0;
    assert patterns[0..] == patterns;
    assert Mask(text, patterns, re) == Prepend(matched, Mask(result, patterns[i..], re)) by {
      var r := Mask(text, patterns, re);
      if r.Success? {
        assert [] + r.value.1 == r.value.1;
      }
    }
    while i < |patterns|
      invariant i <= |patterns|
      invariant Mask(text, patterns, re) == Prepend(matched, Mask(result, patterns[i..], re))
    {
      var pattern := patterns[i];
      assert patterns[i..][1..] == patterns[i + 1..];
      if !pattern.JStr? {
        return Failure(NotPattern(pattern));
      }
      if re.compiles(pattern.s) && re.search(pattern.s, result) {
        var masked := re.sub(pattern.s, "[PII]", result);
        PrependTwice(matched, [pattern], Mask(masked, patterns[i + 1..], re));
        result := masked;
        matched := matched + [pattern];
      }
      i := i + 1;
    }
    assert matched + [] == matched;
    return Success((result, matched));
  }

  /** `for cat in cats: if re.search(...): flags.append(cat)`. */
  method FlagLoop(result: string, cats: seq<Json>, re: Regex) returns (out: Result<seq<Json>>)
    ensures out == Flags(result, cats, re)
  {
    var flags: seq<Json> := [];
    var j := 0;
    assert cats[0..] == cats;
    assert Flags(result, cats, re) == PrependFlags(flags, Flags(result, cats[j..], re)) by {
      var r := Flags(result, cats, re);
      if r.Success? {
        assert [] + r.value == r.value;
      }
    }
    while j < |cats|
      invariant j <= |cats|
      invariant Flags(result, cats, re) == PrependFlags(flags, Flags(result, cats[j..], re))
    {
      var cat := cats[j];
      assert cats[j..][1..] == cats[j + 1..];
      if !cat.JStr? {
        return Failure(EscapeError(cat));
      }
      if re.wordSearch(cat.s, result) {
        PrependFlagsTwice(flags, [cat], Flags(result, cats[j + 1..], re));
        flags := flags + [cat];
      }
      j := j + 1;
    }
    assert flags + [] == flags;
    return Success(flags);
  }

  // ---------------------------------------------------------------- properties

  /** The rank of an action kind in the order the steps append them. */
  function Rank(a: Action): nat {
    match a
    case Truncate(_) => 0
    case PiiMask(_) => 1
    case ContentFlag(_) => 2
    case AntiEcho => 3
  }

  /**
   * On success `original` is the input, actions come as truncate, then
   * pii_mask entries, then content_flag, so at most one truncate and at most
   * one content_flag, and the text is truncated exactly when it has more
   * than `max_tokens` words.
   */
  lemma ApplyShape(text: string, cfg: Json, re: Regex)
    requires Apply(text, cfg, re).Success?
    ensures cfg.JObj? && MaxTokens(cfg.fields).Success?
    ensures Apply(text, cfg, re).value.original == text
    ensures Ordered(Apply(text, cfg, re).value.actions)
    ensures var acts := Apply(text, cfg, re).value.actions;
            (|acts| > 0 && acts[0].Truncate?) <==> |Words(text)| > MaxTokens(cfg.fields).value
  {
    var o := cfg.fields;
    var maxTokens := MaxTokens(o).value;
    var (truncated, truncActs) := Truncation(text, maxTokens);
    var patterns := ConfigList(o, "pii_regex").value;
    var (masked, matched) := Mask(truncated, patterns, re).value;
    var cats := ConfigList(o, "content_filters").value;
    var flags := Flags(masked, cats, re).value;
    assert Apply(text, cfg, re).value.actions == truncActs + PiiActions(matched) + FlagAction(flags);
    ActionsOrdered(truncActs, matched, flags);
  }

  /**
   * Action kinds never go backwards, and only pii_mask repeats: at most one
   * truncate, and at most one content_flag, which comes last.
   */
  predicate Ordered(acts: seq<Action>) {
    forall i, j :: 0 <= i < j < |acts| ==>
      Rank(acts[i]) <= Rank(acts[j]) && (Rank(acts[i]) == Rank(acts[j]) ==> acts[i].PiiMask?)
  }

  lemma ActionsOrdered(truncActs: seq<Action>, matched: seq<Json>, flags: seq<Json>)
    requires |truncActs| <= 1 && forall a :: a in truncActs ==> a.Truncate?
    ensures Ordered(truncActs + PiiActions(matched) + FlagAction(flags))
  {
    var acts := truncActs + PiiActions(matched) + FlagAction(flags);
    var t := |truncActs|;
    var n := |matched|;
    forall i, j | 0 <= i < j < |acts|
      ensures Rank(acts[i]) <= Rank(acts[j]) && (Rank(acts[i]) == Rank(acts[j]) ==> acts[i].PiiMask?)
    {
      if i < t {
        assert acts[i] == truncActs[i];
      } else {
        assert acts[i] == PiiMask(matched[i - t]);
        if j < t + n {
          assert acts[j] == PiiMask(matched[j - t]);
        } else {
          assert acts[j] == ContentFlag(flags);
        }
      }
    }
  }
}
