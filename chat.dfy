/**
 * The chat runtime: a retrieval-first answerer over the WordNet lexicon index,
 * with a character n-gram continuation as the last fallback.
 *
 * The parsed index records, the lines of the WordNet data files, the sources
 * of the language model and the bubble model's tables are inputs. The
 * per-lemma observation counts (`lm_counts.json`) and the persisted n-gram
 * model (`lm_ngram.json`) are files of an `Fs.Store` that an answer reads
 * and writes.
 */
module Chat {
  import opened Wrappers
  import opened Text
  import opened Json
  import opened Fs
  import opened Counting
  import Bubble

  // ---------------------------------------------------------------- observation counts

  /** `_COUNTS_PATH`: lemma -> number of gloss answers given for it. */
  const CountsPath: string := Child(Child(ArtifactsDir, "chat"), "lm_counts.json")

  /** `_get_counts()`: the stored document, or `{}` when loading it raises. */
  function StoredCounts(t: Tree): Json {
    match LoadJson(t, CountsPath)
    case Success(v) => v
    case Failure(_) => JObj(map[])
  }

  /**
   * The dictionary `update_counts(lemma)` saves: `counts[lemma] =
   * int(counts.get(lemma, 0)) + 1`. A document that is not a dictionary
   * raises at `.get`, and a stored count that `int()` refuses raises there.
   */
  function Bumped(c: Json, lem: string): (r: Result<Json>)
    ensures !c.JObj? ==> r == Failure(NoGet(TypeName(c)))
    ensures c.JObj? ==> (r.Success? <==> IntOf(Get(c.fields, lem, JInt(0))).Some?)
    ensures c.JObj? && r.Failure? ==> r.error == IntError(Get(c.fields, lem, JInt(0)))
    ensures r.Success? ==> c.JObj? && r.value.JObj? && r.value.fields.Keys == c.fields.Keys + {lem}
    ensures r.Success? ==> r.value.fields[lem] == JInt(IntOf(Get(c.fields, lem, JInt(0))).value + 1)
    ensures r.Success? ==> forall k :: k in c.fields && k != lem ==> r.value.fields[k] == c.fields[k]
  {
    if !c.JObj? then Failure(NoGet(TypeName(c)))
    else
      var v := Get(c.fields, lem, JInt(0));
      match IntOf(v)
      case None => Failure(IntError(v))
      case Some(n) => Success(JObj(c.fields[lem := JInt(n + 1)]))
  }

  /**
   * `update_counts(lemma)`: an empty lemma only reads the counts; any other
   * lemma is counted once more and the dictionary is saved to
   * `lm_counts.json`, unless reading the count raised, which writes nothing.
   */
  method UpdateCounts(store: Store, lem: string) returns (r: Result<Json>)
    modifies store
    ensures lem == "" ==> r == Success(StoredCounts(old(store.tree)))
    ensures lem != "" ==> r == Bumped(StoredCounts(old(store.tree)), lem)
    ensures lem != "" && r.Success? ==>
      store.tree == old(store.tree)[CountsPath := store.enc.Node(r.value)]
      && store.writes == old(store.writes) + [(CountsPath, r.value)]
    ensures lem == "" || r.Failure? ==> store.tree == old(store.tree) && store.writes == old(store.writes)
  {
    var counts := StoredCounts(store.tree);
    if lem == "" {
      return Success(counts);
    }
    r := Bumped(counts, lem);
    if r.Success? {
      store.WriteJson(CountsPath, r.value);
    }
  }

  /** `_get_counts()` after `_save_counts(u)` gives `u` back. */
  lemma CountsReadBack(t: Tree, enc: Encoder, u: Json)
    ensures StoredCounts(t[CountsPath := enc.Node(u)]) == u
  {
    assert LoadJson(t[CountsPath := enc.Node(u)], CountsPath) == Success(u);
  }

  /** The stored count of a lemma, as `int(counts.get(lemma, 0))` reads it. */
  function CountOf(c: Json, lem: string): Option<int>
    requires c.JObj?
  {
    IntOf(Get(c.fields, lem, JInt(0)))
  }

  /**
   * One observation, saved and read back: the lemma's stored count grows by
   * exactly one and every other stored count is unchanged.
   */
  lemma ObservedOnce(t: Tree, enc: Encoder, lem: string, other: string)
    requires lem != "" && Bumped(StoredCounts(t), lem).Success?
    ensures var t' := t[CountsPath := enc.Node(Bumped(StoredCounts(t), lem).value)];
      StoredCounts(t').JObj? && StoredCounts(t).JObj?
      && CountOf(StoredCounts(t'), lem) == Some(CountOf(StoredCounts(t), lem).value + 1)
      && (other != lem ==> CountOf(StoredCounts(t'), other) == CountOf(StoredCounts(t), other))
  {
    var u := Bumped(StoredCounts(t), lem).value;
    CountsReadBack(t, enc, u);
    assert u.fields[lem] == JInt(CountOf(StoredCounts(t), lem).value + 1);
    assert IntOf(JInt(CountOf(StoredCounts(t), lem).value + 1)) == Some(CountOf(StoredCounts(t), lem).value + 1);
  }

  /** A missing or unreadable counts file counts as `{}`: the first observation stores `{lemma: 1}`. */
  lemma FreshCounts(t: Tree, lem: string)
    requires LoadJson(t, CountsPath).Failure?
    ensures Bumped(StoredCounts(t), lem) == Success(JObj(map[lem := JInt(1)]))
  {
    var none: map<string, Json> := map[];
    assert StoredCounts(t) == JObj(none);
    assert none[lem := JInt(1)] == map[lem := JInt(1)];
  }

  /** The order of `most_seen_lemma`: higher count first, then the smaller lemma. */
  predicate Beats(a: Cell<int>, b: Cell<int>) {
    a.val > b.val || (a.val == b.val && (a.key == b.key || LexLess(a.key, b.key)))
  }

  lemma BeatsTrans(a: Cell<int>, b: Cell<int>, c: Cell<int>)
    requires Beats(a, b) && Beats(b, c)
    ensures Beats(a, c)
  {
    if a.val == b.val == c.val && a.key != b.key && b.key != c.key {
      LexLessTrans(a.key, b.key, c.key);
    }
  }

  /** The first item of `sorted(counts.items(), key=lambda kv: (-kv[1], kv[0]))`. */
  function Best(b: Bucket): (c: Cell<int>)
    requires |b| > 0
    ensures c in b
    ensures forall j :: 0 <= j < |b| ==> Beats(c, b[j])
  {
    if |b| == 1 then b[0]
    else
      var t := Best(b[1..]);
      BestStep(b, t);
      if Beats(b[0], t) then b[0] else t
  }

  lemma BestStep(b: Bucket, t: Cell<int>)
    requires |b| > 1 && t in b[1..]
    requires forall j :: 0 <= j < |b[1..]| ==> Beats(t, b[1..][j])
    ensures Beats(b[0], t) ==> forall j :: 0 <= j < |b| ==> Beats(b[0], b[j])
    ensures !Beats(b[0], t) ==> forall j :: 0 <= j < |b| ==> Beats(t, b[j])
  {
    if Beats(b[0], t) {
      forall j | 1 <= j < |b| ensures Beats(b[0], b[j]) {
        assert b[j] == b[1..][j - 1];
        BeatsTrans(b[0], t, b[j]);
      }
    } else {
      if b[0].key != t.key {
        LexLessTotal(b[0].key, t.key);
      }
      forall j | 0 <= j < |b| ensures Beats(t, b[j]) {
        if j > 0 {
          assert b[j] == b[1..][j - 1];
        }
      }
    }
  }

  /** `most_seen_lemma()`: the lemma with the highest count, ties to the smallest; None without counts. */
  function MostSeen(counts: Bucket): (r: Option<string>)
    ensures r.None? <==> |counts| == 0
    ensures r.Some? ==> exists i :: 0 <= i < |counts| && counts[i].key == r.value
                          && forall j :: 0 <= j < |counts| ==> Beats(counts[i], counts[j])
  {
    if |counts| == 0 then None
    else
      var c := Best(counts);
      Some(c.key)
  }

  /** The message of `.items()` on a value that is not a dictionary. */
  function NoItems(t: string): string { "'" + t + "' object has no attribute 'items'" }

  /** The stored counts under the keys `ks`, each read by `int()`; a count it refuses raises. */
  function CountCells(fields: map<string, Json>, ks: seq<string>): (r: Result<Bucket>)
    requires forall i :: 0 <= i < |ks| ==> ks[i] in fields
    ensures r.Success? <==> forall i :: 0 <= i < |ks| ==> IntOf(fields[ks[i]]).Some?
    ensures r.Success? ==> |r.value| == |ks|
    ensures r.Success? ==> forall i :: 0 <= i < |ks| ==> r.value[i] == Cell(ks[i], IntOf(fields[ks[i]]).value)
    ensures r.Failure? ==> exists i :: 0 <= i < |ks| && IntOf(fields[ks[i]]).None? && r.error == IntError(fields[ks[i]])
    decreases |ks|
  {
    if |ks| == 0 then Success([])
    else
      match IntOf(fields[ks[0]])
      case None => Failure(IntError(fields[ks[0]]))
      case Some(n) =>
        var rest := CountCells(fields, ks[1..]);
        assert forall i :: 1 <= i < |ks| ==> ks[i] == ks[1..][i - 1];
        if rest.Failure? then
          ghost var i :| 0 <= i < |ks[1..]| && IntOf(fields[ks[1..][i]]).None? && rest.error == IntError(fields[ks[1..][i]]);
          assert IntOf(fields[ks[i + 1]]).None?;
          Failure(rest.error)
        else
          Success([Cell(ks[0], n)] + rest.value)
  }

  /**
   * `most_seen_lemma()` on the stored document `c`: None when it is empty
   * (or otherwise falsy); a raise when it is not a dictionary or `int()`
   * refuses a count; otherwise the lemma with the highest count, ties going
   * to the smallest lemma.
   */
  function SeenLemma(c: Json): (r: Result<Option<string>>)
    ensures !Truthy(c) ==> r == Success(None)
    ensures Truthy(c) && !c.JObj? ==> r == Failure(NoItems(TypeName(c)))
    ensures Truthy(c) && r.Success? ==> r.value.Some? && r.value.value in c.fields.Keys
  {
    if !Truthy(c) then Success(None)
    else if !c.JObj? then Failure(NoItems(TypeName(c)))
    else
      var ks := SortedKeys(c.fields.Keys);
      match CountCells(c.fields, ks)
      case Failure(e) => Failure(e)
      case Success(cells) =>
        SeenBest(c.fields, ks, cells);
        Success(MostSeen(cells))
  }

  /**
   * `most_seen_lemma()` on a non-empty dictionary succeeds exactly when
   * every stored count is read by `int()`, and then names a lemma whose
   * count beats every other (higher count, or equal count and smaller lemma);
   * otherwise it raises on a count `int()` refuses.
   */
  lemma SeenLemmaCounts(c: Json)
    requires c.JObj? && |c.fields| > 0
    ensures SeenLemma(c).Success? <==> forall k :: k in c.fields ==> IntOf(c.fields[k]).Some?
    ensures SeenLemma(c).Failure? ==>
      exists k :: k in c.fields && IntOf(c.fields[k]).None? && SeenLemma(c).error == IntError(c.fields[k])
    ensures SeenLemma(c).Success? ==> var best := SeenLemma(c).value.value;
      best in c.fields
      && forall k :: k in c.fields ==> Beats(Cell(best, IntOf(c.fields[best]).value), Cell(k, IntOf(c.fields[k]).value))
  {
    var ks := SortedKeys(c.fields.Keys);
    var cells := CountCells(c.fields, ks);
    assert Truthy(c);
    if cells.Success? {
      SeenBest(c.fields, ks, cells.value);
      assert SeenLemma(c) == Success(MostSeen(cells.value));
    } else {
      var i :| 0 <= i < |ks| && IntOf(c.fields[ks[i]]).None? && cells.error == IntError(c.fields[ks[i]]);
      assert SeenLemma(c) == Failure(cells.error);
      assert ks[i] in c.fields;
    }
  }

  /** The most seen cell of the counts of every key beats every stored count. */
  lemma SeenBest(fields: map<string, Json>, ks: seq<string>, cells: Bucket)
    requires |fields| > 0 && forall k :: k in ks <==> k in fields
    requires |cells| == |ks| && forall i :: 0 <= i < |ks| ==> IntOf(fields[ks[i]]).Some? && cells[i] == Cell(ks[i], IntOf(fields[ks[i]]).value)
    ensures MostSeen(cells).Some? && MostSeen(cells).value in fields
    ensures forall k :: k in fields ==> IntOf(fields[k]).Some?
    ensures forall k :: k in fields ==>
      Beats(Cell(MostSeen(cells).value, IntOf(fields[MostSeen(cells).value]).value), Cell(k, IntOf(fields[k]).value))
  {
    var k0 :| k0 in fields;
    var i0 :| 0 <= i0 < |ks| && ks[i0] == k0;
    var i :| 0 <= i < |cells| && cells[i].key == MostSeen(cells).value && forall j :: 0 <= j < |cells| ==> Beats(cells[i], cells[j]);
    forall k | k in fields
      ensures IntOf(fields[k]).Some?
      ensures Beats(Cell(MostSeen(cells).value, IntOf(fields[MostSeen(cells).value]).value), Cell(k, IntOf(fields[k]).value))
    {
      var j :| 0 <= j < |ks| && ks[j] == k;
      assert Beats(cells[i], cells[j]);
    }
  }

  /** The counts of a first observation name that lemma as the most seen one. */
  lemma SeenFirst(lem: string)
    ensures SeenLemma(JObj(map[lem := JInt(1)])) == Success(Some(lem))
  {
    var c := JObj(map[lem := JInt(1)]);
    assert Truthy(c);
    assert c.fields.Keys == {lem};
  }

  // ---------------------------------------------------------------- lemma choice

  predicate NotQuote(c: char) { c != '\'' }

  /** `re.search(r"'([^']+)'", s).group(1)`: the leftmost quoted segment. */
  function Quoted(s: string): (r: Option<string>)
    ensures r.Some? ==> |r.value| > 0 && (forall i :: 0 <= i < |r.value| ==> r.value[i] != '\'')
                        && Contains(s, "'" + r.value + "'")
    ensures r.None? ==> forall i, k, j :: 0 <= i < k < j < |s| && s[i] == '\'' && s[j] == '\'' ==> s[k] == '\''
    decreases |s|
  {
    if |s| == 0 then None
    else if s[0] == '\'' then
      var run := TakeRun(s[1..], NotQuote);
      if 0 < |run| < |s| - 1 then
        assert s[..|run| + 2] == "'" + run + "'" by {
          assert s[1..][|run|] == s[|run| + 1];
        }
        Some(run)
      else
        var r := Quoted(s[1..]);
        QuotedTail(s, run, r);
        r
    else
      var r := Quoted(s[1..]);
      QuotedShift(s, r);
      r
  }

  lemma QuotedShift(s: string, r: Option<string>)
    requires |s| > 0 && s[0] != '\''
    requires r.Some? ==> |r.value| > 0 && (forall i :: 0 <= i < |r.value| ==> r.value[i] != '\'')
                         && Contains(s[1..], "'" + r.value + "'")
    requires r.None? ==> forall i, k, j :: 0 <= i < k < j < |s[1..]| && s[1..][i] == '\'' && s[1..][j] == '\'' ==> s[1..][k] == '\''
    ensures r.Some? ==> Contains(s, "'" + r.value + "'")
    ensures r.None? ==> forall i, k, j :: 0 <= i < k < j < |s| && s[i] == '\'' && s[j] == '\'' ==> s[k] == '\''
  {
    if r.None? {
      forall i, k, j | 0 <= i < k < j < |s| && s[i] == '\'' && s[j] == '\'' ensures s[k] == '\'' {
        assert s[1..][i - 1] == s[i] && s[1..][k - 1] == s[k] && s[1..][j - 1] == s[j];
      }
    }
  }

  lemma QuotedTail(s: string, run: string, r: Option<string>)
    requires |s| > 0 && s[0] == '\''
    requires run == TakeRun(s[1..], NotQuote) && !(0 < |run| < |s| - 1)
    requires r.Some? ==> |r.value| > 0 && (forall i :: 0 <= i < |r.value| ==> r.value[i] != '\'')
                         && Contains(s[1..], "'" + r.value + "'")
    requires r.None? ==> forall i, k, j :: 0 <= i < k < j < |s[1..]| && s[1..][i] == '\'' && s[1..][j] == '\'' ==> s[1..][k] == '\''
    ensures r.Some? ==> Contains(s, "'" + r.value + "'")
    ensures r.None? ==> forall i, k, j :: 0 <= i < k < j < |s| && s[i] == '\'' && s[j] == '\'' ==> s[k] == '\''
  {
    if r.None? {
      forall i, k, j | 0 <= i < k < j < |s| && s[i] == '\'' && s[j] == '\'' ensures s[k] == '\'' {
        assert s[1..][j - 1] == s[j];
        if i > 0 {
          assert s[1..][i - 1] == s[i] && s[1..][k - 1] == s[k];
        } else if |run| == 0 {
          // The character after the opening quote is itself a quote.
          assert s[1..][0] == s[1];
          if k > 1 {
            assert s[1..][k - 1] == s[k];
          }
        } else {
          // The run reaches the end of the string: no closing quote follows.
          assert false;
        }
      }
    }
  }

  /**
   * `'([^']+)'` matches at position `i`: a quote, then a run of non-quotes
   * that is not empty and is followed by a closing quote.
   */
  predicate QuoteAt(s: string, i: int) {
    0 <= i < |s| && s[i] == '\''
    && var run := TakeRun(s[i + 1..], NotQuote);
    0 < |run| && i + 1 + |run| < |s|
  }

  lemma QuoteAtShift(s: string, j: nat)
    requires |s| > 0
    ensures QuoteAt(s, j + 1) <==> QuoteAt(s[1..], j)
    ensures j + 1 < |s| ==> TakeRun(s[j + 2..], NotQuote) == TakeRun(s[1..][j + 1..], NotQuote)
  {
    if j + 1 < |s| {
      assert s[j + 2..] == s[1..][j + 1..];
    }
  }

  /**
   * `Quoted` is `re.search`'s match: the group of the leftmost position
   * where the pattern matches, and nothing when it matches nowhere.
   */
  lemma {:induction false} QuotedLeftmost(s: string)
    ensures Quoted(s).Some? ==> exists i :: QuoteAt(s, i) && Quoted(s).value == TakeRun(s[i + 1..], NotQuote)
                                            && forall j :: 0 <= j < i ==> !QuoteAt(s, j)
    ensures Quoted(s).None? ==> forall i :: !QuoteAt(s, i)
    decreases |s|
  {
    if |s| > 0 {
      var run := TakeRun(s[1..], NotQuote);
      if s[0] == '\'' && 0 < |run| < |s| - 1 {
        assert QuoteAt(s, 0);
      } else {
        assert !QuoteAt(s, 0);
        QuotedLeftmost(s[1..]);
        assert Quoted(s) == Quoted(s[1..]);
        forall j: nat ensures QuoteAt(s, j + 1) <==> QuoteAt(s[1..], j) { QuoteAtShift(s, j); }
        if Quoted(s).Some? {
          var i :| QuoteAt(s[1..], i) && Quoted(s).value == TakeRun(s[1..][i + 1..], NotQuote)
                   && forall j :: 0 <= j < i ==> !QuoteAt(s[1..], j);
          QuoteAtShift(s, i);
          forall j | 0 <= j < i + 1 ensures !QuoteAt(s, j) {
            if j > 0 {
              QuoteAtShift(s, j - 1);
            }
          }
          assert QuoteAt(s, i + 1) && Quoted(s).value == TakeRun(s[i + 2..], NotQuote);
        } else {
          forall i ensures !QuoteAt(s, i) {
            if i > 0 {
              QuoteAtShift(s, i - 1);
            }
          }
        }
      }
    }
  }

  /** `{str(r.get("lemma")).lower() for r in recs}`. */
  function LemmaSet(recs: seq<map<string, Json>>): set<string> {
    set i | 0 <= i < |recs| :: Lower(Show(Get(recs[i], "lemma", JNull)))
  }

  /** The lowercased alphabetic tokens of `text`. */
  function LowerTokens(text: string): (ts: seq<string>)
    ensures |ts| == |AlphaRuns(text)|
  {
    var runs := AlphaRuns(text);
    seq(|runs|, i requires 0 <= i < |runs| => Lower(runs[i]))
  }

  /** The first of `ws` that is in `lemmas`. */
  function FirstIn(ws: seq<string>, lemmas: set<string>): (r: Option<string>)
    ensures r.None? <==> forall i :: 0 <= i < |ws| ==> ws[i] !in lemmas
    ensures r.Some? ==> exists i :: 0 <= i < |ws| && ws[i] == r.value && r.value in lemmas
                          && forall j :: 0 <= j < i ==> ws[j] !in lemmas
  {
    var i := FirstWhere(ws, w => w in lemmas);
    if i < |ws| then Some(ws[i]) else None
  }

  /**
   * `extract_lemma(text)` against the index's lemma set and the stored
   * observation counts, which only the last rule reads (and which can raise).
   */
  function ExtractLemma(text: string, lemmas: set<string>, counts: Json): Result<Option<string>> {
    match Quoted(text)
    case Some(q) => Success(Some(Lower(Strip(q))))
    case None =>
      if |lemmas| == 0 then Success(None)
      else
        match FirstIn(LowerTokens(text), lemmas)
        case Some(t) => Success(Some(t))
        case None => SeenLemma(counts)
  }

  /** A quoted segment: an opening quote, a non-quote, then a closing quote further on. */
  predicate HasQuotedSegment(text: string) {
    exists i, k, j :: 0 <= i < k < j < |text| && text[i] == '\'' && text[k] != '\'' && text[j] == '\''
  }

  /** `extract_lemma`, first rule: a quoted segment wins, stripped and lowercased. */
  lemma ExtractQuoted(text: string, lemmas: set<string>, counts: Json)
    requires HasQuotedSegment(text)
    ensures exists i :: QuoteAt(text, i) && (forall j :: 0 <= j < i ==> !QuoteAt(text, j))
                        && ExtractLemma(text, lemmas, counts) == Success(Some(Lower(Strip(TakeRun(text[i + 1..], NotQuote)))))
  {
    var i, k, j :| 0 <= i < k < j < |text| && text[i] == '\'' && text[k] != '\'' && text[j] == '\'';
    var q := Quoted(text);
    assert q.Some?;
    QuotedLeftmost(text);
  }

  /** Without a quoted segment, `Quoted` finds nothing. */
  lemma NoQuoted(text: string)
    requires !HasQuotedSegment(text)
    ensures Quoted(text).None?
  {
    var q := Quoted(text);
    if q.Some? {
      QuotedWitness(text, q.value);
    }
  }

  /** Second rule: with no quoted segment and an empty lemma set there is no lemma. */
  lemma ExtractNoLemmas(text: string, counts: Json)
    requires !HasQuotedSegment(text)
    ensures ExtractLemma(text, {}, counts) == Success(None)
  {
    NoQuoted(text);
  }

  /** Third rule: the first lowercased alphabetic token that is a known lemma. */
  lemma ExtractToken(text: string, lemmas: set<string>, counts: Json, i: nat)
    requires !HasQuotedSegment(text) && |lemmas| > 0
    requires i < |AlphaRuns(text)| && Lower(AlphaRuns(text)[i]) in lemmas
    requires forall j :: 0 <= j < i ==> Lower(AlphaRuns(text)[j]) !in lemmas
    ensures ExtractLemma(text, lemmas, counts) == Success(Some(Lower(AlphaRuns(text)[i])))
  {
    NoQuoted(text);
    var ts := LowerTokens(text);
    var r := FirstIn(ts, lemmas);
    assert ts[i] in lemmas;
    var i' :| 0 <= i' < |ts| && ts[i'] == r.value && r.value in lemmas && forall j :: 0 <= j < i' ==> ts[j] !in lemmas;
    assert i' == i;
  }

  /** Last rule: no token is a known lemma, so the most seen lemma is used. */
  lemma ExtractFallback(text: string, lemmas: set<string>, counts: Json)
    requires !HasQuotedSegment(text) && |lemmas| > 0
    requires forall i :: 0 <= i < |AlphaRuns(text)| ==> Lower(AlphaRuns(text)[i]) !in lemmas
    ensures ExtractLemma(text, lemmas, counts) == SeenLemma(counts)
  {
    NoQuoted(text);
    var ts := LowerTokens(text);
    assert forall i :: 0 <= i < |ts| ==> ts[i] == Lower(AlphaRuns(text)[i]);
  }

  /** A quoted segment found by `Quoted` is a witness of `HasQuotedSegment`. */
  lemma {:induction false} QuotedWitness(s: string, q: string)
    requires |q| > 0 && (forall i :: 0 <= i < |q| ==> q[i] != '\'') && Contains(s, "'" + q + "'")
    ensures HasQuotedSegment(s)
    decreases |s|
  {
    var w := "'" + q + "'";
    if HasPrefix(s, w) {
      assert s[0] == w[0] && s[1] == w[1] && s[|q| + 1] == w[|q| + 1];
    } else {
      QuotedWitness(s[1..], q);
      var i, k, j :| 0 <= i < k < j < |s[1..]| && s[1..][i] == '\'' && s[1..][k] != '\'' && s[1..][j] == '\'';
      assert s[i + 1] == '\'' && s[k + 1] != '\'' && s[j + 1] == '\'';
    }
  }

  /** `extract_lemma(text) or "unknown"`: a raise of the extraction passes through. */
  function AnswerLemma(text: string, recs: seq<map<string, Json>>, counts: Json): (l: Result<string>)
    ensures l.Success? <==> ExtractLemma(text, LemmaSet(recs), counts).Success?
    ensures l.Failure? ==> l.error == ExtractLemma(text, LemmaSet(recs), counts).error
    ensures l.Success? ==> l.value != ""
    ensures var e := ExtractLemma(text, LemmaSet(recs), counts);
      e.Success? && e.value.Some? && e.value.value != "" ==> l == Success(e.value.value)
    ensures var e := ExtractLemma(text, LemmaSet(recs), counts);
      e.Success? && (e.value.None? || e.value.value == "") ==> l == Success("unknown")
  {
    match ExtractLemma(text, LemmaSet(recs), counts)
    case Failure(e) => Failure(e)
    case Success(Some(l)) => if l == "" then Success("unknown") else Success(l)
    case Success(None) => Success("unknown")
  }

  /** The lowered lemma of an index record. */
  function RecordLemma(r: map<string, Json>): string { Lower(Show(Get(r, "lemma", JStr("")))) }

  const RecordScanCap: nat := 100000

  /** `_find_record_for_lemma(lemma)`: the first of the first 100000 records with that lemma. */
  function FindRecord(recs: seq<map<string, Json>>, lem: string): (r: Option<map<string, Json>>)
    ensures lem == "" ==> r.None?
    ensures r.None? && lem != "" ==> forall i :: 0 <= i < |recs| && i < RecordScanCap ==> RecordLemma(recs[i]) != lem
    ensures r.Some? ==> exists i :: 0 <= i < |recs| && i < RecordScanCap && recs[i] == r.value
                          && RecordLemma(recs[i]) == lem
                          && forall j :: 0 <= j < i ==> RecordLemma(recs[j]) != lem
  {
    if lem == "" then None else FindFrom(Take(recs, RecordScanCap), lem)
  }

  function FindFrom(recs: seq<map<string, Json>>, lem: string): (r: Option<map<string, Json>>)
    ensures r.None? ==> forall i :: 0 <= i < |recs| ==> RecordLemma(recs[i]) != lem
    ensures r.Some? ==> exists i :: 0 <= i < |recs| && recs[i] == r.value && RecordLemma(recs[i]) == lem
                          && forall j :: 0 <= j < i ==> RecordLemma(recs[j]) != lem
  {
    var i := FirstWhere(recs, r => RecordLemma(r) == lem);
    if i < |recs| then Some(recs[i]) else None
  }

  // ---------------------------------------------------------------- sense choice

  /** `min(int(x) for x in xs if int(x) succeeds)`. */
  function MinOffset(xs: seq<Json>): (r: Option<int>)
    ensures r.None? <==> forall i :: 0 <= i < |xs| ==> IntOf(xs[i]).None?
    ensures r.Some? ==> (exists i :: 0 <= i < |xs| && IntOf(xs[i]) == Some(r.value))
                        && forall i :: 0 <= i < |xs| && IntOf(xs[i]).Some? ==> r.value <= IntOf(xs[i]).value
  {
    if |xs| == 0 then None
    else
      var t := MinOffset(xs[1..]);
      assert forall i :: 1 <= i < |xs| ==> xs[i] == xs[1..][i - 1];
      match IntOf(xs[0])
      case None => t
      case Some(n) => if t.None? || n <= t.value then Some(n) else t
  }

  /**
   * `_choose_offset(offsets)`: the smallest int-convertible offset, None if
   * there is none; an object offers its keys, and iterating a value that is
   * not a list, string or object raises.
   */
  function ChooseOffset(offsets: Json): (r: Result<Option<int>>)
    ensures r.Failure? <==> Iter(offsets).None?
    ensures r.Success? ==> var xs := Iter(offsets).value;
      && (r.value.None? <==> forall i :: 0 <= i < |xs| ==> IntOf(xs[i]).None?)
      && (r.value.Some? ==> (exists i :: 0 <= i < |xs| && IntOf(xs[i]) == Some(r.value.value))
                            && forall i :: 0 <= i < |xs| && IntOf(xs[i]).Some? ==> r.value.value <= IntOf(xs[i]).value)
  {
    match Iter(offsets)
    case Some(xs) => Success(MinOffset(xs))
    case None => Failure("'" + TypeName(offsets) + "' object is not iterable")
  }

  /** An object of offsets offers its keys: the smallest key that reads as an integer is chosen. */
  lemma ChooseOffsetKeys(offsets: Json)
    requires offsets.JObj?
    ensures var r := ChooseOffset(offsets);
      && r.Success?
      && (r.value.Some? ==> exists k :: k in offsets.fields && ParseInt(k) == Some(r.value.value))
      && (forall k :: k in offsets.fields && ParseInt(k).Some? ==> r.value.Some? && r.value.value <= ParseInt(k).value)
  {
    var xs := Iter(offsets).value;
    assert ChooseOffset(offsets) == Success(MinOffset(xs));
    MinOffsetKeys(offsets.fields, xs);
  }

  lemma MinOffsetKeys(fields: map<string, Json>, xs: seq<Json>)
    requires forall i :: 0 <= i < |xs| ==> xs[i].JStr? && xs[i].s in fields
    requires forall k :: k in fields ==> JStr(k) in xs
    ensures var m := MinOffset(xs);
      && (m.Some? ==> exists k :: k in fields && ParseInt(k) == Some(m.value))
      && (forall k :: k in fields && ParseInt(k).Some? ==> m.Some? && m.value <= ParseInt(k).value)
  {
    var m := MinOffset(xs);
    if m.Some? {
      var i :| 0 <= i < |xs| && IntOf(xs[i]) == Some(m.value);
      assert xs[i].s in fields && ParseInt(xs[i].s) == Some(m.value);
    }
    forall k | k in fields && ParseInt(k).Some? ensures m.Some? && m.value <= ParseInt(k).value {
      var i :| 0 <= i < |xs| && xs[i] == JStr(k);
      assert IntOf(xs[i]) == ParseInt(k);
    }
  }

  // ---------------------------------------------------------------- WordNet data files

  /** `_pos_to_data_path(pos)`. */
  function DataPath(pos: Json): (r: Option<string>)
    ensures r.Some? ==> Truthy(pos)
  {
    if !Truthy(pos) then None
    else
      var p := Lower(Show(pos));
      if HasPrefix(p, "n") then Some(Child(WordnetDict, "data.noun"))
      else if HasPrefix(p, "v") then Some(Child(WordnetDict, "data.verb"))
      else if HasPrefix(p, "a") then Some(Child(WordnetDict, "data.adj"))
      else if HasPrefix(p, "r") then Some(Child(WordnetDict, "data.adv"))
      else None
  }

  /** `str(offset).rjust(8, "0")`: the synset_offset field of a data line (wndb(5WN)). */
  function Target(offset: int): (t: string)
    ensures |t| >= 8 && HasSuffix(t, IntToString(offset))
  {
    RJust(IntToString(offset), 8, '0')
  }

  /** Lines the scan passes over: empty, indented (the licence header) or comments. */
  predicate Skipped(line: string) { line == "" || HasPrefix(line, " ") || HasPrefix(line, "#") }

  /** The first line that is not skipped and starts with `target`. */
  function FirstLine(lines: seq<string>, target: string): (r: Option<string>)
    ensures r.None? <==> forall i :: 0 <= i < |lines| ==> Skipped(lines[i]) || !HasPrefix(lines[i], target)
    ensures r.Some? ==> exists i :: 0 <= i < |lines| && lines[i] == r.value
                          && !Skipped(r.value) && HasPrefix(r.value, target)
                          && forall j :: 0 <= j < i ==> Skipped(lines[j]) || !HasPrefix(lines[j], target)
  {
    var i := FirstWhere(lines, line => !Skipped(line) && HasPrefix(line, target));
    if i < |lines| then Some(lines[i]) else None
  }

  /** A matching line with no match before it is the one FirstLine finds. */
  lemma FirstLineAt(lines: seq<string>, target: string, i: nat)
    requires i < |lines| && !Skipped(lines[i]) && HasPrefix(lines[i], target)
    requires forall j :: 0 <= j < i ==> Skipped(lines[j]) || !HasPrefix(lines[j], target)
    ensures FirstLine(lines, target) == Some(lines[i])
  {
    var r := FirstLine(lines, target);
    assert r.Some?;
    var k :| 0 <= k < |lines| && lines[k] == r.value && !Skipped(r.value) && HasPrefix(r.value, target)
              && forall j :: 0 <= j < k ==> Skipped(lines[j]) || !HasPrefix(lines[j], target);
    if k < i {
      assert false;
    } else if k > i {
      assert false;
    }
  }

  /** How many word fields the loop reads: `w_cnt`, bounded by the fields present after index 3. */
  function SynCount(n: nat, w: int): (k: nat)
    requires n >= 4
    ensures k <= (if w > 0 then w else 0)
    ensures forall j :: 0 <= j < k ==> 4 + 2 * j < n
    ensures w > k ==> 4 + 2 * k >= n
  {
    if w <= 0 then 0 else if w < (n - 3) / 2 then w else (n - 3) / 2
  }

  /** The words of a synset: fields 4, 6, 8, … (each followed by its lex_id), lowercased. */
  function SynonymsOf(toks: seq<string>, w: int): (syns: seq<string>)
    requires |toks| >= 4
    ensures |syns| == SynCount(|toks|, w)
    ensures forall j :: 0 <= j < |syns| ==> syns[j] == Lower(toks[4 + 2 * j])
  {
    seq(SynCount(|toks|, w), j requires 0 <= j < SynCount(|toks|, w) => Lower(toks[4 + 2 * j]))
  }

  /** The loop that steps over word/lex_id pairs. */
  method ReadSynonyms(toks: seq<string>, w: int) returns (syns: seq<string>)
    requires |toks| >= 4
    ensures syns == SynonymsOf(toks, w)
  {
    syns := [];
    var i := 4;
    var c := 0;
    var n := if w > 0 then w else 0;
    while c < n
      invariant 0 <= c <= n && i == 4 + 2 * c
      invariant c <= SynCount(|toks|, w)
      invariant syns == SynonymsOf(toks, w)[..c]
    {
      if i >= |toks| {
        break;
      }
      syns := syns + [Lower(toks[i])];
      i := i + 2;
      c := c + 1;
    }
  }

  /** The gloss and the words of a data line: the text after the first " | ", and `w_cnt` words. */
  function ParseDataLine(line: string): (string, seq<string>) {
    var pre := match SplitOnce(line, " | ") case Some(p) => p.0 case None => line;
    var gloss := match SplitOnce(line, " | ") case Some(p) => Strip(p.1) case None => "";
    var toks := Words(Strip(pre));
    if |toks| < 4 then (gloss, [])
    else
      var w := match ParseHex(toks[3]) case Some(n) => n case None => 0;
      (gloss, SynonymsOf(toks, w))
  }

  /** The synset at `offset` in the data file for `pos`: (gloss, words), or None. */
  function Synset(files: Lines, pos: Json, offset: int): Result<Option<(string, seq<string>)>> {
    if pos.JArr? || pos.JObj? then Failure("unhashable type: '" + TypeName(pos) + "'")
    else
      match DataPath(pos)
      case None => Success(None)
      case Some(path) =>
        if path !in files then Success(None)
        else
          match FirstLine(files[path], Target(offset))
          case None => Success(None)
          case Some(line) => Success(Some(ParseDataLine(line)))
  }

  /** `_read_synset(pos, offset)`: the file lookup, then the scan over the data file's lines. */
  method ReadSynset(files: Lines, pos: Json, offset: int) returns (r: Result<Option<(string, seq<string>)>>)
    ensures r == Synset(files, pos, offset)
  {
    if pos.JArr? || pos.JObj? {
      return Failure("unhashable type: '" + TypeName(pos) + "'");
    }
    var path := DataPath(pos);
    if path.None? || path.value !in files {
      return Success(None);
    }
    var found := ScanSynset(files[path.value], Target(offset));
    r := Success(found);
  }

  /** The loop of `_read_synset`: the first data line for `target`, parsed. */
  method ScanSynset(lines: seq<string>, target: string) returns (r: Option<(string, seq<string>)>)
    ensures r == match FirstLine(lines, target) case None => None case Some(line) => Some(ParseDataLine(line))
  {
    var i := 0;
    while i < |lines|
      invariant 0 <= i <= |lines|
      invariant forall j :: 0 <= j < i ==> Skipped(lines[j]) || !HasPrefix(lines[j], target)
    {
      var line := lines[i];
      if !Skipped(line) && HasPrefix(line, target) {
        FirstLineAt(lines, target, i);
        var parsed := ParseLine(line);
        return Some(parsed);
      }
      i := i + 1;
    }
    r := None;
  }

  /** The parse of one data line, with the word fields read by the stepping loop. */
  method ParseLine(line: string) returns (r: (string, seq<string>))
    ensures r == ParseDataLine(line)
  {
    var parts := SplitOnce(line, " | ");
    var pre := match parts case Some(p) => p.0 case None => line;
    var gloss := match parts case Some(p) => Strip(p.1) case None => "";
    var toks := Words(Strip(pre));
    if |toks| < 4 {
      return (gloss, []);
    }
    var w := match ParseHex(toks[3]) case Some(n) => n case None => 0;
    var syns := ReadSynonyms(toks, w);
    r := (gloss, syns);
  }

  // ---------------------------------------------------------------- the n-gram language model

  /** The loaded language model: its order and its context -> next-character counts. */
  datatype Lm = Lm(order: int, counts: Table)

  /** The newest SFT checkpoint (a `ckpt_sft_*.json` in an `sft_` directory): its file name, model and seed. */
  datatype Checkpoint = Checkpoint(name: string, lm: Lm, seed: int)

  /**
   * What `_load_or_build_lm` finds: the prebuilt model of `lm_ngram.json`,
   * the newest SFT checkpoint, the text read from the dataset files and
   * those files' names (synthetic sets first, then uploads, each by name).
   */
  datatype LmSources = LmSources(prebuilt: Option<Lm>, checkpoint: Option<Checkpoint>, corpus: string, names: seq<string>)

  /** `_LM_PATH`. */
  const LmPath: string := Child(Child(ArtifactsDir, "chat"), "lm_ngram.json")

  const StoredContexts: nat := 20000
  const LmSeed: int := 1337

  /** `f"{r.get('lemma','')} "` over the first 5000 index records. */
  function LemmaCorpus(recs: seq<map<string, Json>>): string
    decreases |recs|
  {
    if |recs| == 0 then "" else Show(Get(recs[0], "lemma", JStr(""))) + " " + LemmaCorpus(recs[1..])
  }

  /** `built_from` of a built model: the first three file names, "+" when there are more; None without files. */
  function BuiltFrom(names: seq<string>): (b: Json)
    ensures b == JNull <==> |names| == 0
    ensures 0 < |names| <= 3 ==> b == JStr(Join(",", names))
    ensures |names| > 3 ==> b == JStr(Join(",", names[..3]) + "+")
  {
    if |names| == 0 then JNull
    else if |names| <= 3 then JStr(Join(",", names))
    else JStr(Join(",", Take(names, 3)) + "+")
  }

  /** The document written to `lm_ngram.json`. */
  function LmDoc(order: int, counts: Table, seed: int, builtFrom: Json): Json {
    JObj(map["order" := JInt(order), "counts" := JObj(Bubble.DictJson(counts, Bubble.BucketJson)),
             "seed" := JInt(seed), "built_from" := builtFrom])
  }

  /** A prebuilt model is used when its counts are non-empty. */
  predicate UsesPrebuilt(src: LmSources) {
    src.prebuilt.Some? && |src.prebuilt.value.counts| > 0
  }

  /**
   * The model `_load_or_build_lm` yields: a prebuilt model with non-empty
   * counts, else the newest SFT checkpoint, else the n-gram counts of the
   * dataset corpus (or of the lemma corpus when that is empty) at order
   * `max(1, order)`.
   */
  function LmOf(src: LmSources, recs: seq<map<string, Json>>, order: int): Lm {
    if UsesPrebuilt(src) then src.prebuilt.value
    else if src.checkpoint.Some? then src.checkpoint.value.lm
    else
      var text := if src.corpus == "" then LemmaCorpus(Take(recs, 5000)) else src.corpus;
      var o: nat := if order > 1 then order else 1;
      Lm(o, NgramAt(text, o, Positions(text, o)))
  }

  /**
   * What `_load_or_build_lm` saves to `lm_ngram.json`: nothing for a
   * prebuilt model; for the others the model in use, with all of a
   * checkpoint's counts but only the first 20000 contexts of a built model.
   */
  function LmWrite(src: LmSources, recs: seq<map<string, Json>>, order: int): (w: Option<Json>)
    ensures w.None? <==> UsesPrebuilt(src)
    ensures w.Some? ==> var lm := LmOf(src, recs, order);
      w.value.JObj? && w.value.fields.Keys == {"order", "counts", "seed", "built_from"}
      && w.value.fields["order"] == JInt(lm.order)
    ensures w.Some? && src.checkpoint.Some? ==> var ck := src.checkpoint.value;
      w.value.fields["counts"] == JObj(Bubble.DictJson(LmOf(src, recs, order).counts, Bubble.BucketJson))
      && w.value.fields["seed"] == JInt(ck.seed) && w.value.fields["built_from"] == JStr("sft:" + ck.name)
    ensures w.Some? && src.checkpoint.None? ==>
      w.value.fields["counts"] == JObj(Bubble.DictJson(Take(LmOf(src, recs, order).counts, StoredContexts), Bubble.BucketJson))
      && w.value.fields["seed"] == JInt(LmSeed) && w.value.fields["built_from"] == BuiltFrom(src.names)
  {
    if UsesPrebuilt(src) then None
    else if src.checkpoint.Some? then
      var ck := src.checkpoint.value;
      Some(LmDoc(ck.lm.order, ck.lm.counts, ck.seed, JStr("sft:" + ck.name)))
    else
      var lm := LmOf(src, recs, order);
      Some(LmDoc(lm.order, Take(lm.counts, StoredContexts), LmSeed, BuiltFrom(src.names)))
  }

  /** A built model counts every transition of its corpus exactly once. */
  lemma BuiltLmCounts(corpus: string, names: seq<string>, recs: seq<map<string, Json>>, order: int, ctx: string, nxt: string)
    requires corpus != ""
    ensures var lm := LmOf(LmSources(None, None, corpus, names), recs, order);
      lm.order >= 1 && lm.order >= order
      && Total(lm.counts) == Positions(corpus, lm.order)
      && CountIn(lm.counts, ctx, nxt) == |Occurrences(corpus, lm.order, Positions(corpus, lm.order), ctx, nxt)|
      && UnitTable(lm.counts)
  {
    var o: nat := if order > 1 then order else 1;
    NgramTotal(corpus, o, Positions(corpus, o));
    NgramCount(corpus, o, Positions(corpus, o), ctx, nxt);
    NgramUnit(corpus, o, Positions(corpus, o));
  }

  /**
   * The build branch of `_load_or_build_lm`: the counting loop, and the
   * table persisted with the model (its first 20000 contexts).
   */
  method BuildLm(corpus: string, recs: seq<map<string, Json>>, order: int) returns (lm: Lm, persisted: Table)
    ensures lm == LmOf(LmSources(None, None, corpus, []), recs, order)
    ensures persisted == Take(lm.counts, StoredContexts) && |persisted| <= StoredContexts
  {
    var text := if corpus == "" then LemmaCorpus(Take(recs, 5000)) else corpus;
    var o: nat := if order > 1 then order else 1;
    var counts := BuildNgram(text, o);
    lm := Lm(o, counts);
    persisted := Take(counts, StoredContexts);
  }

  /**
   * `_load_or_build_lm(order)`: the model in use, saving `LmWrite` to
   * `lm_ngram.json` when it was not prebuilt.
   */
  method LoadOrBuildLm(store: Store, src: LmSources, recs: seq<map<string, Json>>, order: int) returns (lm: Lm)
    modifies store
    ensures lm == LmOf(src, recs, order)
    ensures LmWrite(src, recs, order).None? ==> store.tree == old(store.tree) && store.writes == old(store.writes)
    ensures LmWrite(src, recs, order).Some? ==>
      store.tree == old(store.tree)[LmPath := store.enc.Node(LmWrite(src, recs, order).value)]
      && store.writes == old(store.writes) + [(LmPath, LmWrite(src, recs, order).value)]
  {
    if UsesPrebuilt(src) {
      return src.prebuilt.value;
    }
    if src.checkpoint.Some? {
      var ck := src.checkpoint.value;
      store.WriteJson(LmPath, LmDoc(ck.lm.order, ck.lm.counts, ck.seed, JStr("sft:" + ck.name)));
      return ck.lm;
    }
    var persisted;
    lm, persisted := BuildLm(src.corpus, recs, order);
    store.WriteJson(LmPath, LmDoc(lm.order, persisted, LmSeed, BuiltFrom(src.names)));
  }

  /** One of the characters the counts can produce. */
  predicate KeyInTable(t: Table, k: string) {
    exists c :: c in t && HasKey(c.val, k)
  }

  /**
   * `_lm_generate(seed_text, n_tokens)`: with non-empty counts, extends the
   * seed one sampled piece at a time, backing off to the shorter context and
   * then to all spaces, and stopping when neither has counts; with empty
   * counts, the bubble babble over `uni`/`bi`.
   */
  method LmGenerate(lm: Lm, uni: Bucket, bi: Table, seedText: string, nTokens: int, draw: nat -> int)
    returns (out: string)
    ensures |seedText| <= |out| && out[..|seedText|] == seedText
    ensures |lm.counts| > 0 && UnitTable(lm.counts) ==>
      |out| <= |seedText| + (if nTokens > 0 then nTokens else 0)
      && forall i :: |seedText| <= i < |out| ==> out[i] == ' ' || KeyInTable(lm.counts, [out[i]])
  {
    if |lm.counts| == 0 {
      out := Bubble.GenerateBabble(uni, bi, seedText, nTokens, draw);
      return;
    }
    ghost var unit := UnitTable(lm.counts);
    var order := lm.order;
    var ctx := if seedText == "" then " " else seedText;
    if |ctx| < order {
      ctx := Drop(Repeat(" ", order) + ctx, -order);
    }
    out := seedText;
    var k: nat := 0;
    var n := if nTokens > 0 then nTokens else 0;
    var step := 0;
    while step < n
      invariant 0 <= step <= n
      invariant |seedText| <= |out| && out[..|seedText|] == seedText
      invariant unit ==> |out| == |seedText| + step
      invariant unit ==> forall i :: |seedText| <= i < |out| ==> out[i] == ' ' || KeyInTable(lm.counts, [out[i]])
    {
      var bucket := GetOr(lm.counts, ctx, []);
      if |bucket| == 0 {
        ctx := Drop(ctx, 1);
        if ctx == "" {
          ctx := Repeat(" ", order);
        }
        bucket := GetOr(lm.counts, ctx, []);
        if |bucket| == 0 {
          break;
        }
      }
      var ch: string;
      ch, k := Draw(bucket, draw, k);
      if unit {
        LmStep(lm.counts, ctx, bucket, ch, seedText, out);
      }
      out := out + ch;
      ctx := Drop(ctx + ch, -order);
      step := step + 1;
    }
  }

  /** A piece drawn from a context's bucket is one character, a space or a key of the table. */
  lemma LmStep(t: Table, ctx: string, bucket: Bucket, ch: string, seedText: string, out: string)
    requires UnitTable(t) && |bucket| > 0 && bucket == GetOr(t, ctx, [])
    requires ch == " " || HasKey(bucket, ch)
    requires |seedText| <= |out|
    requires forall i :: |seedText| <= i < |out| ==> out[i] == ' ' || KeyInTable(t, [out[i]])
    ensures |ch| == 1
    ensures forall i :: |seedText| <= i < |out + ch| ==> (out + ch)[i] == ' ' || KeyInTable(t, [(out + ch)[i]])
  {
    assert Cell(ctx, bucket) in t;
    if ch != " " {
      var j :| 0 <= j < |bucket| && bucket[j].key == ch;
      assert bucket[j] in bucket;
      assert [ch[0]] == ch;
    }
    forall i | |seedText| <= i < |out + ch| ensures (out + ch)[i] == ' ' || KeyInTable(t, [(out + ch)[i]]) {
      if i < |out| {
        assert (out + ch)[i] == out[i];
      }
    }
  }

  // ---------------------------------------------------------------- answers

  /** `s.replace("_", " ")`. */
  function Underscores(s: string): (r: string)
    ensures |r| == |s| && forall i :: 0 <= i < |r| ==> r[i] != '_'
  {
    seq(|s|, i requires 0 <= i < |s| => if s[i] == '_' then ' ' else s[i])
  }

  function InsertUnique(x: string, s: seq<string>): (r: seq<string>)
    requires StrictlySorted(s)
    ensures StrictlySorted(r)
    ensures forall y :: y in r <==> y == x || y in s
  {
    if |s| == 0 then [x]
    else if x == s[0] then s
    else if LexLess(x, s[0]) then
      assert forall j :: 1 <= j < |s| ==> LexLess(x, s[j]) by {
        forall j | 1 <= j < |s| ensures LexLess(x, s[j]) {
          LexLessTrans(x, s[0], s[j]);
        }
      }
      [x] + s
    else
      LexLessTotal(x, s[0]);
      var t := InsertUnique(x, s[1..]);
      assert forall y :: y in s[1..] ==> y in s;
      assert forall j :: 1 <= j < |s| ==> s[j] == s[1..][j - 1];
      assert forall y :: y in t ==> LexLess(s[0], y);
      [s[0]] + t
  }

  /** `sorted(set(xs))`: the distinct strings in increasing order. */
  function SortedSet(xs: seq<string>): (r: seq<string>)
    ensures StrictlySorted(r)
    ensures forall y :: y in r <==> y in xs
  {
    if |xs| == 0 then []
    else
      var t := SortedSet(xs[1..]);
      assert forall y :: y in xs <==> y == xs[0] || y in xs[1..];
      InsertUnique(xs[0], t)
  }

  /** The non-empty synonyms with underscores shown as spaces. */
  function Displayed(syns: seq<string>): seq<string>
    decreases |syns|
  {
    if |syns| == 0 then []
    else (if syns[0] != "" then [Underscores(syns[0])] else []) + Displayed(syns[1..])
  }

  /** `", ".join(sorted({s.replace("_", " ") for s in syns if s})) or "(none)"`. */
  function SynonymsDisplay(syns: seq<string>): string {
    var shown := Join(", ", SortedSet(Displayed(syns)));
    if shown == "" then "(none)" else shown
  }

  /** `pos[0]` for the part of speech of a record whose data file exists. */
  function PosInitial(pos: Json): string {
    match pos
    case JStr(s) => if |s| > 0 then [s[0]] else "?"
    case _ => "?"
  }

  /** The retrieval answer text. */
  function GlossAnswer(lem: string, pos: Json, off: int, gloss: string, syns: seq<string>): string {
    lem + " (" + Show(pos) + ") — Definition: " + gloss + ". Synonyms: " + SynonymsDisplay(syns) + ". "
    + "Provenance: WordNet offset " + RJust(IntToString(off), 8, '0') + " in data." + PosInitial(pos)
  }

  const FallbackPrefix: string := "No exact WordNet gloss was found for '"

  /** What the retrieval half of `generate_answer` finds for a lemma: record, offset and synset. */
  datatype Hit = Hit(rec: map<string, Json>, off: int, gloss: string, syns: seq<string>)

  function Lookup(recs: seq<map<string, Json>>, files: Lines, lem: string): Result<Option<Hit>> {
    match FindRecord(recs, lem)
    case None => Success(None)
    case Some(rec) =>
      if |rec| == 0 then Success(None)
      else
        var off :- ChooseOffset(Get(rec, "offsets", JArr([])));
        if off.None? then Success(None)
        else
          var syn :- Synset(files, Get(rec, "pos", JNull), off.value);
          if syn.None? then Success(None)
          else Success(Some(Hit(rec, off.value, syn.value.0, syn.value.1)))
  }

  /** A continuation `_lm_generate` may return for a seed: the seed extended. */
  predicate Continues(cont: string, seedText: string) {
    |seedText| <= |cont| && cont[..|seedText|] == seedText
  }

  /** The metadata of the fallback answer: the record's part of speech and offsets when one was found. */
  function FallbackMeta(lem: string, found: Option<map<string, Json>>): (m: Json)
    ensures m.JObj? && m.fields.Keys == {"lemma", "pos", "offsets", "lm"} && m.fields["lemma"] == JStr(lem)
    ensures m.fields["lm"] == JObj(map["used" := JBool(true), "order" := JInt(3), "seed" := JInt(1337)])
    ensures (found.None? || |found.value| == 0) ==> m.fields["pos"] == JNull && m.fields["offsets"] == JArr([])
    ensures found.Some? && |found.value| > 0 ==>
      m.fields["pos"] == Get(found.value, "pos", JNull) && m.fields["offsets"] == Get(found.value, "offsets", JArr([]))
  {
    var rec := if found.Some? && |found.value| > 0 then Some(found.value) else None;
    JObj(map[
      "lemma" := JStr(lem),
      "pos" := if rec.Some? then Get(rec.value, "pos", JNull) else JNull,
      "offsets" := if rec.Some? then Get(rec.value, "offsets", JArr([])) else JArr([]),
      "lm" := JObj(map["used" := JBool(true), "order" := JInt(3), "seed" := JInt(1337)])])
  }

  /**
   * What `generate_answer(text)` returns and how it leaves the files
   * (`before` to `after`, the writes `wBefore` to `wAfter`): a raise while
   * choosing the lemma or looking it up writes nothing; the gloss answer
   * saves the counts with one more observation of the lemma (unless reading
   * its count raises); the language-model fallback saves what
   * `_load_or_build_lm` persists.
   */
  ghost predicate Answered(text: string, recs: seq<map<string, Json>>, files: Lines, src: LmSources, enc: Encoder,
                           before: Tree, after: Tree, wBefore: seq<(string, Json)>, wAfter: seq<(string, Json)>,
                           r: Result<(string, Json)>)
  {
    match AnswerLemma(text, recs, StoredCounts(before))
    case Failure(e) => r == Failure(e) && after == before && wAfter == wBefore
    case Success(lem) => AnsweredFor(lem, recs, files, src, enc, before, after, wBefore, wAfter, r)
  }

  /** `Answered` once the lemma `lem` is chosen: the lookup's raise, the fallback or the gloss. */
  ghost predicate AnsweredFor(lem: string, recs: seq<map<string, Json>>, files: Lines, src: LmSources, enc: Encoder,
                              before: Tree, after: Tree, wBefore: seq<(string, Json)>, wAfter: seq<(string, Json)>,
                              r: Result<(string, Json)>)
  {
    match Lookup(recs, files, lem)
    case Failure(e) => r == Failure(e) && after == before && wAfter == wBefore
    case Success(None) =>
      var w := LmWrite(src, recs, 3);
      (w.None? ==> after == before && wAfter == wBefore)
      && (w.Some? ==> after == before[LmPath := enc.Node(w.value)] && wAfter == wBefore + [(LmPath, w.value)])
      && r.Success?
      && (exists cont: string :: Continues(cont, lem + " — ")
            && r.value.0 == FallbackPrefix + lem + "'. Local continuation: " + Strip(cont))
      && r.value.1 == FallbackMeta(lem, FindRecord(recs, lem))
    case Success(Some(h)) => GlossAnswered(lem, h, enc, StoredCounts(before), before, after, wBefore, wAfter, r)
  }

  /**
   * The gloss answer for `lem` and the hit `h` with stored counts `c`: the
   * counts saved with one more observation and the metadata reporting it,
   * or the raise of reading the stored count.
   */
  ghost predicate GlossAnswered(lem: string, h: Hit, enc: Encoder, c: Json,
                                before: Tree, after: Tree, wBefore: seq<(string, Json)>, wAfter: seq<(string, Json)>,
                                r: Result<(string, Json)>)
  {
    match Bumped(c, lem)
    case Failure(e) => r == Failure(e) && after == before && wAfter == wBefore
    case Success(u) =>
      after == before[CountsPath := enc.Node(u)] && wAfter == wBefore + [(CountsPath, u)]
      && r.Success?
      && r.value.0 == GlossAnswer(lem, Get(h.rec, "pos", JNull), h.off, h.gloss, h.syns)
      && r.value.1 == JObj(map[
           "lemma" := JStr(lem), "pos" := Get(h.rec, "pos", JNull),
           "offsets" := Get(h.rec, "offsets", JArr([])), "chosen_offset" := JInt(h.off),
           "counts" := JObj(map[lem := JInt(CountOf(c, lem).value + 1)]),
           "lm" := JObj(map["used" := JBool(false)])])
  }

  /** The gloss branch, once the hit and the new counts are known. */
  lemma AnsweredGloss(c: Json, enc: Encoder, before: Tree, ws: seq<(string, Json)>, lem: string, h: Hit, u: Json,
                      r: Result<(string, Json)>)
    requires Bumped(c, lem) == Success(u)
    requires r == Success((GlossAnswer(lem, Get(h.rec, "pos", JNull), h.off, h.gloss, h.syns),
                           JObj(map["lemma" := JStr(lem), "pos" := Get(h.rec, "pos", JNull),
                                    "offsets" := Get(h.rec, "offsets", JArr([])), "chosen_offset" := JInt(h.off),
                                    "counts" := JObj(map[lem := Get(u.fields, lem, JInt(1))]),
                                    "lm" := JObj(map["used" := JBool(false)])])))
    ensures GlossAnswered(lem, h, enc, c, before, before[CountsPath := enc.Node(u)], ws, ws + [(CountsPath, u)], r)
  {
    BumpedCount(c, lem, u);
  }

  /** `counts.get(lemma, 1)` after `update_counts(lemma)` is one more than the stored count. */
  lemma BumpedCount(c: Json, lem: string, u: Json)
    requires Bumped(c, lem) == Success(u)
    ensures c.JObj? && Get(u.fields, lem, JInt(1)) == JInt(CountOf(c, lem).value + 1)
  {
  }

  /**
   * `generate_answer(text)`: the WordNet gloss of the chosen lemma when its
   * record, an offset and the synset line are all found (saving one more
   * observation of the lemma), otherwise the language-model continuation of
   * "lemma — ". A raise while choosing the lemma, during the lookup or while
   * counting is the Failure.
   */
  method GenerateAnswer(store: Store, text: string, recs: seq<map<string, Json>>, files: Lines,
                        src: LmSources, uni: Bucket, bi: Table, draw: nat -> int)
    returns (r: Result<(string, Json)>)
    modifies store
    ensures Answered(text, recs, files, src, store.enc, old(store.tree), store.tree, old(store.writes), store.writes, r)
  {
    ghost var before, ws := store.tree, store.writes;
    var chosen := AnswerLemma(text, recs, StoredCounts(store.tree));
    if chosen.Failure? {
      return Failure(chosen.error);
    }
    var lem := chosen.value;
    var found := FindRecord(recs, lem);
    if found.Some? && |found.value| > 0 {
      var rec := found.value;
      var pos := Get(rec, "pos", JNull);
      var offsets := Get(rec, "offsets", JArr([]));
      var choice := ChooseOffset(offsets);
      if choice.Failure? {
        assert Lookup(recs, files, lem) == Failure(choice.error);
        return Failure(choice.error);
      }
      var off := choice.value;
      if off.Some? {
        var syn := ReadSynset(files, pos, off.value);
        if syn.Failure? {
          assert Lookup(recs, files, lem) == Failure(syn.error);
          return Failure(syn.error);
        }
        if syn.value.Some? {
          var (gloss, syns) := syn.value.value;
          ghost var h := Hit(rec, off.value, gloss, syns);
          assert Lookup(recs, files, lem) == Success(Some(h));
          var counts := UpdateCounts(store, lem);
          if counts.Failure? {
            return Failure(counts.error);
          }
          var answer := GlossAnswer(lem, pos, off.value, gloss, syns);
          var meta := JObj(map[
            "lemma" := JStr(lem), "pos" := pos, "offsets" := offsets,
            "chosen_offset" := JInt(off.value),
            "counts" := JObj(map[lem := Get(counts.value.fields, lem, JInt(1))]),
            "lm" := JObj(map["used" := JBool(false)])]);
          r := Success((answer, meta));
          AnsweredGloss(StoredCounts(before), store.enc, before, ws, lem, h, counts.value, r);
          return;
        }
        assert Lookup(recs, files, lem) == Success(None);
      } else {
        assert Lookup(recs, files, lem) == Success(None);
      }
    } else {
      assert Lookup(recs, files, lem) == Success(None);
    }
    var lm := LoadOrBuildLm(store, src, recs, 3);
    var seedText := lem + " — ";
    var continuation := LmGenerate(lm, uni, bi, seedText, 48, draw);
    var answer := FallbackPrefix + lem + "'. Local continuation: " + Strip(continuation);
    r := Success((answer, FallbackMeta(lem, found)));
    assert Continues(continuation, seedText);
  }
}
