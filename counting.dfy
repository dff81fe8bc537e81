/**
 * Insertion-ordered count tables shared by the character language models:
 * the n-gram builders of the chat runtime, the bubble learner and the SFT
 * trainer, and the cumulative-weight sampler they draw from.
 *
 * A Python dict is an insertion-ordered sequence of cells; assigning to an
 * existing key keeps its position, a new key is appended at the end.
 */
module Counting {
  import opened Wrappers
  import opened Text

  datatype Cell<V> = Cell(key: string, val: V)
  type Dict<V> = seq<Cell<V>>

  /** `dict[str, int]`: a bucket of next-character counts. */
  type Bucket = Dict<int>
  /** `dict[str, dict[str, int]]`: context -> bucket. */
  type Table = Dict<Bucket>

  predicate Distinct<V>(d: Dict<V>) {
    forall i, j :: 0 <= i < j < |d| ==> d[i].key != d[j].key
  }

  /** `d.get(k)`: the value of the first cell with key `k`. */
  function Find<V>(d: Dict<V>, k: string): (r: Option<V>)
    ensures r.None? <==> forall i :: 0 <= i < |d| ==> d[i].key != k
    ensures r.Some? ==> Cell(k, r.value) in d
  {
    if |d| == 0 then None
    else if d[0].key == k then Some(d[0].val)
    else Find(d[1..], k)
  }

  /** `d.get(k, dflt)`. */
  function GetOr<V>(d: Dict<V>, k: string, dflt: V): V {
    match Find(d, k)
    case Some(v) => v
    case None => dflt
  }

  /** `d[k] = v`: replaced in place when present, appended otherwise. */
  function Put<V>(d: Dict<V>, k: string, v: V): (r: Dict<V>)
    ensures Find(r, k) == Some(v)
    ensures forall k' :: k' != k ==> Find(r, k') == Find(d, k')
  {
    if |d| == 0 then [Cell(k, v)]
    else if d[0].key == k then [Cell(k, v)] + d[1..]
    else [d[0]] + Put(d[1..], k, v)
  }

  /** `b.get(k, 0)`. */
  function Count(b: Bucket, k: string): int { GetOr(b, k, 0) }

  /** `b[k] = b.get(k, 0) + 1`. */
  function Bump(b: Bucket, k: string): (r: Bucket)
    ensures Count(r, k) == Count(b, k) + 1
    ensures forall k' :: k' != k ==> Count(r, k') == Count(b, k')
    ensures Sum(r) == Sum(b) + 1
  {
    SumPut(b, k, Count(b, k) + 1);
    Put(b, k, Count(b, k) + 1)
  }

  /** `sum(b.values())`. */
  function Sum(b: Bucket): int {
    if |b| == 0 then 0 else b[0].val + Sum(b[1..])
  }

  lemma {:induction false} SumPut(b: Bucket, k: string, v: int)
    ensures Sum(Put(b, k, v)) == Sum(b) - Count(b, k) + v
  {
    if |b| > 0 && b[0].key != k {
      SumPut(b[1..], k, v);
      assert Put(b, k, v)[1..] == Put(b[1..], k, v);
    } else if |b| > 0 {
      assert Put(b, k, v)[1..] == b[1..];
    }
  }

  /** The number of transitions held by a table. */
  function Total(t: Table): int {
    if |t| == 0 then 0 else Sum(t[0].val) + Total(t[1..])
  }

  lemma {:induction false} TotalPut(t: Table, c: string, b: Bucket)
    ensures Total(Put(t, c, b)) == Total(t) - Sum(GetOr(t, c, [])) + Sum(b)
  {
    if |t| > 0 && t[0].key != c {
      TotalPut(t[1..], c, b);
      assert Put(t, c, b)[1..] == Put(t[1..], c, b);
    } else if |t| > 0 {
      assert Put(t, c, b)[1..] == t[1..];
    }
  }

  /** `counts[ctx][nxt]`, 0 when either key is absent. */
  function CountIn(t: Table, ctx: string, nxt: string): int {
    Count(GetOr(t, ctx, []), nxt)
  }

  /** `counts.setdefault(ctx, {})[nxt] += 1`. */
  function Increment(t: Table, ctx: string, nxt: string): (r: Table)
    ensures Total(r) == Total(t) + 1
    ensures GetOr(r, ctx, []) == Bump(GetOr(t, ctx, []), nxt)
  {
    var b := Bump(GetOr(t, ctx, []), nxt);
    TotalPut(t, ctx, b);
    Put(t, ctx, b)
  }

  /** An increment adds one to exactly one count. */
  lemma IncrementCount(t: Table, ctx: string, nxt: string, c: string, n: string)
    ensures CountIn(Increment(t, ctx, nxt), c, n) == CountIn(t, c, n) + (if c == ctx && n == nxt then 1 else 0)
  {
  }

  // ---------------------------------------------------------------- n-gram tables

  /** The number of positions an order-`order` model of `text` counts. */
  function Positions(text: string, order: nat): (n: nat)
    ensures n > 0 ==> n + order == |text|
  {
    if |text| > order then |text| - order else 0
  }

  /** The table after counting the transitions starting at positions `0 .. m-1`. */
  function NgramAt(text: string, order: nat, m: nat): Table
    requires m <= Positions(text, order)
  {
    if m == 0 then []
    else Increment(NgramAt(text, order, m - 1), text[m - 1..m - 1 + order], [text[m - 1 + order]])
  }

  lemma NgramStep(text: string, order: nat, i: nat)
    requires i < Positions(text, order)
    ensures NgramAt(text, order, i + 1) == Increment(NgramAt(text, order, i), text[i..i + order], [text[i + order]])
  {
  }

  /** Position `i` of `text` holds context `ctx` followed by `nxt`. */
  predicate TransitionAt(text: string, order: nat, i: nat, ctx: string, nxt: string) {
    i + order < |text| && text[i..i + order] == ctx && [text[i + order]] == nxt
  }

  /** The positions below `m` satisfying `at`. */
  function Below(m: nat, at: nat -> bool): set<nat> {
    set i: nat | i < m && at(i)
  }

  /** Position `m - 1` joins the positions below `m` exactly when it satisfies `at`. */
  lemma BelowStep(m: nat, at: nat -> bool)
    requires m > 0
    ensures |Below(m, at)| == |Below(m - 1, at)| + (if at(m - 1) then 1 else 0)
  {
    if at(m - 1) {
      assert Below(m, at) == Below(m - 1, at) + {m - 1};
    } else {
      assert Below(m, at) == Below(m - 1, at);
    }
  }

  /** The positions where `ctx` is followed by `nxt`. */
  function TransitionsOf(text: string, order: nat, ctx: string, nxt: string): nat -> bool {
    (i: nat) => TransitionAt(text, order, i, ctx, nxt)
  }

  /** The positions below `m` where `ctx` is followed by `nxt`. */
  function Occurrences(text: string, order: nat, m: nat, ctx: string, nxt: string): set<nat> {
    Below(m, TransitionsOf(text, order, ctx, nxt))
  }

  /** Every count of the table is the number of positions where that transition occurs. */
  lemma {:induction false} NgramCount(text: string, order: nat, m: nat, ctx: string, nxt: string)
    requires m <= Positions(text, order)
    ensures CountIn(NgramAt(text, order, m), ctx, nxt) == |Occurrences(text, order, m, ctx, nxt)|
  {
    if m > 0 {
      NgramCount(text, order, m - 1, ctx, nxt);
      IncrementCount(NgramAt(text, order, m - 1), text[m - 1..m - 1 + order], [text[m - 1 + order]], ctx, nxt);
      OccurrencesStep(text, order, m, ctx, nxt);
    }
  }

  lemma OccurrencesStep(text: string, order: nat, m: nat, ctx: string, nxt: string)
    requires m > 0
    ensures |Occurrences(text, order, m, ctx, nxt)|
            == |Occurrences(text, order, m - 1, ctx, nxt)| + (if TransitionAt(text, order, m - 1, ctx, nxt) then 1 else 0)
  {
    BelowStep(m, TransitionsOf(text, order, ctx, nxt));
  }

  /** The table holds exactly one transition per counted position. */
  lemma {:induction false} NgramTotal(text: string, order: nat, m: nat)
    requires m <= Positions(text, order)
    ensures Total(NgramAt(text, order, m)) == m
  {
    if m > 0 {
      NgramTotal(text, order, m - 1);
    }
  }

  /**
   * The n-gram build loop: for each `i` in `range(len(text) - order)`, the
   * context `text[i:i+order]` gets one more count for `text[i+order]`.
   */
  method BuildNgram(text: string, order: nat) returns (counts: Table)
    ensures counts == NgramAt(text, order, Positions(text, order))
    ensures Total(counts) == Positions(text, order)
  {
    var n := Positions(text, order);
    counts := [];
    var i := 0;
    while i < n
      invariant i <= n
      invariant counts == NgramAt(text, order, i)
    {
      NgramStep(text, order, i);
      counts := Increment(counts, text[i..i + order], [text[i + order]]);
      i := i + 1;
    }
    NgramTotal(text, order, i);
  }

  /** The per-character counts: the single bucket of the order-0 table. */
  function Unigrams(text: string, m: nat): Bucket
    requires m <= |text|
  {
    GetOr(NgramAt(text, 0, m), "", [])
  }

  lemma {:induction false} UnigramSum(text: string, m: nat)
    requires m <= |text|
    ensures Sum(Unigrams(text, m)) == m
  {
    if m > 0 {
      UnigramSum(text, m - 1);
    }
  }

  /** Each character is counted once per occurrence, and the counts sum to the length. */
  lemma UnigramCount(text: string, c: char)
    ensures Count(Unigrams(text, |text|), [c]) == |set i: nat | i < |text| && text[i] == c|
    ensures Sum(Unigrams(text, |text|)) == |text|
  {
    NgramCount(text, 0, |text|, "", [c]);
    var a := Occurrences(text, 0, |text|, "", [c]);
    var b := set i: nat | i < |text| && text[i] == c;
    forall i: nat | i < |text| ensures TransitionAt(text, 0, i, "", [c]) <==> text[i] == c {
      assert text[i..i] == "";
    }
    assert a == b;
    UnigramSum(text, |text|);
  }

  /** `for ch in text: uni[ch] = uni.get(ch, 0) + 1`. */
  method Tally(text: string) returns (uni: Bucket)
    ensures uni == Unigrams(text, |text|)
  {
    uni := [];
    var i := 0;
    while i < |text|
      invariant i <= |text|
      invariant uni == Unigrams(text, i)
    {
      uni := Bump(uni, [text[i]]);
      i := i + 1;
    }
  }

  // ---------------------------------------------------------------- sorting dictionary items

  /** The two orders in which the source sorts `d.items()`: by `(count, key)` or by `(key, count)`. */
  datatype SortKey = ByCount | ByKey

  /** `a <= b` as Python compares the items' `(val, key)` or `(key, val)` tuples. */
  predicate ItemLe(a: Cell<int>, b: Cell<int>, o: SortKey) {
    match o
    case ByCount => a.val < b.val || (a.val == b.val && (a.key == b.key || LexLess(a.key, b.key)))
    case ByKey => LexLess(a.key, b.key) || (a.key == b.key && a.val <= b.val)
  }

  lemma ItemLeTotal(a: Cell<int>, b: Cell<int>, o: SortKey)
    ensures ItemLe(a, b, o) || ItemLe(b, a, o)
  {
    if a.key != b.key {
      LexLessTotal(a.key, b.key);
    }
  }

  lemma ItemLeTrans(a: Cell<int>, b: Cell<int>, c: Cell<int>, o: SortKey)
    requires ItemLe(a, b, o) && ItemLe(b, c, o)
    ensures ItemLe(a, c, o)
  {
    if a.key != b.key && b.key != c.key {
      if o.ByKey? || a.val == b.val == c.val {
        LexLessTrans(a.key, b.key, c.key);
      }
    }
    if o.ByKey? && a.key == c.key && a.key != b.key {
      LexLessTrans(a.key, b.key, a.key);
      LexLessIrreflexive(a.key);
    }
  }

  predicate SortedBy(s: Dict<int>, o: SortKey) {
    forall i, j :: 0 <= i < j < |s| ==> ItemLe(s[i], s[j], o)
  }

  function Insert(x: Cell<int>, s: Dict<int>, o: SortKey): (r: Dict<int>)
    requires SortedBy(s, o)
    ensures multiset(r) == multiset(s) + multiset{x}
    ensures SortedBy(r, o)
  {
    if |s| == 0 then [x]
    else if ItemLe(x, s[0], o) then
      InsertFront(x, s, o);
      [x] + s
    else
      ItemLeTotal(x, s[0], o);
      var t := Insert(x, s[1..], o);
      assert s == [s[0]] + s[1..];
      InsertBehind(s[0], x, s[1..], t, o);
      [s[0]] + t
  }

  lemma InsertFront(x: Cell<int>, s: Dict<int>, o: SortKey)
    requires SortedBy(s, o) && |s| > 0 && ItemLe(x, s[0], o)
    ensures SortedBy([x] + s, o)
  {
    var r := [x] + s;
    forall i, j | 0 <= i < j < |r| ensures ItemLe(r[i], r[j], o) {
      if i == 0 && j > 1 {
        ItemLeTrans(x, s[0], s[j - 1], o);
      }
    }
  }

  lemma InsertBehind(h: Cell<int>, x: Cell<int>, rest: Dict<int>, t: Dict<int>, o: SortKey)
    requires SortedBy([h] + rest, o) && ItemLe(h, x, o)
    requires SortedBy(t, o) && multiset(t) == multiset(rest) + multiset{x}
    ensures SortedBy([h] + t, o)
  {
    var r := [h] + t;
    forall i, j | 0 <= i < j < |r| ensures ItemLe(r[i], r[j], o) {
      if i == 0 {
        var y := t[j - 1];
        assert y in multiset(t);
        if y != x {
          assert y in multiset(rest);
          var k :| 0 <= k < |rest| && rest[k] == y;
          assert ([h] + rest)[k + 1] == y && ([h] + rest)[0] == h;
        }
        assert r[0] == h && r[j] == y;
      } else {
        assert r[i] == t[i - 1] && r[j] == t[j - 1];
      }
    }
  }

  /** `sorted(d.items(), key=...)` for either of the two orders: a sorted permutation. */
  function SortBy(d: Dict<int>, o: SortKey): (r: Dict<int>)
    ensures multiset(r) == multiset(d)
    ensures SortedBy(r, o)
  {
    if |d| == 0 then []
    else
      assert d == [d[0]] + d[1..];
      Insert(d[0], SortBy(d[1..], o), o)
  }

  /** `sorted(d.items(), key=lambda kv: (kv[1], kv[0]))`. */
  function SortByCount(d: Dict<int>): Dict<int> { SortBy(d, ByCount) }

  // ---------------------------------------------------------------- cumulative sampling

  /** The sum of the first `k` counts. */
  function PrefixSum(items: Dict<int>, k: nat): int
    requires k <= |items|
  {
    if k == 0 then 0 else PrefixSum(items, k - 1) + items[k - 1].val
  }

  /** The accumulator loop: the first item whose running sum reaches `r`, else the last item. */
  function PickFrom(items: Dict<int>, r: int): string
    requires |items| > 0
  {
    if r <= items[0].val || |items| == 1 then items[0].key
    else PickFrom(items[1..], r - items[0].val)
  }

  /** The index the accumulator loop stops at. */
  function ReachIndex(items: Dict<int>, r: int): (k: nat)
    requires |items| > 0
    ensures k < |items|
  {
    if r <= items[0].val || |items| == 1 then 0
    else 1 + ReachIndex(items[1..], r - items[0].val)
  }

  lemma {:induction false} PrefixSumTail(items: Dict<int>, k: nat)
    requires 0 < k <= |items|
    ensures PrefixSum(items, k) == items[0].val + PrefixSum(items[1..], k - 1)
  {
    if k > 1 {
      PrefixSumTail(items, k - 1);
    }
  }

  /**
   * The picked key is at the first index whose running sum is at least `r`;
   * when no running sum reaches `r`, it is the last key.
   */
  lemma {:induction false} PickFromReaches(items: Dict<int>, r: int)
    requires |items| > 0
    ensures PickFrom(items, r) == items[ReachIndex(items, r)].key
    ensures forall j :: 0 < j <= ReachIndex(items, r) ==> PrefixSum(items, j) < r
    ensures ReachIndex(items, r) < |items| - 1 ==> r <= PrefixSum(items, ReachIndex(items, r) + 1)
    ensures ReachIndex(items, r) == |items| - 1 ==> forall j :: 0 < j < |items| ==> PrefixSum(items, j) < r
  {
    if !(r <= items[0].val || |items| == 1) {
      var tail := items[1..];
      var r' := r - items[0].val;
      PickFromReaches(tail, r');
      var k := ReachIndex(items, r);
      forall j | 0 < j <= k ensures PrefixSum(items, j) < r {
        PrefixSumTail(items, j);
      }
      if k < |items| - 1 {
        PrefixSumTail(items, k + 1);
      }
    }
  }

  /** The keys of a dictionary. */
  predicate HasKey<V>(d: Dict<V>, k: string) { exists i :: 0 <= i < |d| && d[i].key == k }

  /**
   * `_sample_from_counts(d)` / `_sample_from_bucket(d)` with the draw
   * `random.randint(1, total)` given as `r`: " " when the total is not
   * positive; otherwise the accumulator loop over the items sorted by
   * (count, key).
   */
  method Sample(d: Bucket, r: int) returns (ch: string)
    ensures Sum(d) <= 0 ==> ch == " "
    ensures Sum(d) > 0 ==> |d| > 0 && ch == PickFrom(SortByCount(d), r)
  {
    var items := SortByCount(d);
    var total := Sum(d);
    if total <= 0 {
      return " ";
    }
    SortedLength(d);
    ch := Accumulate(items, r);
  }

  lemma SortedLength(d: Dict<int>)
    ensures |SortByCount(d)| == |d|
  {
    assert |multiset(SortByCount(d))| == |multiset(d)|;
  }

  /** `acc += v; if r <= acc: return ch` over the items, then `items[-1][0]`. */
  method Accumulate(items: Dict<int>, r: int) returns (ch: string)
    requires |items| > 0
    ensures ch == PickFrom(items, r)
  {
    var acc := 0;
    var i := 0;
    while i < |items|
      invariant i <= |items|
      invariant acc == PrefixSum(items, i)
      invariant forall j :: 0 < j <= i ==> PrefixSum(items, j) < r
      invariant i < |items| ==> PickFrom(items, r) == PickFrom(items[i..], r - acc)
    {
      acc := acc + items[i].val;
      if r <= acc {
        return items[i].key;
      }
      if i + 1 < |items| {
        assert items[i..][1..] == items[i + 1..];
      }
      i := i + 1;
    }
    LastPick(items, r);
    ch := items[|items| - 1].key;
  }

  /** When no running sum reaches `r`, the loop falls back to the last key. */
  lemma LastPick(items: Dict<int>, r: int)
    requires |items| > 0
    requires forall j :: 0 < j <= |items| ==> PrefixSum(items, j) < r
    ensures PickFrom(items, r) == items[|items| - 1].key
  {
    PickFromReaches(items, r);
  }

  /** A sampled character is always a key of the bucket (or " " for an empty total). */
  lemma SampleIsKey(d: Bucket, r: int)
    requires Sum(d) > 0
    ensures |d| > 0 && HasKey(d, PickFrom(SortByCount(d), r))
  {
    var items := SortByCount(d);
    SortedLength(d);
    PickFromReaches(items, r);
    var c := items[ReachIndex(items, r)];
    assert c in multiset(d);
    var i :| 0 <= i < |d| && d[i] == c;
  }

  /** `random.randint(1, total)` is drawn only for a positive total; `draw(k)` is the k-th draw. */
  method Draw(d: Bucket, draw: nat -> int, k: nat) returns (ch: string, next: nat)
    ensures Sum(d) <= 0 ==> ch == " " && next == k
    ensures Sum(d) > 0 ==> ch == PickFrom(SortByCount(d), draw(k)) && HasKey(d, ch) && next == k + 1
  {
    ch := Sample(d, draw(k));
    if Sum(d) > 0 {
      SampleIsKey(d, draw(k));
      next := k + 1;
    } else {
      next := k;
    }
  }

  // ---------------------------------------------------------------- single-character keys

  /** Every key of the bucket is one character long, as the builders produce. */
  predicate UnitKeys(b: Bucket) { forall c :: c in b ==> |c.key| == 1 }

  predicate UnitTable(t: Table) { forall c :: c in t ==> UnitKeys(c.val) }

  /** Every cell of `Put(d, k, v)` is the new cell or a cell of `d`. */
  lemma {:induction false} PutCells<V>(d: Dict<V>, k: string, v: V)
    ensures forall c :: c in Put(d, k, v) ==> c == Cell(k, v) || c in d
  {
    if |d| > 0 && d[0].key != k {
      PutCells(d[1..], k, v);
    }
  }

  lemma IncrementUnit(t: Table, ctx: string, nxt: string)
    requires UnitTable(t) && |nxt| == 1
    ensures UnitTable(Increment(t, ctx, nxt))
  {
    var b := GetOr(t, ctx, []);
    PutCells(b, nxt, Count(b, nxt) + 1);
    PutCells(t, ctx, Bump(b, nxt));
  }

  /** The tables the n-gram builder produces have one-character keys in every bucket. */
  lemma {:induction false} NgramUnit(text: string, order: nat, m: nat)
    requires m <= Positions(text, order)
    ensures UnitTable(NgramAt(text, order, m))
  {
    if m > 0 {
      NgramUnit(text, order, m - 1);
      NgramStep(text, order, m - 1);
      IncrementUnit(NgramAt(text, order, m - 1), text[m - 1..m - 1 + order], [text[m - 1 + order]]);
    }
  }

  lemma UnigramUnit(text: string, m: nat)
    requires m <= |text|
    ensures UnitKeys(Unigrams(text, m))
  {
    NgramUnit(text, 0, m);
  }
}
