/**
 * The Python string operations the workbench relies on: `str.split()`,
 * `re.findall("[A-Za-z]+")`, `strip`, `lower`, `" ".join`, `int(...)`,
 * `str(int)`, `rjust` and slicing with negative bounds.
 * Case mapping is ASCII-only; whitespace is Python's `str.isspace` set.
 */
module Text {
  import opened Wrappers

  // ---------------------------------------------------------------- characters

  /** `c.isspace()` in Python. */
  predicate IsSpace(c: char) {
    var n := c as int;
    n == 32 || (9 <= n <= 13) || (28 <= n <= 31) || n == 0x85 || n == 0xA0 || n == 0x1680
    || (0x2000 <= n <= 0x200A) || n == 0x2028 || n == 0x2029 || n == 0x202F || n == 0x205F
    || n == 0x3000
  }

  predicate NotSpace(c: char) { !IsSpace(c) }

  /** The character class `[A-Za-z]`. */
  predicate IsAsciiLetter(c: char) { 'A' <= c <= 'Z' || 'a' <= c <= 'z' }

  predicate IsAsciiDigit(c: char) { '0' <= c <= '9' }

  function LowerChar(c: char): char {
    if 'A' <= c <= 'Z' then (c as int + 32) as char else c
  }

  /** `s.lower()` restricted to ASCII letters. */
  function Lower(s: string): (r: string)
    ensures |r| == |s|
  {
    seq(|s|, i requires 0 <= i < |s| => LowerChar(s[i]))
  }

  lemma LowerConcat(a: string, b: string)
    ensures Lower(a + b) == Lower(a) + Lower(b)
  {
  }

  // ---------------------------------------------------------------- prefixes

  predicate HasPrefix(s: string, p: string) { |p| <= |s| && s[..|p|] == p }

  predicate HasSuffix(s: string, p: string) { |p| <= |s| && s[|s| - |p|..] == p }

  /** `sub in s` for strings. */
  predicate Contains(s: string, sub: string)
    decreases |s|
  {
    HasPrefix(s, sub) || (|s| > 0 && Contains(s[1..], sub))
  }

  /** The first index at or after `from` where `sep` occurs in `s`. */
  function FindFrom(s: string, sep: string, from: nat): (r: Option<nat>)
    requires |sep| > 0
    ensures r.Some? ==> from <= r.value && r.value + |sep| <= |s| && s[r.value..r.value + |sep|] == sep
    decreases |s| - from
  {
    if from + |sep| > |s| then None
    else if s[from..from + |sep|] == sep then Some(from)
    else FindFrom(s, sep, from + 1)
  }

  /** `s.split(sep, 1)`: the text before and after the first `sep`, if any. */
  function SplitOnce(s: string, sep: string): (r: Option<(string, string)>)
    requires |sep| > 0
    ensures r.Some? ==> r.value.0 + sep + r.value.1 == s
  {
    match FindFrom(s, sep, 0)
    case None => None
    case Some(k) => Some((s[..k], s[k + |sep|..]))
  }

  // ---------------------------------------------------------------- stripping

  function LStrip(s: string): (r: string)
    ensures |r| <= |s| && r == s[|s| - |r|..]
    ensures |r| == 0 || !IsSpace(r[0])
    decreases |s|
  {
    if |s| > 0 && IsSpace(s[0]) then LStrip(s[1..]) else s
  }

  function RStrip(s: string): (r: string)
    ensures |r| <= |s| && r == s[..|r|]
    ensures |r| == 0 || !IsSpace(r[|r| - 1])
    decreases |s|
  {
    if |s| > 0 && IsSpace(s[|s| - 1]) then RStrip(s[..|s| - 1]) else s
  }

  /** `s.strip()`. */
  function Strip(s: string): string { RStrip(LStrip(s)) }

  /** `s.strip(c)` for a single character `c`. */
  function StripChar(s: string, c: char): (r: string)
    ensures |r| <= |s|
    decreases |s|
  {
    if |s| > 0 && s[0] == c then StripChar(s[1..], c)
    else if |s| > 0 && s[|s| - 1] == c then StripChar(s[..|s| - 1], c)
    else s
  }

  // ---------------------------------------------------------------- tokens

  /** Drops the leading characters that are not token characters. */
  function DropNon(s: string, p: char -> bool): (r: string)
    ensures |r| <= |s| && r == s[|s| - |r|..]
    ensures |r| == 0 || p(r[0])
    decreases |s|
  {
    if |s| == 0 || p(s[0]) then s else DropNon(s[1..], p)
  }

  /** The longest prefix made of token characters. */
  function TakeRun(s: string, p: char -> bool): (r: string)
    ensures |r| <= |s| && r == s[..|r|]
    ensures forall i :: 0 <= i < |r| ==> p(r[i])
    ensures |r| == |s| || !p(s[|r|])
    decreases |s|
  {
    if |s| == 0 || !p(s[0]) then [] else [s[0]] + TakeRun(s[1..], p)
  }

  /** The maximal runs of characters satisfying `p`, left to right. */
  function Tokens(s: string, p: char -> bool): (ws: seq<string>)
    decreases |s|
  {
    var t := DropNon(s, p);
    if |t| == 0 then []
    else
      var w := TakeRun(t, p);
      [w] + Tokens(t[|w|..], p)
  }

  /** Every token is a non-empty run of token characters. */
  lemma {:induction false} TokensAreRuns(s: string, p: char -> bool)
    ensures forall w :: w in Tokens(s, p) ==> |w| > 0 && forall i :: 0 <= i < |w| ==> p(w[i])
    decreases |s|
  {
    var t := DropNon(s, p);
    if |t| > 0 {
      var w := TakeRun(t, p);
      assert |w| > 0;
      var rest := t[|w|..];
      TokensAreRuns(rest, p);
      assert Tokens(s, p) == [w] + Tokens(rest, p);
      forall v | v in Tokens(s, p)
        ensures |v| > 0 && forall i :: 0 <= i < |v| ==> p(v[i])
      {
        if v != w {
          assert v in Tokens(rest, p);
        }
      }
    } else {
      assert Tokens(s, p) == [];
    }
  }

  /** `s.split()` with no separator. */
  function Words(s: string): seq<string> { Tokens(s, NotSpace) }

  /** `re.findall("[A-Za-z]+", s)`. */
  function AlphaRuns(s: string): seq<string> { Tokens(s, IsAsciiLetter) }

  /** `set(re.findall(r"[A-Za-z]+", s.lower()))`: the distinct words, lower-cased. */
  function LowerWords(s: string): set<string> { set w | w in AlphaRuns(Lower(s)) }

  /** Appending a space and a lower-case word to a text adds exactly that word to its words. */
  lemma LowerWordsAppend(x: string, w: string)
    requires |w| > 0 && forall i :: 0 <= i < |w| ==> 'a' <= w[i] <= 'z'
    ensures LowerWords(x + " " + w) == LowerWords(x) + {w}
  {
    AlphaRunsAppend(x, w);
    var a := AlphaRuns(Lower(x));
    assert AlphaRuns(Lower(x + " " + w)) == a + [w];
    forall v ensures v in a + [w] <==> v in a || v == w {
    }
  }

  lemma AlphaRunsAppend(x: string, w: string)
    requires |w| > 0 && forall i :: 0 <= i < |w| ==> 'a' <= w[i] <= 'z'
    ensures AlphaRuns(Lower(x + " " + w)) == AlphaRuns(Lower(x)) + [w]
  {
    var y := " " + w;
    assert x + " " + w == x + y;
    LowerConcat(x, y);
    assert Lower(y) == y;
    TokensConcat(Lower(x), y, IsAsciiLetter);
    AlphaRunsWord(w);
  }

  lemma AlphaRunsWord(w: string)
    requires |w| > 0 && forall i :: 0 <= i < |w| ==> 'a' <= w[i] <= 'z'
    ensures AlphaRuns(" " + w) == [w]
  {
    var s := " " + w;
    assert s[1..] == w;
    assert DropNon(s, IsAsciiLetter) == w;
    TakeRunAll(w, "", IsAsciiLetter);
    assert w + "" == w;
    TokensUnfold(s, IsAsciiLetter);
    assert w[|w|..] == "";
    assert Tokens("", IsAsciiLetter) == [];
  }

  /** The index of the first element satisfying `p`, `|s|` when there is none. */
  function FirstWhere<T>(s: seq<T>, p: T -> bool): (i: nat)
    ensures i <= |s|
    ensures i < |s| ==> p(s[i])
    ensures forall j :: 0 <= j < i ==> !p(s[j])
  {
    if |s| == 0 then 0 else if p(s[0]) then 0 else 1 + FirstWhere(s[1..], p)
  }

  /** `" ".join(ws)`. */
  function JoinSpace(ws: seq<string>): string {
    if |ws| == 0 then ""
    else if |ws| == 1 then ws[0]
    else ws[0] + " " + JoinSpace(ws[1..])
  }

  /** `sep.join(ws)`. */
  function Join(sep: string, ws: seq<string>): string {
    if |ws| == 0 then ""
    else if |ws| == 1 then ws[0]
    else ws[0] + sep + Join(sep, ws[1..])
  }

  lemma {:induction false} DropNonConcat(x: string, y: string, p: char -> bool)
    ensures DropNon(x + y, p) == if |DropNon(x, p)| == 0 then DropNon(y, p) else DropNon(x, p) + y
    decreases |x|
  {
    if |x| == 0 {
      assert x + y == y;
    } else if !p(x[0]) {
      assert (x + y)[0] == x[0];
      assert (x + y)[1..] == x[1..] + y;
      DropNonConcat(x[1..], y, p);
    } else {
      assert (x + y)[0] == x[0];
    }
  }

  lemma {:induction false} TakeRunAppend(t: string, y: string, p: char -> bool)
    requires |TakeRun(t, p)| < |t| || |y| == 0 || !p(y[0])
    ensures TakeRun(t + y, p) == TakeRun(t, p)
    decreases |t|
  {
    if |t| == 0 {
      assert t + y == y;
    } else if p(t[0]) {
      var u := t + y;
      assert u[0] == t[0];
      assert u[1..] == t[1..] + y;
      TakeRunAppend(t[1..], y, p);
    } else {
      assert (t + y)[0] == t[0];
    }
  }

  /**
   * Appending text that starts with a non-token character adds its tokens
   * after the existing ones and does not extend the last token.
   */
  lemma {:induction false} TokensConcat(x: string, y: string, p: char -> bool)
    requires |y| > 0 && !p(y[0])
    ensures Tokens(x + y, p) == Tokens(x, p) + Tokens(y, p)
    decreases |x|
  {
    var t := DropNon(x, p);
    DropNonConcat(x, y, p);
    if |t| == 0 {
      assert DropNon(x + y, p) == DropNon(y, p);
      assert Tokens(x, p) == [];
      assert Tokens(x + y, p) == Tokens(y, p);
      assert [] + Tokens(y, p) == Tokens(y, p);
    } else {
      var w := TakeRun(t, p);
      var r := t[|w|..];
      TokensConcatHead(x, y, p);
      TokensUnfold(x, p);
      TokensUnfold(x + y, p);
      TokensConcat(r, y, p);
      ConcatAssoc([w], Tokens(r, p), Tokens(y, p));
    }
  }

  /** When `x` has a token and `y` starts with a separator, `x + y` starts with the same token. */
  lemma TokensConcatHead(x: string, y: string, p: char -> bool)
    requires |y| > 0 && !p(y[0]) && |DropNon(x, p)| > 0
    ensures DropNon(x + y, p) == DropNon(x, p) + y
    ensures TakeRun(DropNon(x, p) + y, p) == TakeRun(DropNon(x, p), p)
    ensures SliceAppend(DropNon(x, p), y, |TakeRun(DropNon(x, p), p)|)
  {
    DropNonConcat(x, y, p);
    TakeRunAppend(DropNon(x, p), y, p);
    SliceAppendHolds(DropNon(x, p), y, |TakeRun(DropNon(x, p), p)|);
  }

  predicate SliceAppend(t: string, y: string, k: nat)
    requires k <= |t|
  {
    (t + y)[k..] == t[k..] + y
  }

  lemma SliceAppendHolds(t: string, y: string, k: nat)
    requires k <= |t|
    ensures SliceAppend(t, y, k)
  {
    assert (t + y)[k..] == t[k..] + y;
  }

  lemma TokensUnfold(s: string, p: char -> bool)
    requires |DropNon(s, p)| > 0
    ensures var t := DropNon(s, p); var w := TakeRun(t, p); Tokens(s, p) == [w] + Tokens(t[|w|..], p)
  {
  }

  lemma ConcatAssoc<T>(a: seq<T>, b: seq<T>, c: seq<T>)
    ensures a + (b + c) == (a + b) + c
  {
  }

  lemma TokensOfRun(w: string, rest: string, p: char -> bool)
    requires |w| > 0 && forall i :: 0 <= i < |w| ==> p(w[i])
    requires |rest| == 0 || !p(rest[0])
    ensures Tokens(w + rest, p) == [w] + Tokens(rest, p)
  {
    assert DropNon(w + rest, p) == w + rest;
    TakeRunAll(w, rest, p);
    assert (w + rest)[|w|..] == rest;
  }

  lemma {:induction false} TakeRunAll(w: string, rest: string, p: char -> bool)
    requires forall i :: 0 <= i < |w| ==> p(w[i])
    requires |rest| == 0 || !p(rest[0])
    ensures TakeRun(w + rest, p) == w
    decreases |w|
  {
    var s := w + rest;
    if |w| == 0 {
      assert s == rest;
    } else {
      assert s[0] == w[0] && p(s[0]);
      assert s[1..] == w[1..] + rest;
      TakeRunAll(w[1..], rest, p);
      assert TakeRun(s, p) == [w[0]] + w[1..];
      assert w == [w[0]] + w[1..];
    }
  }

  lemma TokensAfterSpace(rest: string)
    ensures Tokens(" " + rest, NotSpace) == Tokens(rest, NotSpace)
  {
    assert (" " + rest)[1..] == rest;
  }

  /** A non-empty string without whitespace: what `str.split()` yields. */
  predicate IsWord(w: string) { |w| > 0 && forall i :: 0 <= i < |w| ==> NotSpace(w[i]) }

  lemma WordAlone(w: string)
    requires IsWord(w)
    ensures Tokens(w, NotSpace) == [w]
  {
    TokensOfRun(w, "", NotSpace);
    assert w + "" == w;
  }

  lemma HeadTail<T>(s: seq<T>)
    requires |s| > 0
    ensures s == [s[0]] + s[1..]
  {
  }

  /** Splitting a space-joined list of words gives the words back. */
  lemma {:induction false} WordsOfJoin(ws: seq<string>)
    requires forall w :: w in ws ==> IsWord(w)
    ensures Words(JoinSpace(ws)) == ws
    decreases |ws|
  {
    if |ws| == 0 {
      assert JoinSpace(ws) == "";
      assert Words("") == [];
    } else if |ws| == 1 {
      WordAlone(ws[0]);
    } else {
      var rest := JoinSpace(ws[1..]);
      assert JoinSpace(ws) == ws[0] + (" " + rest);
      TokensConcat(ws[0], " " + rest, NotSpace);
      WordAlone(ws[0]);
      TokensAfterSpace(rest);
      assert forall w :: w in ws[1..] ==> w in ws;
      WordsOfJoin(ws[1..]);
      HeadTail(ws);
      calc {
        Words(JoinSpace(ws));
        Tokens(ws[0] + (" " + rest), NotSpace);
        Tokens(ws[0], NotSpace) + Tokens(" " + rest, NotSpace);
        [ws[0]] + Tokens(rest, NotSpace);
        [ws[0]] + ws[1..];
      }
    }
  }

  // ---------------------------------------------------------------- numbers

  function DigitChar(d: int): char
    requires 0 <= d < 10
  {
    ('0' as int + d) as char
  }

  /** `str(n)` for a natural number. */
  function NatToString(n: nat): (s: string)
    ensures |s| > 0 && forall i :: 0 <= i < |s| ==> IsAsciiDigit(s[i])
    decreases n
  {
    if n < 10 then [DigitChar(n)] else NatToString(n / 10) + [DigitChar(n % 10)]
  }

  /** `str(n)` for an integer. */
  function IntToString(n: int): string {
    if n < 0 then "-" + NatToString(-n) else NatToString(n)
  }

  /**
   * The decimal digits of a fraction `0 <= f < 1`, one per step, stopping
   * when the rest is zero or after `k` digits.
   */
  function FracDigits(f: real, k: nat): (ds: string)
    requires 0.0 <= f < 1.0
    ensures |ds| <= k
    decreases k
  {
    if k == 0 then ""
    else
      var g := f * 10.0;
      var d := g.Floor;
      var rest := g - d as real;
      [DigitChar(d)] + (if rest == 0.0 then "" else FracDigits(rest, k - 1))
  }

  /**
   * `str(x)` for a float, in positional notation: the sign, the integer
   * part, a point, and the fractional digits up to the last non-zero one
   * (a single 0 for a whole number, at most 17 digits).
   */
  function ShowReal(x: real): string
    decreases if x < 0.0 then 1 else 0
  {
    if x < 0.0 then "-" + ShowReal(-x) else ShowNonNegative(x)
  }

  function ShowNonNegative(a: real): string
    requires a >= 0.0
  {
    var ip: nat := a.Floor;
    NatToString(ip) + "." + FracText(a - ip as real)
  }

  /** The digits after the point: "0" for none. */
  function FracText(f: real): string
    requires 0.0 <= f < 1.0
  {
    if f == 0.0 then "0" else FracDigits(f, 17)
  }

  /** The value of the digits `ds` written after a decimal point. */
  function FracValue(ds: string): (v: real)
    requires forall i :: 0 <= i < |ds| ==> IsAsciiDigit(ds[i])
    ensures 0.0 <= v < 1.0
  {
    if |ds| == 0 then 0.0
    else
      assert IsAsciiDigit(ds[0]);
      var d := ds[0] as int - '0' as int;
      var rest := FracValue(ds[1..]);
      (d as real + rest) / 10.0
  }

  /** Digits ending in a non-zero one have a non-zero value. */
  lemma {:induction false} FracValuePositive(ds: string)
    requires forall i :: 0 <= i < |ds| ==> IsAsciiDigit(ds[i])
    requires |ds| > 0 && ds[|ds| - 1] != '0'
    ensures FracValue(ds) > 0.0
  {
    if |ds| > 1 {
      FracValuePositive(ds[1..]);
    }
  }

  /** Reading the digits back from their value gives them again. */
  lemma {:induction false} FracDigitsValue(ds: string, k: nat)
    requires forall i :: 0 <= i < |ds| ==> IsAsciiDigit(ds[i])
    requires 1 <= |ds| <= k && ds[|ds| - 1] != '0'
    ensures FracDigits(FracValue(ds), k) == ds
  {
    var v := FracValue(ds[1..]);
    FracFirstDigit(ds);
    assert FracDigits(FracValue(ds), k) == [ds[0]] + (if v == 0.0 then "" else FracDigits(v, k - 1));
    if |ds| == 1 {
      assert v == 0.0;
    } else {
      FracValuePositive(ds[1..]);
      FracDigitsValue(ds[1..], k - 1);
    }
    assert ds == [ds[0]] + ds[1..];
  }

  /** Ten times the value has the first digit as its whole part and the rest's value as its fraction. */
  lemma FracFirstDigit(ds: string)
    requires forall i :: 0 <= i < |ds| ==> IsAsciiDigit(ds[i])
    requires |ds| >= 1
    ensures var g := FracValue(ds) * 10.0;
      0 <= g.Floor < 10 && DigitChar(g.Floor) == ds[0] && g - g.Floor as real == FracValue(ds[1..])
  {
    assert IsAsciiDigit(ds[0]);
    var d := ds[0] as int - '0' as int;
    var r := FracValue(ds[1..]);
    var x := d as real + r;
    assert FracValue(ds) == x / 10.0;
    assert FracValue(ds) * 10.0 == x;
    assert d as real <= x < d as real + 1.0;
    assert x.Floor == d;
  }

  /** A number is shown as its integer part, a point and its fractional digits. */
  lemma ShowParts(x: real, ip: nat, f: real, ds: string)
    requires 0.0 <= f < 1.0 && x == ip as real + f && FracText(f) == ds
    ensures ShowReal(x) == NatToString(ip) + "." + ds
  {
    assert x.Floor == ip;
    assert x - ip as real == f;
    assert ShowNonNegative(x) == NatToString(ip) + "." + FracText(f);
    assert ShowReal(x) == ShowNonNegative(x);
  }

  /**
   * A number written with at most 17 decimals, the last of them not zero,
   * is shown with exactly those decimals.
   */
  lemma ShowDecimal(x: real, ip: nat, ds: string)
    requires forall i :: 0 <= i < |ds| ==> IsAsciiDigit(ds[i])
    requires 1 <= |ds| <= 17 && ds[|ds| - 1] != '0'
    requires x == ip as real + FracValue(ds)
    ensures ShowReal(x) == NatToString(ip) + "." + ds
  {
    FracTextValue(ds);
    ShowParts(x, ip, FracValue(ds), ds);
  }

  /** A negative number shows as a minus sign and its magnitude. */
  lemma ShowNegative(x: real)
    requires x > 0.0
    ensures ShowReal(-x) == "-" + ShowReal(x)
  {
  }

  /** The digits after the point of the value of `ds` are `ds`. */
  lemma FracTextValue(ds: string)
    requires forall i :: 0 <= i < |ds| ==> IsAsciiDigit(ds[i])
    requires 1 <= |ds| <= 17 && ds[|ds| - 1] != '0'
    ensures FracValue(ds) > 0.0 && FracText(FracValue(ds)) == ds
  {
    FracValuePositive(ds);
    FracDigitsValue(ds, 17);
  }

  /** A whole number shows as its digits and ".0". */
  lemma ShowWhole(n: int)
    ensures ShowReal(n as real) == IntToString(n) + ".0"
  {
    var m: nat := if n < 0 then -n else n;
    assert FracText(0.0) == "0";
    ShowParts(m as real, m, 0.0, "0");
    if n < 0 {
      assert ShowReal(n as real) == "-" + ShowReal(m as real);
    }
  }

  /** The number of runs of ten decimal digits (general category Nd) in Unicode 15.0. */
  const DecimalRuns: nat := 68

  /**
   * The code point of the digit zero of the `i`-th run of decimal digits in
   * Unicode 15.0, in increasing order. `int()` reads any of these digits, in
   * any base that admits its value.
   */
  function DecimalZero(i: nat): int
    requires i < DecimalRuns
  {
    match i
    case 0 => 0x0030 case 1 => 0x0660 case 2 => 0x06F0 case 3 => 0x07C0 case 4 => 0x0966 case 5 => 0x09E6
    case 6 => 0x0A66 case 7 => 0x0AE6 case 8 => 0x0B66 case 9 => 0x0BE6 case 10 => 0x0C66 case 11 => 0x0CE6
    case 12 => 0x0D66 case 13 => 0x0DE6 case 14 => 0x0E50 case 15 => 0x0ED0 case 16 => 0x0F20 case 17 => 0x1040
    case 18 => 0x1090 case 19 => 0x17E0 case 20 => 0x1810 case 21 => 0x1946 case 22 => 0x19D0 case 23 => 0x1A80
    case 24 => 0x1A90 case 25 => 0x1B50 case 26 => 0x1BB0 case 27 => 0x1C40 case 28 => 0x1C50 case 29 => 0xA620
    case 30 => 0xA8D0 case 31 => 0xA900 case 32 => 0xA9D0 case 33 => 0xA9F0 case 34 => 0xAA50 case 35 => 0xABF0
    case 36 => 0xFF10 case 37 => 0x104A0 case 38 => 0x10D30 case 39 => 0x11066 case 40 => 0x110F0 case 41 => 0x11136
    case 42 => 0x111D0 case 43 => 0x112F0 case 44 => 0x11450 case 45 => 0x114D0 case 46 => 0x11650 case 47 => 0x116C0
    case 48 => 0x11730 case 49 => 0x118E0 case 50 => 0x11950 case 51 => 0x11C50 case 52 => 0x11D50 case 53 => 0x11DA0
    case 54 => 0x11F50 case 55 => 0x16A60 case 56 => 0x16AC0 case 57 => 0x16B50 case 58 => 0x1D7CE case 59 => 0x1D7D8
    case 60 => 0x1D7E2 case 61 => 0x1D7EC case 62 => 0x1D7F6 case 63 => 0x1E140 case 64 => 0x1E2F0 case 65 => 0x1E4F0
    case 66 => 0x1E950 case 67 => 0x1FBF0
    case _ => 0x1FBF0
  }

  /** The offset of code point `n` from the zero of its run, searching the runs from the `i`-th on; -1 outside them. */
  function RunOffset(n: int, i: nat): (d: int)
    ensures -1 <= d <= 9
    decreases DecimalRuns - i
  {
    if i >= DecimalRuns then -1
    else if DecimalZero(i) <= n < DecimalZero(i) + 10 then n - DecimalZero(i)
    else RunOffset(n, i + 1)
  }

  /** The runs are disjoint and in increasing order. */
  lemma ZeroStep(j: nat)
    requires j + 1 < DecimalRuns
    ensures DecimalZero(j) + 10 <= DecimalZero(j + 1)
  {
  }

  /** Steps of at least 10 between neighbours add up to at least 10 between any two. */
  lemma {:induction false} StepsApart(f: nat -> int, n: nat, j: nat, k: nat)
    requires forall i: nat :: i + 1 < n ==> f(i) + 10 <= f(i + 1)
    requires j < k < n
    ensures f(j) + 10 <= f(k)
    decreases k - j
  {
    if j + 1 < k {
      StepsApart(f, n, j + 1, k);
    }
  }

  /** Any two runs are disjoint: an earlier zero lies at least 10 below a later one. */
  lemma ZerosApart(j: nat, k: nat)
    requires j < k < DecimalRuns
    ensures DecimalZero(j) + 10 <= DecimalZero(k)
  {
    var f := (i: nat) => if i < DecimalRuns then DecimalZero(i) else 0;
    forall i: nat | i + 1 < DecimalRuns
      ensures f(i) + 10 <= f(i + 1)
    {
      ZeroStep(i);
    }
    StepsApart(f, DecimalRuns, j, k);
  }

  /** A code point inside the `k`-th run is read as its offset from that run's zero. */
  lemma {:induction false} RunOffsetAt(n: int, i: nat, k: nat)
    requires i <= k < DecimalRuns && DecimalZero(k) <= n < DecimalZero(k) + 10
    ensures RunOffset(n, i) == n - DecimalZero(k)
    decreases k - i
  {
    if i < k {
      ZerosApart(i, k);
      RunOffsetAt(n, i + 1, k);
    }
  }

  /** The value of a hexadecimal (or decimal) digit, -1 for anything else. */
  function DigitVal(c: char): int {
    if '0' <= c <= '9' then c as int - '0' as int
    else if 'a' <= c <= 'f' then c as int - 'a' as int + 10
    else if 'A' <= c <= 'F' then c as int - 'A' as int + 10
    else -1
  }

  /**
   * What `int()` first does to its text: every decimal digit of another
   * script becomes the ASCII digit of the same value; everything else is
   * kept.
   */
  function AsciiDigits(s: string): (r: string)
    ensures |r| == |s|
  {
    seq(|s|, i requires 0 <= i < |s| => AsciiDigit(s[i]))
  }

  function AsciiDigit(c: char): char {
    if c as int < 128 then c
    else
      var d := RunOffset(c as int, 1);
      if d >= 0 then DigitChar(d) else c
  }

  /** A character in the `k`-th run of decimal digits, beyond ASCII, becomes the ASCII digit of its offset. */
  lemma DigitInRun(c: char, k: nat)
    requires 1 <= k < DecimalRuns && DecimalZero(k) <= c as int < DecimalZero(k) + 10
    ensures AsciiDigit(c) == DigitChar(c as int - DecimalZero(k))
  {
    ZeroBeyondAscii(k);
    RunOffsetAt(c as int, 1, k);
  }

  /** Every run but the first lies beyond ASCII. */
  lemma ZeroBeyondAscii(k: nat)
    requires 1 <= k < DecimalRuns
    ensures DecimalZero(k) >= 128
  {
  }

  /** A string of ASCII characters is left as it is. */
  lemma AsciiDigitsAscii(s: string)
    requires forall i :: 0 <= i < |s| ==> s[i] as int < 128
    ensures AsciiDigits(s) == s
  {
    var t := AsciiDigits(s);
    forall i | 0 <= i < |s| ensures t[i] == s[i] {
      assert t[i] == AsciiDigit(s[i]);
    }
  }

  /** `int("\uff11\uff12")` is 12: full-width digits are read as decimal digits. */
  lemma ParseFullWidth(s: string)
    requires s == "\U{FF11}\U{FF12}"
    ensures ParseInt(s) == Some(12)
  {
    DigitInRun(s[0], 36);
    DigitInRun(s[1], 36);
    StripDigits(s);
    var t := AsciiDigits(s);
    assert t[0] == '1' && t[1] == '2';
    assert IntToString(12) == "12";
    assert t == IntToString(12);
    ParseIntOfIntToString(12);
    IntToStringAscii(12);
  }

  /** `int("-\u0967\u0966")` is -10: Devanagari digits, with a sign. */
  lemma ParseDevanagari(s: string)
    requires s == "-\U{967}\U{966}"
    ensures ParseInt(s) == Some(-10)
  {
    DigitInRun(s[1], 4);
    DigitInRun(s[2], 4);
    StripDigits(s);
    var t := AsciiDigits(s);
    assert t[0] == '-' && t[1] == '1' && t[2] == '0';
    assert IntToString(-10) == "-10";
    assert t == IntToString(-10);
    ParseIntOfIntToString(-10);
    IntToStringAscii(-10);
  }

  predicate IsDigitIn(c: char, base: nat) { 0 <= DigitVal(c) < base }

  /** Zero or more digits, each optionally preceded by one underscore: `(_?d)*`. */
  predicate Groups(s: string, base: nat)
    decreases |s|
  {
    |s| == 0
    || (IsDigitIn(s[0], base) && Groups(s[1..], base))
    || (s[0] == '_' && |s| >= 2 && IsDigitIn(s[1], base) && Groups(s[2..], base))
  }

  /** The value of a digit string, underscores ignored. */
  function DigitsValue(s: string, hex: bool): nat
    decreases |s|
  {
    if |s| == 0 then 0
    else
      var d := DigitVal(s[|s| - 1]);
      var v := DigitsValue(s[..|s| - 1], hex);
      if d < 0 then v else if hex then v * 16 + d else v * 10 + d
  }

  function Signed(t: string, magnitude: nat): int {
    if |t| > 0 && t[0] == '-' then -(magnitude as int) else magnitude
  }

  function Unsigned(t: string): string {
    if |t| > 0 && (t[0] == '-' || t[0] == '+') then t[1..] else t
  }

  /** `int(s)` for a string, in base 10: decimal digits of any script are read. */
  function ParseInt(s: string): Option<int> {
    ParseAscii(AsciiDigits(Strip(s)))
  }

  /** The base-10 reading of stripped text whose digits are ASCII. */
  function ParseAscii(t: string): Option<int> {
    var u := Unsigned(t);
    if |u| > 0 && IsDigitIn(u[0], 10) && Groups(u[1..], 10) then Some(Signed(t, DigitsValue(u, false)))
    else None
  }

  /** `int(s, 16)`, including the optional `0x` prefix. */
  function ParseHex(s: string): Option<int> {
    var t := AsciiDigits(Strip(s));
    var u := Unsigned(t);
    if HasPrefix(u, "0x") || HasPrefix(u, "0X") then
      if |u| > 2 && Groups(u[2..], 16) then Some(Signed(t, DigitsValue(u[2..], true))) else None
    else if |u| > 0 && IsDigitIn(u[0], 16) && Groups(u[1..], 16) then Some(Signed(t, DigitsValue(u, true)))
    else None
  }

  lemma DigitsGroups(s: string)
    requires forall i :: 0 <= i < |s| ==> IsAsciiDigit(s[i])
    ensures Groups(s, 10)
    decreases |s|
  {
    if |s| > 0 {
      DigitsGroups(s[1..]);
    }
  }

  lemma {:induction false} NatToStringValue(n: nat)
    ensures DigitsValue(NatToString(n), false) == n
    decreases n
  {
    if n >= 10 {
      var s := NatToString(n);
      assert s == NatToString(n / 10) + [DigitChar(n % 10)];
      assert s[..|s| - 1] == NatToString(n / 10);
      assert DigitVal(s[|s| - 1]) == n % 10;
      NatToStringValue(n / 10);
    } else {
      var s := NatToString(n);
      assert s[..0] == [];
    }
  }

  lemma StripDigits(s: string)
    requires |s| > 0 && !IsSpace(s[0]) && !IsSpace(s[|s| - 1])
    ensures Strip(s) == s
  {
  }

  lemma NatToStringFacts(m: nat)
    ensures var d := NatToString(m);
      IsDigitIn(d[0], 10) && Groups(d[1..], 10) && DigitsValue(d, false) == m
      && !IsSpace(d[0]) && !IsSpace(d[|d| - 1])
  {
    var d := NatToString(m);
    assert forall i :: 0 <= i < |d[1..]| ==> IsAsciiDigit(d[1..][i]);
    DigitsGroups(d[1..]);
    NatToStringValue(m);
  }

  lemma UnsignedOf(n: int, d: string)
    requires d == NatToString(if n < 0 then -n else n)
    ensures Unsigned(IntToString(n)) == d
    ensures Signed(IntToString(n), DigitsValue(d, false)) == (if n < 0 then -(DigitsValue(d, false) as int) else DigitsValue(d, false))
  {
    if n < 0 {
      assert IntToString(n)[1..] == d;
    }
  }

  /** `int(str(n)) == n`. */
  lemma ParseIntOfIntToString(n: int)
    ensures ParseInt(IntToString(n)) == Some(n)
  {
    var m: nat := if n < 0 then -n else n;
    var d := NatToString(m);
    var s := IntToString(n);
    IntToStringAscii(n);
    assert ParseInt(s) == ParseAscii(s);
    NatToStringFacts(m);
    UnsignedOf(n, d);
  }

  /** `str(n)` is ASCII text, so `int()` reads it unchanged. */
  lemma IntToStringAscii(n: int)
    ensures AsciiDigits(Strip(IntToString(n))) == IntToString(n)
  {
    var m: nat := if n < 0 then -n else n;
    var d := NatToString(m);
    NatToStringFacts(m);
    var s := IntToString(n);
    assert s[|s| - 1] == d[|d| - 1];
    StripDigits(s);
    AsciiText(d);
    if n < 0 {
      assert s == "-" + d;
      AsciiText(s);
    }
    AsciiDigitsAscii(s);
  }

  /** A sign followed by ASCII digits is ASCII text. */
  lemma AsciiText(s: string)
    requires forall i :: 0 <= i < |s| ==> IsAsciiDigit(s[i]) || (i == 0 && s[i] == '-')
    ensures forall i :: 0 <= i < |s| ==> s[i] as int < 128
  {
  }

  // ---------------------------------------------------------------- padding, repetition, slices

  /** `s * n`. */
  function Repeat(s: string, n: int): (r: string)
    ensures |r| == (if n <= 0 then 0 else n * |s|)
    ensures forall i :: 0 <= i < |r| ==> |s| > 0 && r[i] == s[i % |s|]
  {
    if n <= 0 || |s| == 0 then "" else seq(n * |s|, i requires 0 <= i < n * |s| => s[i % |s|])
  }

  /** `s.rjust(width, c)`. */
  function RJust(s: string, width: int, c: char): (r: string)
    ensures |r| == (if |s| >= width then |s| else width)
    ensures HasSuffix(r, s)
  {
    if |s| >= width then s else Repeat([c], width - |s|) + s
  }

  /** A Python slice bound normalised against a length. */
  function Bound(i: int, len: nat): (b: nat)
    ensures b <= len
  {
    if i < 0 then (if i + len < 0 then 0 else i + len) else if i > len then len else i
  }

  /** `s[i:j]` with Python's negative and out-of-range bounds. */
  function Slice<T>(s: seq<T>, i: int, j: int): seq<T> {
    var a := Bound(i, |s|);
    var b := Bound(j, |s|);
    if a < b then s[a..b] else []
  }

  /** `s[:k]`. */
  function Take<T>(s: seq<T>, k: int): (r: seq<T>)
    ensures 0 <= k ==> r == s[..if k < |s| then k else |s|]
  {
    Slice(s, 0, k)
  }

  /** `s[k:]`. */
  function Drop<T>(s: seq<T>, k: int): seq<T> { Slice(s, k, |s|) }

  /** Python's `str < str`: code-point lexicographic comparison. */
  predicate LexLess(a: string, b: string)
    decreases |a|
  {
    if |a| == 0 then |b| > 0
    else if |b| == 0 then false
    else if a[0] != b[0] then a[0] < b[0]
    else LexLess(a[1..], b[1..])
  }

  lemma {:induction false} LexLessIrreflexive(a: string)
    ensures !LexLess(a, a)
    decreases |a|
  {
    if |a| > 0 {
      LexLessIrreflexive(a[1..]);
    }
  }

  lemma {:induction false} LexLessTrans(a: string, b: string, c: string)
    requires LexLess(a, b) && LexLess(b, c)
    ensures LexLess(a, c)
    decreases |a|
  {
    if |a| > 0 && |b| > 0 && |c| > 0 && a[0] == b[0] && b[0] == c[0] {
      LexLessTrans(a[1..], b[1..], c[1..]);
    }
  }

  lemma {:induction false} LexLessTotal(a: string, b: string)
    requires a != b
    ensures LexLess(a, b) || LexLess(b, a)
    decreases |a|
  {
    if |a| > 0 && |b| > 0 && a[0] == b[0] {
      assert a == [a[0]] + a[1..];
      assert b == [b[0]] + b[1..];
      LexLessTotal(a[1..], b[1..]);
    }
  }
  /** Strings in strictly increasing order. */
  predicate StrictlySorted(s: seq<string>) {
    forall i, j :: 0 <= i < j < |s| ==> LexLess(s[i], s[j])
  }

  /** `m` is the least string of `s`. */
  predicate IsLeast(m: string, s: set<string>) {
    m in s && forall y :: y in s ==> y == m || LexLess(m, y)
  }

  lemma {:induction false} LeastExists(s: set<string>)
    requires s != {}
    ensures exists m :: IsLeast(m, s)
    decreases |s|
  {
    var x :| x in s;
    if s - {x} == {} {
      assert s == {x};
      assert IsLeast(x, s);
    } else {
      LeastExists(s - {x});
      var m :| IsLeast(m, s - {x});
      if LexLess(m, x) {
        forall y | y in s ensures y == m || LexLess(m, y) {
          if y != x && y != m {
            assert LexLess(m, y);
          }
        }
        assert IsLeast(m, s);
      } else {
        LexLessTotal(m, x);
        forall y | y in s ensures y == x || LexLess(x, y) {
          if y != x && y != m {
            LexLessTrans(x, m, y);
          }
        }
        assert IsLeast(x, s);
      }
    }
  }

  lemma LeastUnique(a: string, b: string, s: set<string>)
    requires IsLeast(a, s) && IsLeast(b, s)
    ensures a == b
  {
    if a != b {
      assert LexLess(a, b) && LexLess(b, a);
      LexLessTrans(a, b, a);
      LexLessIrreflexive(a);
    }
  }

  /** `sorted(s)` for a set of strings: each element once, in increasing order. */
  function SortedKeys(s: set<string>): (r: seq<string>)
    ensures StrictlySorted(r)
    ensures forall y :: y in r <==> y in s
    ensures |r| == |s|
    decreases |s|
  {
    if s == {} then []
    else
      LeastExists(s);
      assert forall a, b :: IsLeast(a, s) && IsLeast(b, s) ==> a == b by {
        forall a, b | IsLeast(a, s) && IsLeast(b, s) ensures a == b { LeastUnique(a, b, s); }
      }
      var m :| IsLeast(m, s);
      var t := SortedKeys(s - {m});
      assert forall y :: y in t ==> LexLess(m, y);
      [m] + t
  }
}
