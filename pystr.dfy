/**
 * The Python `str` operations the pipeline relies on, over `seq<char>`:
 * `lower()`, `isspace()`, `strip()`, `split()`, `startswith`, `endswith`,
 * `in`, `replace`, `join` and `str(n)` for naturals.
 */
module PyStr {

  /** `c.isspace()`: the whitespace set shared by `str.split()`, `str.strip()` and the regex class `\s`. */
  predicate IsSpace(c: char) {
    || c == ' '
    || ('\t' <= c <= '\r')
    || ('\U{1c}' <= c <= '\U{1f}')
    || c == '\U{85}' || c == '\U{a0}' || c == '\U{1680}'
    || ('\U{2000}' <= c <= '\U{200a}')
    || c == '\U{2028}' || c == '\U{2029}' || c == '\U{202f}' || c == '\U{205f}' || c == '\U{3000}'
  }

  /** `c.lower()` restricted to ASCII letters. */
  function LowerChar(c: char): (r: char)
    ensures 'A' <= c <= 'Z' ==> 'a' <= r <= 'z'
    ensures !('A' <= c <= 'Z') ==> r == c
  {
    if 'A' <= c <= 'Z' then (c as int + 32) as char else c
  }

  function Lower(s: string): (r: string)
    ensures |r| == |s|
    ensures forall i :: 0 <= i < |s| ==> r[i] == LowerChar(s[i])
  {
    if s == [] then [] else [LowerChar(s[0])] + Lower(s[1..])
  }

  lemma LowerIdempotent(s: string)
    ensures Lower(Lower(s)) == Lower(s)
  {
  }

  lemma LowerAppend(a: string, b: string)
    ensures Lower(a + b) == Lower(a) + Lower(b)
  {
  }

  /** `s.startswith(p)` */
  predicate StartsWith(s: string, p: string) {
    |p| <= |s| && s[..|p|] == p
  }

  /** `s.endswith(p)` */
  predicate EndsWith(s: string, p: string) {
    |p| <= |s| && s[|s| - |p|..] == p
  }

  /** `p in s` */
  predicate Contains(s: string, p: string)
    decreases |s|
  {
    StartsWith(s, p) || (s != [] && Contains(s[1..], p))
  }

  lemma {:induction false} ContainsAt(s: string, p: string, i: nat)
    requires i + |p| <= |s| && s[i..i + |p|] == p
    ensures Contains(s, p)
    decreases i
  {
    if i > 0 {
      assert s[1..][i - 1..i - 1 + |p|] == s[i..i + |p|];
      ContainsAt(s[1..], p, i - 1);
    }
  }

  lemma {:induction false} ContainsWitness(s: string, p: string) returns (i: nat)
    requires Contains(s, p)
    ensures i + |p| <= |s| && s[i..i + |p|] == p
    decreases |s|
  {
    if StartsWith(s, p) {
      i := 0;
    } else {
      var j := ContainsWitness(s[1..], p);
      assert s[1..][j..j + |p|] == s[j + 1..j + 1 + |p|];
      i := j + 1;
    }
  }

  /** `s.lstrip()` */
  function LStrip(s: string): (r: string)
    ensures |r| <= |s| && r == s[|s| - |r|..]
    ensures r == [] || !IsSpace(r[0])
    ensures forall i :: 0 <= i < |s| - |r| ==> IsSpace(s[i])
  {
    if s != [] && IsSpace(s[0]) then LStrip(s[1..]) else s
  }

  /** `s.rstrip()` */
  function RStrip(s: string): (r: string)
    ensures |r| <= |s| && r == s[..|r|]
    ensures r == [] || !IsSpace(r[|r| - 1])
    ensures forall i :: |r| <= i < |s| ==> IsSpace(s[i])
  {
    if s != [] && IsSpace(s[|s| - 1]) then RStrip(s[..|s| - 1]) else s
  }

  /** No whitespace at either end. */
  predicate Trimmed(s: string) {
    s == [] || (!IsSpace(s[0]) && !IsSpace(s[|s| - 1]))
  }

  /** `strip()`: no whitespace is left at either end. */
  function Strip(s: string): (r: string)
    ensures |r| <= |s|
    ensures Trimmed(r)
  {
    var l := LStrip(s);
    var r := RStrip(l);
    assert r != [] ==> r[0] == l[0];
    r
  }

  predicate IsBlank(s: string) {
    forall i :: 0 <= i < |s| ==> IsSpace(s[i])
  }

  /** `not s.strip()` holds exactly of the strings made only of whitespace. */
  lemma StripEmptyIffBlank(s: string)
    ensures Strip(s) == [] <==> IsBlank(s)
  {
    var l := LStrip(s);
    if l != [] {
      assert l[0] == s[|s| - |l|];
      assert !IsBlank(s);
      assert RStrip(l) != [];
    }
  }

  /** The longest prefix of `s` without whitespace. */
  function Word(s: string): (w: string)
    ensures |w| <= |s| && w == s[..|w|]
    ensures forall i :: 0 <= i < |w| ==> !IsSpace(w[i])
    ensures |w| < |s| ==> IsSpace(s[|w|])
    ensures s != [] && !IsSpace(s[0]) ==> |w| > 0
  {
    if s == [] || IsSpace(s[0]) then [] else [s[0]] + Word(s[1..])
  }

  /** A non-empty string without whitespace. */
  predicate IsWord(w: string) {
    w != [] && forall i :: 0 <= i < |w| ==> !IsSpace(w[i])
  }

  /** `s.split()`: the maximal runs of non-whitespace, in order. */
  function Words(s: string): (ws: seq<string>)
    ensures forall k :: 0 <= k < |ws| ==> IsWord(ws[k])
    decreases |s|
  {
    var t := LStrip(s);
    if t == [] then []
    else
      var w := Word(t);
      var rest := Words(t[|w|..]);
      WordsCons(w, rest);
      [w] + rest
  }

  lemma WordsCons(w: string, rest: seq<string>)
    requires IsWord(w) && forall k :: 0 <= k < |rest| ==> IsWord(rest[k])
    ensures forall k :: 0 <= k < |[w] + rest| ==> IsWord(([w] + rest)[k])
  {
    forall k | 0 <= k < |[w] + rest|
      ensures IsWord(([w] + rest)[k])
    {
      if k > 0 {
        assert ([w] + rest)[k] == rest[k - 1];
      }
    }
  }

  /** Leading whitespace does not change the words. */
  lemma WordsOfLStrip(s: string)
    ensures Words(LStrip(s)) == Words(s)
  {
    var t := LStrip(s);
    assert LStrip(t) == t;
  }

  /** Stripping text made only of whitespace in front of `x` gives the stripped `x`. */
  lemma {:induction false} LStripBlankPrefix(a: string, x: string)
    requires IsBlank(a)
    ensures LStrip(a + x) == LStrip(x)
    decreases |a|
  {
    if a != [] {
      assert (a + x)[1..] == a[1..] + x;
      LStripBlankPrefix(a[1..], x);
    } else {
      assert a + x == x;
    }
  }

  /** Stripping a text that is not all whitespace leaves what follows it alone. */
  lemma {:induction false} LStripAppend(a: string, x: string)
    requires !IsBlank(a)
    ensures LStrip(a + x) == LStrip(a) + x
    decreases |a|
  {
    if IsSpace(a[0]) {
      assert (a + x)[1..] == a[1..] + x;
      LStripAppend(a[1..], x);
    }
  }

  /** A word that stops before the end of `t` is also the first word of `t + x`. */
  lemma {:induction false} WordAppendAfterSpace(t: string, x: string)
    requires |Word(t)| < |t|
    ensures Word(t + x) == Word(t)
    decreases |t|
  {
    if !IsSpace(t[0]) {
      assert (t + x)[1..] == t[1..] + x;
      WordAppendAfterSpace(t[1..], x);
    }
  }

  /** A text without whitespace followed by whitespace: the first word is that text. */
  lemma {:induction false} WordBeforeSpace(t: string, x: string)
    requires Word(t) == t && x != [] && IsSpace(x[0])
    ensures Word(t + x) == t
    decreases |t|
  {
    if t == [] {
      assert (t + x)[0] == x[0];
    } else {
      assert (t + x)[1..] == t[1..] + x;
      WordBeforeSpace(t[1..], x);
    }
  }

  /** The words of a text that does not start with whitespace: its first word, then the words after it. */
  lemma WordsUnfold(t: string)
    requires t != [] && !IsSpace(t[0])
    ensures Words(t) == [Word(t)] + Words(t[|Word(t)|..])
  {
    assert LStrip(t) == t;
  }

  lemma WordsSplitBlank(a: string, x: string)
    requires IsBlank(a) && x != [] && IsSpace(x[0])
    ensures Words(a + x) == Words(a) + Words(x)
  {
    LStripBlankPrefix(a, x);
    LStripBlankPrefix(a, []);
    assert a + [] == a;
    WordsOfLStrip(x);
    WordsOfLStrip(a + x);
    WordsOfLStrip(a);
    var wx := Words(x);
    assert Words(a + x) == wx;
    assert Words(a) == [];
    assert [] + wx == wx;
  }

  /** A single word splits to itself. */
  lemma WordsOfWord(w: string)
    requires IsWord(w)
    ensures Words(w) == [w]
  {
    WordsUnfold(w);
    assert Word(w) == w;
    assert w[|w|..] == [];
  }

  lemma WordsWholeWordFirst(t: string, x: string)
    requires t != [] && !IsSpace(t[0]) && Word(t) == t && x != [] && IsSpace(x[0])
    ensures Words(t + x) == [t] + Words(x)
  {
    WordBeforeSpace(t, x);
    WordsUnfold(t + x);
    DropAppend(t, x, |t|);
    assert t[|t|..] == [];
    assert [] + x == x;
  }

  lemma WordsSplitWholeWord(t: string, x: string)
    requires t != [] && !IsSpace(t[0]) && |Word(t)| == |t| && x != [] && IsSpace(x[0])
    ensures Words(t + x) == Words(t) + Words(x)
  {
    assert Word(t) == t[..|t|] == t;
    WordsWholeWordFirst(t, x);
    WordsOfWord(t);
  }

  lemma DropAppend(t: string, x: string, k: nat)
    requires k <= |t|
    ensures (t + x)[k..] == t[k..] + x
  {
  }

  lemma ConsAppend(w: string, p: seq<string>, q: seq<string>)
    ensures [w] + (p + q) == ([w] + p) + q
  {
  }

  lemma WordsSplitFirstWord(t: string, x: string)
    requires t != [] && !IsSpace(t[0]) && |Word(t)| < |t|
    requires Words(t[|Word(t)|..] + x) == Words(t[|Word(t)|..]) + Words(x)
    ensures Words(t + x) == Words(t) + Words(x)
  {
    var w := Word(t);
    var rest := t[|w|..];
    WordAppendAfterSpace(t, x);
    WordsUnfold(t);
    WordsUnfold(t + x);
    DropAppend(t, x, |w|);
    ConsAppend(w, Words(rest), Words(x));
  }

  /** `split()` of text followed by text that starts with whitespace is the split of either part, concatenated. */
  lemma {:induction false} WordsAppendAtSpace(a: string, x: string)
    requires x != [] && IsSpace(x[0])
    ensures Words(a + x) == Words(a) + Words(x)
    decreases |a|
  {
    if IsBlank(a) {
      WordsSplitBlank(a, x);
    } else {
      var t := LStrip(a);
      LStripAppend(a, x);
      WordsOfLStrip(a);
      WordsOfLStrip(a + x);
      var w := Word(t);
      if |w| < |t| {
        WordsAppendAtSpace(t[|w|..], x);
        WordsSplitFirstWord(t, x);
      } else {
        WordsSplitWholeWord(t, x);
      }
    }
  }

  /** `split()` of text with a whitespace character `c` inside is the split of either side, concatenated. */
  lemma WordsSplitAtSpace(a: string, c: char, b: string)
    requires IsSpace(c)
    ensures Words(a + [c] + b) == Words(a) + Words(b)
  {
    assert a + [c] + b == a + ([c] + b);
    WordsAppendAtSpace(a, [c] + b);
    assert LStrip([c] + b) == LStrip(b);
    WordsOfLStrip([c] + b);
    WordsOfLStrip(b);
  }

  /** `len(s.split())` */
  function WordCount(s: string): nat {
    |Words(s)|
  }

  lemma {:induction false} BlankHasNoWords(s: string)
    requires IsBlank(s)
    ensures WordCount(s) == 0
  {
  }

  lemma {:induction false} NonBlankHasWords(s: string)
    requires !IsBlank(s)
    ensures WordCount(s) > 0
  {
  }

  /** `s.replace(pat, rep)`: left to right, non-overlapping. */
  function Replace(s: string, pat: string, rep: string): string
    requires pat != []
    decreases |s|
  {
    if |s| < |pat| then s
    else if s[..|pat|] == pat then rep + Replace(s[|pat|..], pat, rep)
    else [s[0]] + Replace(s[1..], pat, rep)
  }

  /** `"".join(parts)` */
  function Concat(parts: seq<string>): string {
    if parts == [] then [] else parts[0] + Concat(parts[1..])
  }

  /** `sep.join(parts)` */
  function Join(sep: string, parts: seq<string>): string {
    if parts == [] then []
    else if |parts| == 1 then parts[0]
    else parts[0] + sep + Join(sep, parts[1..])
  }

  function DigitChar(d: nat): (c: char)
    requires d < 10
    ensures '0' <= c <= '9'
  {
    ('0' as int + d) as char
  }

  /** The number a string of decimal digits denotes, most significant digit first. */
  function DecimalValue(s: string): nat
    requires forall i :: 0 <= i < |s| ==> '0' <= s[i] <= '9'
  {
    if s == [] then 0 else DecimalValue(s[..|s| - 1]) * 10 + (s[|s| - 1] as int - '0' as int)
  }

  /** `str(n)` for a natural number: its decimal digits, without a leading zero. */
  function NatToString(n: nat): (s: string)
    ensures s != []
    ensures forall i :: 0 <= i < |s| ==> '0' <= s[i] <= '9'
    ensures DecimalValue(s) == n
    ensures s[0] == '0' ==> s == "0"
  {
    if n < 10 then [DigitChar(n)]
    else
      var high := NatToString(n / 10);
      var s := high + [DigitChar(n % 10)];
      assert s[..|s| - 1] == high;
      s
  }
}
