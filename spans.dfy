/**
 * Spans of a string: the start positions and lengths of pieces that lie in
 * order and do not overlap, and the text left once they are cut out. The
 * scanners that stand for `re.findall` and `re.sub` in the research helpers
 * are described through them.
 */
module Spans {

  /**
   * The spans `ps[k]`, `ls[k]` lie in `s` at or after `from`, in order and
   * not overlapping: the first starts at or after `from` and ends inside `s`,
   * and the others are ordered after its end.
   */
  predicate Ordered(s: string, from: nat, ps: seq<nat>, ls: seq<nat>)
    decreases |ps|
  {
    && |ps| == |ls|
    && from <= |s|
    && (ps != [] ==> from <= ps[0] && ps[0] + ls[0] <= |s| && Ordered(s, ps[0] + ls[0], ps[1..], ls[1..]))
  }

  /** Every span of an ordered list lies in `s` at or after `from`. */
  lemma {:induction false} OrderedBounds(s: string, from: nat, ps: seq<nat>, ls: seq<nat>)
    requires Ordered(s, from, ps, ls)
    ensures forall k :: 0 <= k < |ps| ==> from <= ps[k] && ps[k] + ls[k] <= |s|
    decreases |ps|
  {
    if ps != [] {
      OrderedBounds(s, ps[0] + ls[0], ps[1..], ls[1..]);
      forall k | 1 <= k < |ps|
        ensures from <= ps[k] && ps[k] + ls[k] <= |s|
      {
        assert ps[k] == ps[1..][k - 1] && ls[k] == ls[1..][k - 1];
      }
    }
  }

  /** Each span of an ordered list ends at or before the start of every later one. */
  lemma {:induction false} OrderedDisjoint(s: string, from: nat, ps: seq<nat>, ls: seq<nat>)
    requires Ordered(s, from, ps, ls)
    ensures forall j, k :: 0 <= j < k < |ps| ==> ps[j] + ls[j] <= ps[k]
    decreases |ps|
  {
    if ps != [] {
      var next := ps[0] + ls[0];
      OrderedBounds(s, next, ps[1..], ls[1..]);
      OrderedDisjoint(s, next, ps[1..], ls[1..]);
      forall j, k | 0 <= j < k < |ps|
        ensures ps[j] + ls[j] <= ps[k]
      {
        assert ps[k] == ps[1..][k - 1];
        if j > 0 {
          assert ps[j] == ps[1..][j - 1] && ls[j] == ls[1..][j - 1];
        }
      }
    }
  }

  /** Position `i` lies inside one of the spans. */
  predicate Covered(ps: seq<nat>, ls: seq<nat>, i: int)
    requires |ps| == |ls|
  {
    exists k :: 0 <= k < |ps| && ps[k] <= i < ps[k] + ls[k]
  }

  /** `s[from..]` with the spans cut out. */
  function Cut(s: string, from: nat, ps: seq<nat>, ls: seq<nat>): string
    requires Ordered(s, from, ps, ls)
    decreases |ps|
  {
    if ps == [] then s[from..]
    else s[from..ps[0]] + Cut(s, ps[0] + ls[0], ps[1..], ls[1..])
  }

  /** A slice of a suffix is a slice of the whole, moved by the suffix's start. */
  lemma SliceOfSuffix(s: string, d: nat, a: nat, b: nat)
    requires d <= |s| && a <= b <= |s| - d
    ensures s[d..][a..b] == s[a + d..b + d]
  {
  }

  /** A suffix of a suffix is a suffix of the whole. */
  lemma SuffixOfSuffix(s: string, d: nat, a: nat)
    requires d <= |s| && a <= |s| - d
    ensures s[d..][a..] == s[a + d..]
  {
  }

  /** Every position moved `d` to the right. */
  function Shift(ps: seq<nat>, d: nat): (r: seq<nat>)
    ensures |r| == |ps| && forall k :: 0 <= k < |ps| ==> r[k] == ps[k] + d
  {
    seq(|ps|, k requires 0 <= k < |ps| => ps[k] + d)
  }

  /** `Shift` commutes with dropping the first position. */
  lemma ShiftTail(ps: seq<nat>, d: nat)
    requires ps != []
    ensures Shift(ps, d)[0] == ps[0] + d && Shift(ps, d)[1..] == Shift(ps[1..], d)
  {
  }

  /** The spans of a suffix `s[d..]`, moved right by `d`, are spans of `s` that cut out the same text. */
  lemma {:induction false} CutShift(s: string, d: nat, from: nat, ps: seq<nat>, ls: seq<nat>)
    requires d <= |s| && Ordered(s[d..], from, ps, ls)
    ensures Ordered(s, from + d, Shift(ps, d), ls)
    ensures Cut(s, from + d, Shift(ps, d), ls) == Cut(s[d..], from, ps, ls)
    decreases |ps|
  {
    if ps == [] {
      SuffixOfSuffix(s, d, from);
    } else {
      CutShift(s, d, ps[0] + ls[0], ps[1..], ls[1..]);
      ShiftTail(ps, d);
      SliceOfSuffix(s, d, from, ps[0]);
    }
  }

  /** The first character of a slice, then the rest of it and whatever follows. */
  lemma ConsSlice(s: string, a: nat, b: nat, t: string)
    requires a < b <= |s|
    ensures s[a..b] + t == [s[a]] + (s[a + 1..b] + t)
  {
    assert s[a..b] == [s[a]] + s[a + 1..b];
  }

  /** Starting the cut one character earlier keeps that character. */
  lemma CutFromEarlier(s: string, from: nat, ps: seq<nat>, ls: seq<nat>)
    requires from < |s| && Ordered(s, from + 1, ps, ls)
    ensures Ordered(s, from, ps, ls)
    ensures Cut(s, from, ps, ls) == [s[from]] + Cut(s, from + 1, ps, ls)
  {
    if ps == [] {
      ConsSlice(s, from, |s|, []);
      assert s[from..|s|] == s[from..] && s[from + 1..|s|] == s[from + 1..];
    } else {
      ConsSlice(s, from, ps[0], Cut(s, ps[0] + ls[0], ps[1..], ls[1..]));
    }
  }

  lemma OrderedFirst(s: string, n: nat, ps: seq<nat>, ls: seq<nat>)
    requires 0 < n <= |s| && Ordered(s, n, Shift(ps, n), ls)
    ensures Ordered(s, 0, [0] + Shift(ps, n), [n] + ls)
  {
    var qs, ms := [0] + Shift(ps, n), [n] + ls;
    assert qs[1..] == Shift(ps, n) && ms[1..] == ls;
  }

  lemma CoveredFirst(n: nat, ps: seq<nat>, ls: seq<nat>)
    requires |ps| == |ls|
    ensures forall i :: 0 <= i < n ==> Covered([0] + Shift(ps, n), [n] + ls, i)
    ensures forall j :: Covered(ps, ls, j) ==> Covered([0] + Shift(ps, n), [n] + ls, j + n)
  {
    var qs, ms := [0] + Shift(ps, n), [n] + ls;
    forall i | 0 <= i < n
      ensures Covered(qs, ms, i)
    {
      assert qs[0] <= i < qs[0] + ms[0];
    }
    forall j | Covered(ps, ls, j)
      ensures Covered(qs, ms, j + n)
    {
      var k :| 0 <= k < |ps| && ps[k] <= j < ps[k] + ls[k];
      assert qs[k + 1] == ps[k] + n && ms[k + 1] == ls[k];
    }
  }

  /** A first span of length `n` in front of the spans of `s[n..]`. */
  lemma SpanFirst(s: string, n: nat, ps: seq<nat>, ls: seq<nat>)
    requires 0 < n <= |s| && Ordered(s[n..], 0, ps, ls)
    ensures Ordered(s, 0, [0] + Shift(ps, n), [n] + ls)
    ensures Cut(s, 0, [0] + Shift(ps, n), [n] + ls) == Cut(s[n..], 0, ps, ls)
    ensures forall i :: 0 <= i < n ==> Covered([0] + Shift(ps, n), [n] + ls, i)
    ensures forall j :: Covered(ps, ls, j) ==> Covered([0] + Shift(ps, n), [n] + ls, j + n)
  {
    var qs, ms := [0] + Shift(ps, n), [n] + ls;
    CutShift(s, n, 0, ps, ls);
    OrderedFirst(s, n, ps, ls);
    assert qs[1..] == Shift(ps, n) && ms[1..] == ls;
    assert s[0..0] == [];
    assert Cut(s, 0, qs, ms) == s[0..0] + Cut(s, n, Shift(ps, n), ls);
    CoveredFirst(n, ps, ls);
  }

  /** The first character kept, in front of the spans of `s[1..]`. */
  lemma SpanSkip(s: string, ps: seq<nat>, ls: seq<nat>)
    requires s != [] && Ordered(s[1..], 0, ps, ls)
    ensures Ordered(s, 0, Shift(ps, 1), ls)
    ensures Cut(s, 0, Shift(ps, 1), ls) == [s[0]] + Cut(s[1..], 0, ps, ls)
    ensures forall j :: Covered(ps, ls, j) ==> Covered(Shift(ps, 1), ls, j + 1)
    ensures !Covered(Shift(ps, 1), ls, 0)
  {
    CutShift(s, 1, 0, ps, ls);
    CutFromEarlier(s, 0, Shift(ps, 1), ls);
    forall j | Covered(ps, ls, j)
      ensures Covered(Shift(ps, 1), ls, j + 1)
    {
      var k :| 0 <= k < |ps| && ps[k] <= j < ps[k] + ls[k];
      assert Shift(ps, 1)[k] <= j + 1 < Shift(ps, 1)[k] + ls[k];
    }
  }

  /**
   * The spans are the leftmost, non-overlapping matches of a scanner whose
   * match at the start of a text `t` is `len(t)` characters long (0 for no
   * match): each span starts where a match starts and is as long as that
   * match, and every position where a match could start lies inside a span.
   */
  ghost predicate Matches(len: string -> nat, s: string, ps: seq<nat>, ls: seq<nat>) {
    && Ordered(s, 0, ps, ls)
    && (OrderedBounds(s, 0, ps, ls);
        forall k :: 0 <= k < |ps| ==> ls[k] > 0 && ls[k] == len(s[ps[k]..]))
    && (forall i :: 0 <= i <= |s| && len(s[i..]) > 0 ==> Covered(ps, ls, i))
  }

  lemma MatchesEmpty(len: string -> nat, s: string)
    requires s == [] && len(s) == 0
    ensures Matches(len, s, [], []) && Cut(s, 0, [], []) == s
  {
    assert s[0..] == s;
  }

  lemma MatchesFirstLens(len: string -> nat, s: string, n: nat, ps: seq<nat>, ls: seq<nat>)
    requires n == len(s) > 0 && n <= |s| && |ps| == |ls|
    requires forall k :: 0 <= k < |ps| ==> ps[k] <= |s| - n && ls[k] > 0 && ls[k] == len(s[n..][ps[k]..])
    ensures forall k :: 0 <= k < |ps| + 1 ==>
              ([n] + ls)[k] > 0 && ([n] + ls)[k] == len(s[([0] + Shift(ps, n))[k]..])
  {
    var qs, ms := [0] + Shift(ps, n), [n] + ls;
    assert s[0..] == s;
    forall k | 1 <= k < |qs|
      ensures ms[k] > 0 && ms[k] == len(s[qs[k]..])
    {
      var p := ps[k - 1];
      assert qs[k] == p + n && ms[k] == ls[k - 1];
      SuffixOfSuffix(s, n, p);
    }
  }

  lemma MatchesFirstCovered(len: string -> nat, s: string, n: nat, ps: seq<nat>, ls: seq<nat>)
    requires n == len(s) > 0 && n <= |s| && Matches(len, s[n..], ps, ls)
    requires forall i :: 0 <= i < n ==> Covered([0] + Shift(ps, n), [n] + ls, i)
    requires forall j :: Covered(ps, ls, j) ==> Covered([0] + Shift(ps, n), [n] + ls, j + n)
    ensures forall i :: 0 <= i <= |s| && len(s[i..]) > 0 ==> Covered([0] + Shift(ps, n), [n] + ls, i)
  {
    forall i | 0 <= i <= |s| && len(s[i..]) > 0
      ensures Covered([0] + Shift(ps, n), [n] + ls, i)
    {
      if i >= n {
        SuffixOfSuffix(s, n, i - n);
        assert Covered(ps, ls, i - n);
      }
    }
  }

  /** A match at the start of `s`, in front of the matches of `s[n..]`. */
  lemma MatchesFirst(len: string -> nat, s: string, ps: seq<nat>, ls: seq<nat>)
    requires 0 < len(s) <= |s| && Matches(len, s[len(s)..], ps, ls)
    ensures var n := len(s);
            && Matches(len, s, [0] + Shift(ps, n), [n] + ls)
            && Cut(s, 0, [0] + Shift(ps, n), [n] + ls) == Cut(s[n..], 0, ps, ls)
  {
    var n := len(s);
    SpanFirst(s, n, ps, ls);
    OrderedBounds(s[n..], 0, ps, ls);
    assert forall k :: 0 <= k < |ps| ==> ps[k] <= |s| - n && ls[k] > 0 && ls[k] == len(s[n..][ps[k]..]);
    MatchesFirstLens(len, s, n, ps, ls);
    MatchesFirstCovered(len, s, n, ps, ls);
  }

  /** A first character where no match starts, in front of the matches of `s[1..]`. */
  lemma MatchesSkip(len: string -> nat, s: string, ps: seq<nat>, ls: seq<nat>)
    requires s != [] && len(s) == 0 && Matches(len, s[1..], ps, ls)
    ensures Matches(len, s, Shift(ps, 1), ls)
    ensures Cut(s, 0, Shift(ps, 1), ls) == [s[0]] + Cut(s[1..], 0, ps, ls)
  {
    var qs := Shift(ps, 1);
    SpanSkip(s, ps, ls);
    OrderedBounds(s[1..], 0, ps, ls);
    forall k | 0 <= k < |qs|
      ensures ls[k] > 0 && ls[k] == len(s[qs[k]..])
    {
      SuffixOfSuffix(s, 1, ps[k]);
    }
    forall i | 0 <= i <= |s| && len(s[i..]) > 0
      ensures Covered(qs, ls, i)
    {
      assert s[0..] == s;
      SuffixOfSuffix(s, 1, i - 1);
      assert Covered(ps, ls, i - 1);
    }
  }

  /** `us` is the text of the spans, in order. */
  predicate SpanTexts(s: string, ps: seq<nat>, ls: seq<nat>, us: seq<string>) {
    && |us| == |ps| == |ls|
    && forall k :: 0 <= k < |ps| ==> ps[k] + ls[k] <= |s| && us[k] == s[ps[k]..ps[k] + ls[k]]
  }

  /** The texts of the spans of `s[d..]` are slices of `s`, moved by `d`. */
  lemma TextsShifted(s: string, d: nat, ps: seq<nat>, ls: seq<nat>, us: seq<string>)
    requires d <= |s| && SpanTexts(s[d..], ps, ls, us)
    ensures SpanTexts(s, Shift(ps, d), ls, us)
  {
    forall k | 0 <= k < |ps|
      ensures us[k] == s[ps[k] + d..ps[k] + d + ls[k]]
    {
      SliceOfSuffix(s, d, ps[k], ps[k] + ls[k]);
    }
  }

  /** One more span in front, with its text. */
  lemma TextsCons(s: string, q: nat, m: nat, t: string, qs: seq<nat>, ms: seq<nat>, ts: seq<string>)
    requires SpanTexts(s, qs, ms, ts) && q + m <= |s| && t == s[q..q + m]
    ensures SpanTexts(s, [q] + qs, [m] + ms, [t] + ts)
  {
    var qs', ms', ts' := [q] + qs, [m] + ms, [t] + ts;
    forall k | 1 <= k < |qs'|
      ensures qs'[k] + ms'[k] <= |s| && ts'[k] == s[qs'[k]..qs'[k] + ms'[k]]
    {
      assert qs'[k] == qs[k - 1] && ms'[k] == ms[k - 1] && ts'[k] == ts[k - 1];
    }
  }

  lemma TextsFirst(s: string, n: nat, ps: seq<nat>, ls: seq<nat>, us: seq<string>)
    requires 0 < n <= |s| && SpanTexts(s[n..], ps, ls, us)
    ensures SpanTexts(s, [0] + Shift(ps, n), [n] + ls, [s[..n]] + us)
  {
    TextsShifted(s, n, ps, ls, us);
    TextsCons(s, 0, n, s[..n], Shift(ps, n), ls, us);
  }

  lemma TextsSkip(s: string, ps: seq<nat>, ls: seq<nat>, us: seq<string>)
    requires s != [] && SpanTexts(s[1..], ps, ls, us)
    ensures SpanTexts(s, Shift(ps, 1), ls, us)
  {
    TextsShifted(s, 1, ps, ls, us);
  }
}
