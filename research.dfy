/**
 * The text helpers of `services/research.py`: the URL scanner behind
 * `extract_urls` and `extract_instructions`, the HTML-to-text pass
 * `_strip_html`, the Twitter host test, `fetch_url_content` over an abstract
 * web, and the selection loop of `prepare_context`. Each regular expression
 * of the source is written out as a left-to-right scanner.
 */
module Research {
  import opened Results
  import opened PyStr
  import opened Spans

  const MaxArticleChars: nat := 5000
  const MaxUrls: nat := 15

  // ---------------------------------------------------------------------
  // URLs: the pattern `https?://` followed by one or more characters that
  // are neither whitespace nor one of  < > " ) ]

  predicate UrlStop(c: char) {
    IsSpace(c) || c == '<' || c == '>' || c == '"' || c == ')' || c == ']'
  }

  /** The number of leading characters that may continue a URL. */
  function RunLen(s: string): (n: nat)
    ensures n <= |s|
    ensures forall i :: 0 <= i < n ==> !UrlStop(s[i])
    ensures n < |s| ==> UrlStop(s[n])
  {
    if s == [] || UrlStop(s[0]) then 0 else 1 + RunLen(s[1..])
  }

  /** The length of the scheme part `https://` or `http://` at the start, 0 when there is none. */
  function SchemeLen(s: string): (p: nat)
    ensures p == 8 <==> StartsWith(s, "https://")
    ensures p == 7 <==> !StartsWith(s, "https://") && StartsWith(s, "http://")
    ensures p == 0 || p == 7 || p == 8
    ensures p <= |s|
  {
    if StartsWith(s, "https://") then 8 else if StartsWith(s, "http://") then 7 else 0
  }

  /** A match starts here: a scheme and one character that may continue a URL. */
  predicate MatchStart(s: string) {
    var p := SchemeLen(s);
    p > 0 && |s| > p && !UrlStop(s[p])
  }

  /** The length of the (greedy) match at the start of `s`, 0 when none starts here. */
  function MatchLen(s: string): (n: nat)
    ensures n <= |s|
    ensures n > 0 <==> MatchStart(s)
    ensures n > 0 ==> n == SchemeLen(s) + RunLen(s[SchemeLen(s)..])
  {
    var p := SchemeLen(s);
    if p == 0 then 0
    else
      var r := RunLen(s[p..]);
      if r == 0 then 0 else p + r
  }

  /** What a returned URL looks like: a scheme and a non-empty run of URL characters. */
  predicate IsUrl(u: string) {
    var p := SchemeLen(u);
    p > 0 && |u| > p && forall i :: p <= i < |u| ==> !UrlStop(u[i])
  }

  lemma MatchIsUrl(s: string)
    requires MatchStart(s)
    ensures IsUrl(s[..MatchLen(s)])
  {
    var n := MatchLen(s);
    var p := SchemeLen(s);
    assert s[..n][..p] == s[..p];
    if p == 7 {
      assert s[4] == ':';
      assert s[..n][4] == ':';
    }
    assert SchemeLen(s[..n]) == p;
    assert forall i :: p <= i < n ==> s[..n][i] == s[p..][i - p];
  }

  /** `extract_urls`: the matches, left to right and non-overlapping. */
  function ExtractUrls(s: string): (us: seq<string>)
    ensures forall k :: 0 <= k < |us| ==> IsUrl(us[k])
    decreases |s|
  {
    if s == [] then []
    else
      var n := MatchLen(s);
      if n > 0 then
        MatchIsUrl(s);
        [s[..n]] + ExtractUrls(s[n..])
      else ExtractUrls(s[1..])
  }

  /** The first step of `extract_instructions`: every match replaced by nothing. */
  function RemoveUrls(s: string): (r: string)
    ensures |r| <= |s|
    decreases |s|
  {
    if s == [] then []
    else
      var n := MatchLen(s);
      if n > 0 then RemoveUrls(s[n..]) else [s[0]] + RemoveUrls(s[1..])
  }

  /** No match starts anywhere in `t`. */
  predicate NoMatch(t: string) {
    forall i :: 0 <= i <= |t| ==> !MatchStart(t[i..])
  }

  lemma {:induction false} NoMatchNoUrls(t: string)
    requires NoMatch(t)
    ensures ExtractUrls(t) == []
    decreases |t|
  {
    if t != [] {
      assert t[0..] == t;
      assert forall i :: 0 <= i <= |t| - 1 ==> t[1..][i..] == t[i + 1..];
      NoMatchNoUrls(t[1..]);
    }
  }

  // ---------------------------------------------------------------------
  // The scanner as `re.findall` and `re.sub` see it

  /**
   * `re.findall` and `re.sub` with the URL pattern: there are spans that are
   * exactly the leftmost, non-overlapping, greedy matches of `s`;
   * `extract_urls` returns their text, in order, and the first step of
   * `extract_instructions` cuts exactly them out and keeps the rest in order.
   */
  lemma {:induction false} UrlMatches(s: string) returns (ps: seq<nat>, ls: seq<nat>)
    ensures Matches(MatchLen, s, ps, ls)
    ensures SpanTexts(s, ps, ls, ExtractUrls(s))
    ensures RemoveUrls(s) == Cut(s, 0, ps, ls)
    decreases |s|
  {
    if s == [] {
      MatchesEmpty(MatchLen, s);
      ps, ls := [], [];
    } else if MatchLen(s) > 0 {
      var n := MatchLen(s);
      var ps', ls' := UrlMatches(s[n..]);
      MatchesFirst(MatchLen, s, ps', ls');
      TextsFirst(s, n, ps', ls', ExtractUrls(s[n..]));
      ps, ls := [0] + Shift(ps', n), [n] + ls';
    } else {
      var ps', ls' := UrlMatches(s[1..]);
      MatchesSkip(MatchLen, s, ps', ls');
      TextsSkip(s, ps', ls', ExtractUrls(s[1..]));
      ps, ls := Shift(ps', 1), ls';
    }
  }

  /** The leading URL characters of `t` are those of `s`. */
  predicate RunAgrees(t: string, s: string) {
    RunLen(t) <= |s| && t[..RunLen(t)] == s[..RunLen(t)]
  }

  /** The scheme is made of characters that may continue a URL. */
  lemma SchemeChars(x: string)
    requires SchemeLen(x) > 0
    ensures forall i :: 0 <= i < SchemeLen(x) ==> !UrlStop(x[i])
  {
    var p := SchemeLen(x);
    var scheme := if p == 8 then "https://" else "http://";
    assert x[..p] == scheme;
    forall i | 0 <= i < p
      ensures !UrlStop(x[i])
    {
      assert x[i] == scheme[i];
    }
  }

  /** A match start depends only on the scheme and the character after it. */
  lemma MatchStartPrefix(x: string, y: string, m: nat)
    requires MatchStart(x) && SchemeLen(x) < m <= |y| && m <= |x| && x[..m] == y[..m]
    ensures MatchStart(y)
  {
    var p := SchemeLen(x);
    assert x[..p] == x[..m][..p] == y[..m][..p] == y[..p];
    assert x[p] == x[..m][p] == y[..m][p] == y[p];
    if p == 8 {
      assert y[..8] == x[..8];
    } else {
      assert y[..7] == x[..7] == "http://";
      if |y| >= 8 {
        assert y[..8][4] == y[4] == ':';
      }
    }
    assert SchemeLen(y) == p;
  }

  lemma {:induction false} RunLenAtLeast(t: string, n: nat)
    requires n <= |t| && forall i :: 0 <= i < n ==> !UrlStop(t[i])
    ensures RunLen(t) >= n
  {
    if n > 0 {
      RunLenAtLeast(t[1..], n - 1);
    }
  }

  /** Whether a match starts at `[c] + t` is decided by `c` and the leading URL characters of `t`. */
  lemma HeadMatch(c: char, t: string, s: string)
    requires RunAgrees(t, s)
    ensures MatchStart([c] + t) ==> MatchStart([c] + s)
  {
    var x := [c] + t;
    if MatchStart(x) {
      var p := SchemeLen(x);
      SchemeChars(x);
      forall i | 0 <= i < p
        ensures !UrlStop(t[i])
      {
        assert t[i] == x[i + 1];
      }
      RunLenAtLeast(t, p);
      var y := [c] + s;
      assert x[..p + 1] == y[..p + 1] by {
        forall i | 0 <= i < p + 1
          ensures x[i] == y[i]
        {
          if i > 0 {
            assert x[i] == t[..RunLen(t)][i - 1];
            assert y[i] == s[..RunLen(t)][i - 1];
          }
        }
      }
      MatchStartPrefix(x, y, p + 1);
    }
  }

  lemma {:induction false} RemoveUrlsRunAgrees(s: string)
    ensures RunAgrees(RemoveUrls(s), s)
    decreases |s|
  {
    var r := RemoveUrls(s);
    if s != [] {
      var n := MatchLen(s);
      if n > 0 {
        RemoveUrlsStartsAtStop(s);
      } else if !UrlStop(s[0]) {
        RemoveUrlsRunAgrees(s[1..]);
        var r1 := RemoveUrls(s[1..]);
        assert r == [s[0]] + r1;
        assert RunLen(r) == 1 + RunLen(r1);
        assert r[..RunLen(r)] == [s[0]] + r1[..RunLen(r1)];
        assert s[..RunLen(r)] == [s[0]] + s[1..][..RunLen(r1)];
      }
    }
  }

  /** After a match the scan resumes on a character that stops URLs, or at the end. */
  lemma RemoveUrlsStartsAtStop(s: string)
    requires MatchStart(s)
    ensures RunLen(RemoveUrls(s)) == 0
  {
    var n := MatchLen(s);
    var rest := s[n..];
    assert rest == [] || UrlStop(rest[0]) by {
      var p := SchemeLen(s);
      assert rest == s[p..][RunLen(s[p..])..];
    }
    if rest != [] {
      assert rest[0] != 'h';
      if |rest| >= 7 {
        assert rest[..7][0] == rest[0];
      }
      if |rest| >= 8 {
        assert rest[..8][0] == rest[0];
      }
      assert SchemeLen(rest) == 0;
      assert RemoveUrls(rest) == [rest[0]] + RemoveUrls(rest[1..]);
    }
  }

  /** With the URLs removed no URL is left: no match can form across a removed URL. */
  lemma {:induction false} RemoveUrlsNoMatch(s: string)
    ensures NoMatch(RemoveUrls(s))
    decreases |s|
  {
    var r := RemoveUrls(s);
    if s == [] {
      assert r == [];
    } else {
      var n := MatchLen(s);
      if n > 0 {
        RemoveUrlsNoMatch(s[n..]);
      } else {
        var r1 := RemoveUrls(s[1..]);
        RemoveUrlsNoMatch(s[1..]);
        RemoveUrlsRunAgrees(s[1..]);
        assert s == [s[0]] + s[1..];
        HeadMatch(s[0], r1, s[1..]);
        NoMatchCons(s[0], r1);
      }
    }
  }

  lemma NoMatchCons(c: char, r1: string)
    requires NoMatch(r1) && !MatchStart([c] + r1)
    ensures NoMatch([c] + r1)
  {
    var r := [c] + r1;
    forall i | 0 <= i <= |r|
      ensures !MatchStart(r[i..])
    {
      if i > 0 {
        assert r[i..] == r1[i - 1..];
      }
    }
  }

  /** A match inside a prefix is a match in the whole string. */
  lemma {:induction false} NoMatchPrefix(t: string, m: nat)
    requires NoMatch(t) && m <= |t|
    ensures NoMatch(t[..m])
  {
    forall i | 0 <= i <= m
      ensures !MatchStart(t[..m][i..])
    {
      var x := t[..m][i..];
      if MatchStart(x) {
        var q := SchemeLen(x) + 1;
        assert x[..q] == t[i..][..q];
        MatchStartPrefix(x, t[i..], q);
        assert false;
      }
    }
  }

  lemma NoMatchSuffix(t: string, k: nat)
    requires NoMatch(t) && k <= |t|
    ensures NoMatch(t[k..])
  {
    forall i | 0 <= i <= |t| - k
      ensures !MatchStart(t[k..][i..])
    {
      assert t[k..][i..] == t[k + i..];
    }
  }

  lemma NoMatchStrip(t: string)
    requires NoMatch(t)
    ensures NoMatch(Strip(t))
  {
    var l := LStrip(t);
    NoMatchSuffix(t, |t| - |l|);
    NoMatchPrefix(l, |RStrip(l)|);
  }

  // ---------------------------------------------------------------------
  // Runs of three or more newlines become two

  function NewlineRun(s: string): (k: nat)
    ensures k <= |s|
    ensures forall i :: 0 <= i < k ==> s[i] == '\n'
    ensures k < |s| ==> s[k] != '\n'
  {
    if s == [] || s[0] != '\n' then 0 else 1 + NewlineRun(s[1..])
  }

  /** `re.sub(r'\n{3,}', '\n\n', s)` */
  function CollapseNewlines(s: string): (r: string)
    ensures |r| <= |s|
    decreases |s|
  {
    if s == [] then []
    else
      var k := NewlineRun(s);
      if k >= 3 then "\n\n" + CollapseNewlines(s[k..]) else [s[0]] + CollapseNewlines(s[1..])
  }

  /** The result starts with the same newlines, at most two of them. */
  lemma {:induction false} CollapseLeadingNewlines(s: string)
    ensures NewlineRun(CollapseNewlines(s)) == if NewlineRun(s) >= 3 then 2 else NewlineRun(s)
    decreases |s|
  {
    var r := CollapseNewlines(s);
    if s != [] {
      var k := NewlineRun(s);
      if k >= 3 {
        var rest := s[k..];
        assert rest == [] || rest[0] != '\n';
        if rest != [] {
          assert NewlineRun(rest) == 0;
          CollapseLeadingNewlines(rest);
          assert CollapseNewlines(rest) == [] || CollapseNewlines(rest)[0] != '\n';
        }
        assert r == "\n\n" + CollapseNewlines(rest);
        assert r[0] == '\n' && r[1] == '\n';
        assert r[1..][1..] == CollapseNewlines(rest);
        assert NewlineRun(r[1..][1..]) == 0;
      } else if k > 0 {
        CollapseLeadingNewlines(s[1..]);
        assert NewlineRun(s[1..]) == k - 1;
        assert r[1..] == CollapseNewlines(s[1..]);
      }
    }
  }

  /** No three newlines in a row. */
  predicate NoTripleNewline(t: string) {
    forall i :: 0 <= i && i + 2 < |t| ==> !(t[i] == '\n' && t[i + 1] == '\n' && t[i + 2] == '\n')
  }

  lemma NoTripleAfterPair(c: string)
    requires NoTripleNewline(c) && (c == [] || c[0] != '\n')
    ensures NoTripleNewline("\n\n" + c)
  {
    var r := "\n\n" + c;
    forall i | 0 <= i && i + 2 < |r|
      ensures !(r[i] == '\n' && r[i + 1] == '\n' && r[i + 2] == '\n')
    {
      if i < 2 {
        assert r[2] == c[0];
      } else {
        assert r[i] == c[i - 2] && r[i + 1] == c[i - 1] && r[i + 2] == c[i];
      }
    }
  }

  lemma NoTripleCons(x: char, c: string)
    requires NoTripleNewline(c) && (x == '\n' ==> NewlineRun(c) <= 1)
    ensures NoTripleNewline([x] + c)
  {
    var r := [x] + c;
    forall i | 0 <= i && i + 2 < |r|
      ensures !(r[i] == '\n' && r[i + 1] == '\n' && r[i + 2] == '\n')
    {
      if i == 0 {
        if x == '\n' && c[0] == '\n' {
          assert c[1] != '\n';
        }
      } else {
        assert r[i] == c[i - 1] && r[i + 1] == c[i] && r[i + 2] == c[i + 1];
      }
    }
  }

  lemma {:induction false} CollapseNoTriple(s: string)
    ensures NoTripleNewline(CollapseNewlines(s))
    decreases |s|
  {
    if s != [] {
      var k := NewlineRun(s);
      if k >= 3 {
        var rest := s[k..];
        CollapseNoTriple(rest);
        CollapseLeadingNewlines(rest);
        NoTripleAfterPair(CollapseNewlines(rest));
      } else {
        CollapseNoTriple(s[1..]);
        CollapseLeadingNewlines(s[1..]);
        if s[0] == '\n' {
          assert NewlineRun(s[1..]) == k - 1;
        }
        NoTripleCons(s[0], CollapseNewlines(s[1..]));
      }
    }
  }

  lemma NoTripleSlice(t: string, a: nat, b: nat)
    requires NoTripleNewline(t) && a <= b <= |t|
    ensures NoTripleNewline(t[a..b])
  {
    forall i | 0 <= i && i + 2 < b - a
      ensures !(t[a..b][i] == '\n' && t[a..b][i + 1] == '\n' && t[a..b][i + 2] == '\n')
    {
      assert t[a..b][i] == t[a + i] && t[a..b][i + 1] == t[a + i + 1] && t[a..b][i + 2] == t[a + i + 2];
    }
  }

  /** Collapsing newlines cannot make a URL: its scheme and first character hold no newline. */
  lemma {:induction false} CollapseRunAgrees(s: string)
    ensures RunAgrees(CollapseNewlines(s), s)
    decreases |s|
  {
    var r := CollapseNewlines(s);
    if s != [] && s[0] != '\n' && !UrlStop(s[0]) {
      CollapseRunAgrees(s[1..]);
      var r1 := CollapseNewlines(s[1..]);
      assert r == [s[0]] + r1;
      assert RunLen(r) == 1 + RunLen(r1);
      assert r[..RunLen(r)] == [s[0]] + r1[..RunLen(r1)];
      assert s[..RunLen(r)] == [s[0]] + s[1..][..RunLen(r1)];
    }
  }

  lemma {:induction false} CollapseKeepsNoMatch(s: string)
    requires NoMatch(s)
    ensures NoMatch(CollapseNewlines(s))
    decreases |s|
  {
    var r := CollapseNewlines(s);
    if s != [] {
      var k := NewlineRun(s);
      if k >= 3 {
        var c := CollapseNewlines(s[k..]);
        NoMatchSuffix(s, k);
        CollapseKeepsNoMatch(s[k..]);
        assert r == "\n\n" + c;
        forall i | 0 <= i <= |r|
          ensures !MatchStart(r[i..])
        {
          if i < 2 {
            assert r[i..][0] == '\n';
            if |r[i..]| >= 7 {
              assert r[i..][..7][0] == '\n';
            }
            if |r[i..]| >= 8 {
              assert r[i..][..8][0] == '\n';
            }
          } else {
            assert r[i..] == c[i - 2..];
          }
        }
      } else {
        var c := CollapseNewlines(s[1..]);
        NoMatchSuffix(s, 1);
        CollapseKeepsNoMatch(s[1..]);
        CollapseRunAgrees(s[1..]);
        assert s == [s[0]] + s[1..];
        assert s[0..] == s;
        HeadMatch(s[0], c, s[1..]);
        forall i | 0 <= i <= |r|
          ensures !MatchStart(r[i..])
        {
          if i > 0 {
            assert r[i..] == c[i - 1..];
          }
        }
      }
    }
  }

  /** `extract_instructions`: what is left is never longer and has no whitespace at either end. */
  function ExtractInstructions(s: string): (r: string)
    ensures |r| <= |s|
    ensures Trimmed(r)
  {
    Strip(CollapseNewlines(RemoveUrls(s)))
  }

  /**
   * The instructions hold no URL that `extract_urls` would find, no run of
   * three newlines, and no surrounding whitespace.
   */
  lemma InstructionsHaveNoUrls(s: string)
    ensures ExtractUrls(ExtractInstructions(s)) == []
    ensures NoTripleNewline(ExtractInstructions(s))
    ensures Trimmed(ExtractInstructions(s))
  {
    var c := CollapseNewlines(RemoveUrls(s));
    RemoveUrlsNoMatch(s);
    CollapseKeepsNoMatch(RemoveUrls(s));
    NoMatchStrip(c);
    NoMatchNoUrls(Strip(c));
    CollapseNoTriple(RemoveUrls(s));
    var l := LStrip(c);
    NoTripleSlice(c, |c| - |l|, |c|);
    NoTripleSlice(l, 0, |RStrip(l)|);
    var t := Strip(c);
    if t != [] {
      assert t[0] == l[0];
    }
  }

  // ---------------------------------------------------------------------
  // `_strip_html`

  /** The elements whose whole content is dropped, in the order the pattern lists them. */
  const BlockTags: seq<string> := ["script", "style", "nav", "footer", "header", "aside"]

  /** `s` starts with `p` ignoring ASCII case (`p` is lower case). */
  predicate StartsWithIgnoringCase(s: string, p: string) {
    |p| <= |s| && Lower(s[..|p|]) == p
  }

  /** The first index of `c` in `s`. */
  function IndexOf(s: string, c: char): (r: Option<nat>)
    ensures r.Some? ==> r.value < |s| && s[r.value] == c && forall j :: 0 <= j < r.value ==> s[j] != c
    ensures r.None? ==> forall j :: 0 <= j < |s| ==> s[j] != c
  {
    if s == [] then None
    else if s[0] == c then Some(0)
    else
      var r := IndexOf(s[1..], c);
      assert forall j :: 1 <= j < |s| ==> s[j] == s[1..][j - 1];
      if r.None? then None else Some(r.value + 1)
  }

  /** The first block element name that follows `<` at the start of `s`. */
  function OpenBlockName(s: string): (r: Option<string>)
    ensures r.Some? ==> r.value in BlockTags && StartsWith(s, "<") && StartsWithIgnoringCase(s[1..], r.value)
  {
    if s == [] || s[0] != '<' then None
    else if StartsWithIgnoringCase(s[1..], "script") then Some("script")
    else if StartsWithIgnoringCase(s[1..], "style") then Some("style")
    else if StartsWithIgnoringCase(s[1..], "nav") then Some("nav")
    else if StartsWithIgnoringCase(s[1..], "footer") then Some("footer")
    else if StartsWithIgnoringCase(s[1..], "header") then Some("header")
    else if StartsWithIgnoringCase(s[1..], "aside") then Some("aside")
    else None
  }

  /** The first index at which the closing tag `</name>` starts, ignoring case. */
  function FindClose(s: string, name: string): (r: Option<nat>)
    ensures r.Some? ==> r.value + |name| + 3 <= |s| && StartsWithIgnoringCase(s[r.value..], "</" + name + ">")
    decreases |s|
  {
    if |s| < |name| + 3 then None
    else if StartsWithIgnoringCase(s, "</" + name + ">") then Some(0)
    else
      var r := FindClose(s[1..], name);
      if r.None? then None
      else
        assert s[1..][r.value..] == s[r.value + 1..];
        Some(r.value + 1)
  }

  /**
   * The length of the block matched at the start of `s`:
   * `<name`, anything up to the first `>`, then the shortest text up to
   * `</name>` (0 when no block starts here).
   */
  function BlockLen(s: string): (n: nat)
    ensures n <= |s|
    ensures n > 0 ==> OpenBlockName(s).Some?
    ensures n > 0 ==> var name := OpenBlockName(s).value;
                      n >= |name| + 5 && StartsWithIgnoringCase(s[n - |name| - 3..], "</" + name + ">")
  {
    match OpenBlockName(s)
    case None => 0
    case Some(name) =>
      var after := 1 + |name|;
      match IndexOf(s[after..], '>')
      case None => 0
      case Some(gt) =>
        var bodyStart := after + gt + 1;
        match FindClose(s[bodyStart..], name)
        case None => 0
        case Some(close) =>
          CloseInSuffix(s, bodyStart, close, "</" + name + ">");
          bodyStart + close + |name| + 3
  }

  /** A closing tag found in a suffix of `s` starts at the matching place in `s` itself. */
  lemma CloseInSuffix(s: string, start: nat, close: nat, tag: string)
    requires start <= |s| && close <= |s| - start
    requires StartsWithIgnoringCase(s[start..][close..], tag)
    ensures StartsWithIgnoringCase(s[start + close..], tag)
  {
    assert s[start..][close..] == s[start + close..];
  }

  /** Every block element, with its content, removed. */
  function RemoveBlocks(s: string): (r: string)
    ensures |r| <= |s|
    decreases |s|
  {
    if s == [] then []
    else
      var n := BlockLen(s);
      if n > 0 then RemoveBlocks(s[n..]) else [s[0]] + RemoveBlocks(s[1..])
  }

  /**
   * `re.sub` with the block pattern: there are spans that are exactly the
   * leftmost, non-overlapping block elements of `s`, and the removal cuts
   * exactly them out and keeps every other character, in order.
   */
  lemma {:induction false} BlockMatches(s: string) returns (ps: seq<nat>, ls: seq<nat>)
    ensures Matches(BlockLen, s, ps, ls)
    ensures RemoveBlocks(s) == Cut(s, 0, ps, ls)
    decreases |s|
  {
    if s == [] {
      MatchesEmpty(BlockLen, s);
      ps, ls := [], [];
    } else if BlockLen(s) > 0 {
      var n := BlockLen(s);
      var ps', ls' := BlockMatches(s[n..]);
      MatchesFirst(BlockLen, s, ps', ls');
      ps, ls := [0] + Shift(ps', n), [n] + ls';
    } else {
      var ps', ls' := BlockMatches(s[1..]);
      MatchesSkip(BlockLen, s, ps', ls');
      ps, ls := Shift(ps', 1), ls';
    }
  }

  /** A text without `<` has no block to remove. */
  lemma {:induction false} RemoveBlocksWithoutTags(s: string)
    requires forall i :: 0 <= i < |s| ==> s[i] != '<'
    ensures RemoveBlocks(s) == s
    decreases |s|
  {
    if s != [] {
      RemoveBlocksWithoutTags(s[1..]);
    }
  }

  /** The length of the tag `<...>` at the start of `s` (at least one character inside), 0 when none. */
  function TagLen(s: string): (n: nat)
    ensures n <= |s|
    ensures n > 0 ==> n >= 3 && s[0] == '<' && s[n - 1] == '>' && forall j :: 1 <= j < n - 1 ==> s[j] != '>'
  {
    if |s| < 2 || s[0] != '<' || s[1] == '>' then 0
    else match IndexOf(s[2..], '>')
      case None => 0
      case Some(j) =>
        assert forall k :: 2 <= k < j + 2 ==> s[k] == s[2..][k - 2];
        j + 3
  }

  /** `re.sub(r'<[^>]+>', ' ', s)` */
  function StripTags(s: string): (r: string)
    decreases |s|
  {
    if s == [] then []
    else
      var n := TagLen(s);
      if n > 0 then " " + StripTags(s[n..]) else [s[0]] + StripTags(s[1..])
  }

  /** No tag is left. */
  predicate NoTag(t: string) {
    forall i :: 0 <= i <= |t| ==> TagLen(t[i..]) == 0
  }

  /** Stripping tags adds no `>`. */
  lemma {:induction false} StripTagsNoNewClose(s: string)
    requires forall j :: 0 <= j < |s| ==> s[j] != '>'
    ensures forall j :: 0 <= j < |StripTags(s)| ==> StripTags(s)[j] != '>'
    decreases |s|
  {
    if s != [] {
      assert TagLen(s) == 0;
      StripTagsNoNewClose(s[1..]);
    }
  }

  /** The output keeps a first `>` that follows a kept `<` right after it. */
  lemma StripTagsKeepsClose(s: string)
    requires |s| >= 1 && s[0] == '>'
    ensures StripTags(s) != [] && StripTags(s)[0] == '>'
  {
  }

  /** One pass removes every tag: the output holds none. */
  lemma {:induction false} StripTagsLeavesNoTag(s: string)
    ensures NoTag(StripTags(s))
    decreases |s|
  {
    var r := StripTags(s);
    if s == [] {
      assert r == [];
    } else {
      var n := TagLen(s);
      var rest := if n > 0 then s[n..] else s[1..];
      var r1 := StripTags(rest);
      StripTagsLeavesNoTag(rest);
      assert r == (if n > 0 then " " else [s[0]]) + r1;
      forall i | 0 <= i <= |r|
        ensures TagLen(r[i..]) == 0
      {
        if i > 0 {
          assert r[i..] == r1[i - 1..];
        } else if n == 0 && s[0] == '<' && |r| >= 2 {
          if s[1] == '>' {
            StripTagsKeepsClose(s[1..]);
          } else {
            assert IndexOf(s[2..], '>').None?;
            assert forall j :: 0 <= j < |s[1..]| ==> s[1..][j] != '>' by {
              forall j | 0 <= j < |s[1..]| ensures s[1..][j] != '>' {
                if j > 0 {
                  assert s[1..][j] == s[2..][j - 1];
                }
              }
            }
            StripTagsNoNewClose(s[1..]);
            assert forall k :: 1 <= k < |r| ==> r[k] == r1[k - 1];
          }
        }
      }
    }
  }

  /** Stripping tags twice is stripping them once. */
  lemma {:induction false} StripTagsIdempotent(s: string)
    ensures StripTags(StripTags(s)) == StripTags(s)
  {
    StripTagsLeavesNoTag(s);
    NoTagUnchanged(StripTags(s));
  }

  lemma {:induction false} NoTagUnchanged(t: string)
    requires NoTag(t)
    ensures StripTags(t) == t
    decreases |t|
  {
    if t != [] {
      assert t[0..] == t;
      assert forall i :: 0 <= i <= |t| - 1 ==> t[1..][i..] == t[i + 1..];
      NoTagUnchanged(t[1..]);
    }
  }

  /** The six entity replacements, `&amp;` first. */
  function DecodeEntities(s: string): string {
    var t1 := Replace(s, "&amp;", "&");
    var t2 := Replace(t1, "&lt;", "<");
    var t3 := Replace(t2, "&gt;", ">");
    var t4 := Replace(t3, "&quot;", "\"");
    var t5 := Replace(t4, "&#39;", "'");
    Replace(t5, "&nbsp;", " ")
  }

  /** Because `&amp;` is decoded first, a double-encoded `&amp;lt;` comes out as `<`. */
  lemma AmpersandDecodedFirst()
    ensures DecodeEntities("&amp;lt;") == "<"
  {
    assert Replace("&amp;lt;", "&amp;", "&") == "&lt;" by {
      assert "&amp;lt;"[..5] == "&amp;";
      assert "&amp;lt;"[5..] == "lt;";
      assert Replace("lt;", "&amp;", "&") == "lt;";
    }
    assert Replace("&lt;", "&lt;", "<") == "<" by {
      assert "&lt;"[..4] == "&lt;";
      assert Replace("", "&lt;", "<") == "";
    }
  }

  /** A replacement whose pattern starts with a character the text lacks changes nothing. */
  lemma {:induction false} ReplaceAbsent(s: string, pat: string, rep: string)
    requires pat != [] && forall i :: 0 <= i < |s| ==> s[i] != pat[0]
    ensures Replace(s, pat, rep) == s
    decreases |s|
  {
    if |s| >= |pat| {
      assert s[..|pat|][0] == s[0];
      ReplaceAbsent(s[1..], pat, rep);
    }
  }

  /** Text without `&` holds no entity and is left as it is. */
  lemma DecodeWithoutAmpersand(s: string)
    requires forall i :: 0 <= i < |s| ==> s[i] != '&'
    ensures DecodeEntities(s) == s
  {
    ReplaceAbsent(s, "&amp;", "&");
    ReplaceAbsent(s, "&lt;", "<");
    ReplaceAbsent(s, "&gt;", ">");
    ReplaceAbsent(s, "&quot;", "\"");
    ReplaceAbsent(s, "&#39;", "'");
    ReplaceAbsent(s, "&nbsp;", " ");
  }

  predicate Blank(c: char) {
    c == ' ' || c == '\t'
  }

  function BlankRun(s: string): (k: nat)
    ensures k <= |s|
    ensures forall i :: 0 <= i < k ==> Blank(s[i])
    ensures k < |s| ==> !Blank(s[k])
  {
    if s == [] || !Blank(s[0]) then 0 else 1 + BlankRun(s[1..])
  }

  /** `re.sub(r'[ \t]+', ' ', s)` */
  function CollapseBlanks(s: string): (r: string)
    decreases |s|
  {
    if s == [] then []
    else
      var k := BlankRun(s);
      if k > 0 then " " + CollapseBlanks(s[k..]) else [s[0]] + CollapseBlanks(s[1..])
  }

  /** The text with spaces and tabs left out. */
  function DropBlanks(s: string): (r: string)
    ensures forall i :: 0 <= i < |r| ==> !Blank(r[i])
  {
    if s == [] then [] else (if Blank(s[0]) then [] else [s[0]]) + DropBlanks(s[1..])
  }

  lemma {:induction false} DropBlanksOfBlanks(s: string, k: nat)
    requires k <= |s| && forall i :: 0 <= i < k ==> Blank(s[i])
    ensures DropBlanks(s) == DropBlanks(s[k..])
    decreases k
  {
    if k > 0 {
      DropBlanksOfBlanks(s[1..], k - 1);
      assert s[1..][k - 1..] == s[k..];
    }
  }

  /** No tab and no two spaces in a row. */
  predicate SingleSpaced(r: string) {
    && (forall i :: 0 <= i < |r| ==> r[i] != '\t')
    && (forall i :: 0 <= i < |r| - 1 ==> !(r[i] == ' ' && r[i + 1] == ' '))
  }

  lemma ConsSpace(r1: string)
    requires SingleSpaced(r1) && (r1 == [] || !Blank(r1[0]))
    ensures SingleSpaced(" " + r1) && DropBlanks(" " + r1) == DropBlanks(r1)
  {
    var r := " " + r1;
    forall i | 0 <= i < |r| - 1
      ensures !(r[i] == ' ' && r[i + 1] == ' ')
    {
      if i > 0 {
        assert r[i] == r1[i - 1] && r[i + 1] == r1[i];
      }
    }
    assert r[1..] == r1;
  }

  lemma ConsOther(c: char, r1: string)
    requires SingleSpaced(r1) && !Blank(c)
    ensures SingleSpaced([c] + r1) && DropBlanks([c] + r1) == [c] + DropBlanks(r1)
  {
    var r := [c] + r1;
    assert forall i :: 1 <= i < |r| ==> r[i] == r1[i - 1];
    assert r[1..] == r1;
  }

  /**
   * Every run of spaces and tabs becomes one space: the result has no tab
   * and no two spaces in a row, starts with a blank exactly when the input
   * does, and keeps every other character in order.
   */
  lemma {:induction false} CollapseBlanksSpec(s: string)
    ensures var r := CollapseBlanks(s);
            && (forall i :: 0 <= i < |r| ==> r[i] != '\t')
            && (forall i :: 0 <= i < |r| - 1 ==> !(r[i] == ' ' && r[i + 1] == ' '))
            && DropBlanks(r) == DropBlanks(s)
            && (r != [] && Blank(r[0]) <==> s != [] && Blank(s[0]))
    decreases |s|
  {
    if s != [] {
      var k := BlankRun(s);
      if k > 0 {
        CollapseBlanksSpec(s[k..]);
        DropBlanksOfBlanks(s, k);
        ConsSpace(CollapseBlanks(s[k..]));
      } else {
        CollapseBlanksSpec(s[1..]);
        ConsOther(s[0], CollapseBlanks(s[1..]));
      }
    }
  }

  /** The length of a blank line break `\n[ \t]*\n` at the start of `s`, 0 when none. */
  function BlankLineLen(s: string): (n: nat)
    ensures n <= |s|
    ensures n > 0 ==> n >= 2 && s[0] == '\n' && s[n - 1] == '\n' && forall i :: 1 <= i < n - 1 ==> Blank(s[i])
  {
    if s == [] || s[0] != '\n' then 0
    else
      var k := BlankRun(s[1..]);
      if 1 + k < |s| && s[1 + k] == '\n' then
        assert forall i :: 1 <= i < k + 1 ==> s[i] == s[1..][i - 1];
        k + 2
      else 0
  }

  /** `re.sub(r'\n[ \t]*\n', '\n\n', s)` */
  function JoinBlankLines(s: string): (r: string)
    decreases |s|
  {
    if s == [] then []
    else
      var n := BlankLineLen(s);
      if n > 0 then "\n\n" + JoinBlankLines(s[n..]) else [s[0]] + JoinBlankLines(s[1..])
  }

  lemma DropBlanksCons(c: char, t: string)
    ensures DropBlanks([c] + t) == (if Blank(c) then [] else [c]) + DropBlanks(t)
  {
    assert ([c] + t)[0] == c && ([c] + t)[1..] == t;
  }

  /** Joining turns a blank line break into two newlines and carries on after it. */
  lemma JoinedBlankLine(s: string, n: nat)
    requires n == BlankLineLen(s) && n > 0
    ensures DropBlanks(JoinBlankLines(s)) == ['\n'] + (['\n'] + DropBlanks(JoinBlankLines(s[n..])))
  {
    var j := JoinBlankLines(s[n..]);
    assert JoinBlankLines(s) == ['\n'] + (['\n'] + j);
    DropBlanksCons('\n', ['\n'] + j);
    DropBlanksCons('\n', j);
  }

  /** Dropping blanks from a newline, blanks, and a newline leaves the two newlines. */
  lemma DroppedBlankLine(inner: string, rest: string)
    requires DropBlanks(inner) == DropBlanks(['\n'] + rest)
    ensures DropBlanks(['\n'] + inner) == ['\n'] + (['\n'] + DropBlanks(rest))
  {
    DropBlanksCons('\n', inner);
    DropBlanksCons('\n', rest);
  }

  lemma {:induction false} DropBlanksOfBlankRange(s: string, a: nat, b: nat)
    requires a <= b <= |s| && forall i :: a <= i < b ==> Blank(s[i])
    ensures DropBlanks(s[a..]) == DropBlanks(s[b..])
    decreases b - a
  {
    if a < b {
      assert s[a..] == [s[a]] + s[a + 1..];
      DropBlanksCons(s[a], s[a + 1..]);
      DropBlanksOfBlankRange(s, a + 1, b);
    }
  }

  lemma JoinOtherStep(s: string)
    requires s != [] && BlankLineLen(s) == 0
    requires DropBlanks(JoinBlankLines(s[1..])) == DropBlanks(s[1..])
    ensures DropBlanks(JoinBlankLines(s)) == DropBlanks(s)
  {
    assert s == [s[0]] + s[1..];
    DropBlanksCons(s[0], s[1..]);
    DropBlanksCons(s[0], JoinBlankLines(s[1..]));
  }

  /** Joining blank lines only drops spaces and tabs. */
  lemma {:induction false} JoinBlankLinesDropsOnlyBlanks(s: string)
    ensures DropBlanks(JoinBlankLines(s)) == DropBlanks(s)
    decreases |s|
  {
    if s != [] {
      var n := BlankLineLen(s);
      if n > 0 {
        JoinBlankLinesDropsOnlyBlanks(s[n..]);
        JoinedBlankLine(s, n);
        DropBlanksOfBlankRange(s, 1, n - 1);
        assert s[n - 1..] == ['\n'] + s[n..];
        assert s == ['\n'] + s[1..];
        DroppedBlankLine(s[1..], s[n..]);
      } else {
        JoinBlankLinesDropsOnlyBlanks(s[1..]);
        JoinOtherStep(s);
      }
    }
  }

  /** `_strip_html`: the text has no whitespace at either end. */
  function StripHtml(html: string): (r: string)
    ensures Trimmed(r)
  {
    Strip(HtmlText(html))
  }

  /** `_strip_html` before its final `strip()`. */
  function HtmlText(html: string): string {
    JoinBlankLines(CollapseBlanks(DecodeEntities(StripTags(RemoveBlocks(html)))))
  }

  // ---------------------------------------------------------------------
  // `_is_twitter_url`

  predicate SchemeChar(c: char) {
    ('a' <= c <= 'z') || ('A' <= c <= 'Z') || ('0' <= c <= '9') || c == '+' || c == '-' || c == '.'
  }

  /** What `urlsplit` leaves after a leading `scheme:`. */
  function AfterScheme(url: string): string {
    match IndexOf(url, ':')
    case None => url
    case Some(i) =>
      if i > 0 && (('a' <= url[0] <= 'z') || ('A' <= url[0] <= 'Z')) && forall j :: 0 <= j < i ==> SchemeChar(url[j])
      then url[i + 1..]
      else url
  }

  /** The first index of one of `/`, `?`, `#`, or the length. */
  function NetlocEnd(s: string): (k: nat)
    ensures k <= |s|
    ensures forall j :: 0 <= j < k ==> s[j] != '/' && s[j] != '?' && s[j] != '#'
  {
    if s == [] || s[0] == '/' || s[0] == '?' || s[0] == '#' then 0 else 1 + NetlocEnd(s[1..])
  }

  /** `urlparse(url).netloc` */
  function Netloc(url: string): string {
    var rest := AfterScheme(url);
    if StartsWith(rest, "//") then rest[2..][..NetlocEnd(rest[2..])] else []
  }

  /** `urlsplit` rejects a network location with one square bracket but not the other. */
  predicate BracketsUnbalanced(netloc: string) {
    IndexOf(netloc, '[').Some? != IndexOf(netloc, ']').Some?
  }

  /** `urlparse(url).netloc.lower().replace("www.", "")` */
  function Domain(url: string): string {
    Replace(Lower(Netloc(url)), "www.", "")
  }

  /** `_is_twitter_url` as written: a substring test on the domain. */
  function IsTwitterUrl(url: string): (r: Result<bool, string>)
    ensures r.Failure? <==> BracketsUnbalanced(Netloc(url))
  {
    if BracketsUnbalanced(Netloc(url)) then Failure("Invalid IPv6 URL")
    else Success(Contains(Domain(url), "twitter.com") || Contains(Domain(url), "x.com"))
  }

  /** The host of a domain: what precedes a `:port`. */
  function HostOf(domain: string): string {
    match IndexOf(domain, ':')
    case None => domain
    case Some(i) => domain[..i]
  }

  /** The host is twitter.com or x.com, or a subdomain of one of them. */
  predicate IsTwitterHost(host: string) {
    host == "twitter.com" || host == "x.com" || EndsWith(host, ".twitter.com") || EndsWith(host, ".x.com")
  }

  /** The Twitter test as intended: on the host, not on any substring of the domain. */
  function IsTweetUrl(url: string): (r: Result<bool, string>)
    ensures r.Failure? <==> BracketsUnbalanced(Netloc(url))
  {
    if BracketsUnbalanced(Netloc(url)) then Failure("Invalid IPv6 URL")
    else Success(IsTwitterHost(HostOf(Domain(url))))
  }

  /** A string ending in `p` ends in every tail of `p`. */
  lemma EndsWithTail(h: string, p: string)
    requires EndsWith(h, p) && p != []
    ensures EndsWith(h, p[1..])
  {
    assert h[|h| - |p|..][1..] == h[|h| - |p[1..]|..];
  }

  /** A string whose prefix ends in `n` contains `n`. */
  lemma PrefixEndsWithContained(d: string, k: nat, n: string)
    requires k <= |d| && EndsWith(d[..k], n)
    ensures Contains(d, n)
  {
    assert d[k - |n|..k] == d[..k][k - |n|..];
    ContainsAt(d, n, k - |n|);
  }

  /** A domain whose host passes the intended test contains one of the two names. */
  lemma TwitterHostInDomain(d: string)
    requires IsTwitterHost(HostOf(d))
    ensures Contains(d, "twitter.com") || Contains(d, "x.com")
  {
    var h := HostOf(d);
    assert h == d[..|h|];
    var n := if h == "twitter.com" || EndsWith(h, ".twitter.com") then "twitter.com" else "x.com";
    if h == n {
      assert EndsWith(h, n);
    } else {
      assert EndsWith(h, "." + n);
      assert ("." + n)[1..] == n;
      EndsWithTail(h, "." + n);
    }
    PrefixEndsWithContained(d, |h|, n);
  }

  /** The intended test never answers yes where the written one answers no. */
  lemma TweetUrlRefinesTwitterUrl(url: string)
    requires IsTweetUrl(url) == Success(true)
    ensures IsTwitterUrl(url) == Success(true)
  {
    TwitterHostInDomain(Domain(url));
  }

  lemma {:induction false} IndexOfAfter(p: string, c: char, t: string)
    requires c !in p
    ensures IndexOf(p + [c] + t, c) == Some(|p|)
  {
    if p != [] {
      IndexOfAfter(p[1..], c, t);
      assert (p + [c] + t)[1..] == p[1..] + [c] + t;
    } else {
      assert (p + [c] + t)[0] == c;
    }
  }

  /** After `http:` the scheme is gone. */
  lemma AfterSchemeHttp(rest: string)
    ensures AfterScheme("http:" + rest) == rest
  {
    var url := "http:" + rest;
    assert url == "http" + [':'] + rest;
    IndexOfAfter("http", ':', rest);
    forall j | 0 <= j < 4
      ensures SchemeChar(url[j])
    {
      assert url[j] == "http"[j];
    }
    assert url[5..] == rest;
  }

  lemma {:induction false} NetlocEndAll(h: string)
    requires forall j :: 0 <= j < |h| ==> h[j] != '/' && h[j] != '?' && h[j] != '#'
    ensures NetlocEnd(h) == |h|
  {
    if h != [] {
      NetlocEndAll(h[1..]);
    }
  }

  /** The network location of `http://` followed by a host with no path, query or fragment is that host. */
  lemma HttpNetloc(host: string)
    requires forall j :: 0 <= j < |host| ==> host[j] != '/' && host[j] != '?' && host[j] != '#'
    ensures Netloc("http://" + host) == host
  {
    var rest := "//" + host;
    assert "http://" + host == "http:" + rest;
    AfterSchemeHttp(rest);
    assert rest[..2] == "//" && rest[2..] == host;
    NetlocEndAll(host);
  }

  /** A lower-case host without `w`, path, query or fragment is its own domain. */
  lemma HttpDomain(host: string)
    requires forall j :: 0 <= j < |host| ==> host[j] != '/' && host[j] != '?' && host[j] != '#'
    requires forall j :: 0 <= j < |host| ==> !('A' <= host[j] <= 'Z') && host[j] != 'w'
    ensures Netloc("http://" + host) == host
    ensures Domain("http://" + host) == host
  {
    HttpNetloc(host);
    assert Lower(host) == host;
    ReplaceAbsent(host, "www.", "");
  }

  lemma BoxDomain(host: string)
    requires host == "box.com"
    ensures Netloc("http://" + host) == host
    ensures Domain("http://" + host) == host
  {
    forall j | 0 <= j < |host|
      ensures host[j] != '/' && host[j] != '?' && host[j] != '#'
      ensures !('A' <= host[j] <= 'Z') && host[j] != 'w'
    {
    }
    HttpDomain(host);
  }

  lemma BoxContainsX()
    ensures Contains("box.com", "x.com") && IndexOf("box.com", ':') == None
  {
    assert "box.com"[2..7] == "x.com";
    ContainsAt("box.com", "x.com", 2);
  }

  lemma BoxNotTwitterHost()
    ensures !IsTwitterHost(HostOf("box.com"))
  {
    BoxContainsX();
  }

  /** Any URL on box.com passes the written test and fails the intended one. */
  lemma BoxDomainMisread(url: string)
    requires Netloc(url) == "box.com" && Domain(url) == "box.com"
    ensures IsTwitterUrl(url) == Success(true)
    ensures IsTweetUrl(url) == Success(false)
  {
    assert !BracketsUnbalanced("box.com");
    BoxContainsX();
    BoxNotTwitterHost();
  }

  /** `http://box.com` passes the written test, because its domain contains `x.com`; the intended test rejects it. */
  lemma BoxCountsAsTwitter(host: string)
    requires host == "box.com"
    ensures IsTwitterUrl("http://" + host) == Success(true)
    ensures IsTweetUrl("http://" + host) == Success(false)
  {
    BoxDomain(host);
    BoxDomainMisread("http://" + host);
  }

  /** The intended test accepts the two sites and their subdomains. */
  lemma TweetUrlAcceptsTwitterHosts()
    ensures IsTwitterHost("x.com") && IsTwitterHost("twitter.com") && IsTwitterHost("mobile.twitter.com")
    ensures !IsTwitterHost("netflix.com") && !IsTwitterHost("box.com")
  {
    assert "mobile.twitter.com"[6..] == ".twitter.com";
  }

  // ---------------------------------------------------------------------
  // Fetching

  /** What the oEmbed endpoint answers for a tweet: its HTML and author name (empty when absent). */
  datatype Embed = Embed(html: string, author: string)

  /** A fetched page: its `content-type` header (empty when absent) and its text. */
  datatype Page = Page(contentType: string, text: string)

  /**
   * The network as the fetchers see it. `None` stands for any failure the
   * fetchers catch: a transport error, an error status, an unreadable body.
   */
  datatype Web = Web(oembed: string -> Option<Embed>, page: string -> Option<Page>)

  /** `s[:n]` */
  function Take(s: string, n: nat): (r: string)
    ensures |r| == if |s| <= n then |s| else n
    ensures r == s[..|r|]
  {
    if |s| <= n then s else s[..n]
  }

  /** `_fetch_tweet_oembed` */
  function FetchTweet(web: Web, url: string): (r: Option<string>)
    ensures r.Some? ==> r.value != []
    ensures r.Some? <==> web.oembed(url).Some? && StripHtml(web.oembed(url).value.html) != []
  {
    match web.oembed(url)
    case None => None
    case Some(e) =>
      var text := StripHtml(e.html);
      if text == [] then None
      else if e.author != [] then Some("Tweet by " + e.author + ": " + text)
      else Some(text)
  }

  /** `fetch_url_content` once the host test has answered `tweet`. */
  function FetchAfterTest(web: Web, url: string, tweet: bool): (r: Option<string>)
    ensures tweet ==> r == FetchTweet(web, url)
    ensures !tweet && r.Some? ==> web.page(url).Some? && |r.value| <= MaxArticleChars
  {
    if tweet then FetchTweet(web, url)
    else match web.page(url)
      case None => None
      case Some(p) =>
        if !Contains(p.contentType, "text/html") && !Contains(p.contentType, "text/plain") then None
        else if Contains(p.contentType, "text/plain") then Some(Take(p.text, MaxArticleChars))
        else
          var text := StripHtml(p.text);
          if text != [] then Some(Take(text, MaxArticleChars)) else None
  }

  /**
   * `fetch_url_content` as written: the substring test decides, so a box.com
   * or netflix.com page goes to oEmbed (see `BoxFetchedAsTweet`).
   */
  function FetchUrlContent(web: Web, url: string): (r: Result<Option<string>, string>)
    ensures r.Failure? <==> BracketsUnbalanced(Netloc(url))
  {
    var tweet :- IsTwitterUrl(url);
    Success(FetchAfterTest(web, url, tweet))
  }

  /** `fetch_url_content` with the intended host test. */
  function FetchUrlContentIntended(web: Web, url: string): (r: Result<Option<string>, string>)
    ensures r.Failure? <==> BracketsUnbalanced(Netloc(url))
  {
    var tweet :- IsTweetUrl(url);
    Success(FetchAfterTest(web, url, tweet))
  }

  /**
   * The two fetches answer alike for every URL except those the written
   * test misreads as Twitter ones.
   */
  lemma FetchDiffersOnlyWhenMisread(web: Web, url: string)
    requires !(IsTwitterUrl(url) == Success(true) && IsTweetUrl(url) == Success(false))
    ensures FetchUrlContent(web, url) == FetchUrlContentIntended(web, url)
  {
    if IsTweetUrl(url) == Success(true) {
      TweetUrlRefinesTwitterUrl(url);
    }
  }

  /** `http://box.com` is sent to oEmbed as written, and fetched as a page as intended. */
  lemma BoxFetchedAsTweet(web: Web, host: string)
    requires host == "box.com"
    ensures FetchUrlContent(web, "http://" + host) == Success(FetchTweet(web, "http://" + host))
    ensures FetchUrlContentIntended(web, "http://" + host) == Success(FetchAfterTest(web, "http://" + host, false))
  {
    BoxCountsAsTwitter(host);
  }

  /** Content fetched from a page that the written test does not take for a tweet is at most 5000 characters long. */
  lemma PageContentCapped(web: Web, url: string)
    requires IsTwitterUrl(url) == Success(false)
    requires FetchUrlContent(web, url).Success? && FetchUrlContent(web, url).value.Some?
    ensures |FetchUrlContent(web, url).value.value| <= MaxArticleChars
  {
  }

  /** A page whose content type is neither HTML nor plain text yields nothing. */
  lemma NonTextPageSkipped(web: Web, url: string)
    requires IsTwitterUrl(url) == Success(false)
    requires web.page(url).Some?
    requires !Contains(web.page(url).value.contentType, "text/html")
    requires !Contains(web.page(url).value.contentType, "text/plain")
    ensures FetchUrlContent(web, url) == Success(None)
  {
  }

  /** Plain text wins over HTML when the content type names both: the text is kept as it is, not stripped. */
  lemma PlainTextKeptVerbatim(web: Web, url: string)
    requires IsTwitterUrl(url) == Success(false)
    requires web.page(url).Some? && Contains(web.page(url).value.contentType, "text/plain")
    ensures FetchUrlContent(web, url) == Success(Some(Take(web.page(url).value.text, MaxArticleChars)))
  {
  }

  /**
   * A URL the written test takes for a tweet (a real one, or one on box.com)
   * is fetched only through oEmbed, whatever the page itself would say.
   */
  lemma TweetIgnoresPage(web: Web, web2: Web, url: string)
    requires IsTwitterUrl(url) == Success(true)
    requires web.oembed == web2.oembed
    ensures FetchUrlContent(web, url) == FetchUrlContent(web2, url)
  {
  }

  // ---------------------------------------------------------------------
  // `prepare_context`

  datatype Article = Article(url: string, content: string)

  datatype Context = Context(instructions: string, articles: seq<Article>)

  /** A fetcher: what `fetch_url_content` answers for each URL. */
  type Fetcher = string -> Result<Option<string>, string>

  /**
   * The articles fetched from `urls` in order, keeping those with content.
   * The first URL whose parsing fails ends the whole preparation.
   */
  function Collect(fetch: Fetcher, urls: seq<string>): (r: Result<seq<Article>, string>)
    ensures r.Success? ==> |r.value| <= |urls|
  {
    if urls == [] then Success([])
    else
      var c :- fetch(urls[0]);
      var rest :- Collect(fetch, urls[1..]);
      Success(if c.Some? && c.value != [] then [Article(urls[0], c.value)] + rest else rest)
  }

  function Take15(urls: seq<string>): (r: seq<string>)
    ensures |r| == if |urls| <= MaxUrls then |urls| else MaxUrls
    ensures r == urls[..|r|]
  {
    if |urls| <= MaxUrls then urls else urls[..MaxUrls]
  }

  /** The URLs that are looked at: the first 15 found. */
  function ContextUrls(description: string): (urls: seq<string>)
    ensures |urls| <= MaxUrls
  {
    Take15(ExtractUrls(description))
  }

  /** `prepare_context`, over any fetcher. */
  function PrepareContextWith(fetch: Fetcher, description: string): (r: Result<Context, string>)
  {
    if description == [] then Success(Context([], []))
    else
      var articles :- Collect(fetch, ContextUrls(description));
      Success(Context(ExtractInstructions(description), articles))
  }

  /** `prepare_context` over the web: at most 15 articles, and an empty description gives empty instructions. */
  function PrepareContextSpec(web: Web, description: string): (r: Result<Context, string>)
    ensures r.Success? ==> |r.value.articles| <= MaxUrls
    ensures description == [] ==> r == Success(Context([], []))
  {
    PrepareContextWith(url => FetchUrlContent(web, url), description)
  }

  /** The fetch loop of `prepare_context`. */
  method CollectArticles(fetch: Fetcher, urls: seq<string>) returns (r: Result<seq<Article>, string>)
    ensures r == Collect(fetch, urls)
  {
    var articles: seq<Article> := [];
    var i := 0;
    assert urls[0..] == urls;
    assert Collect(fetch, urls).Success? ==> [] + Collect(fetch, urls).value == Collect(fetch, urls).value;
    while i < |urls|
      invariant 0 <= i <= |urls|
      invariant Collect(fetch, urls) == (var rest := Collect(fetch, urls[i..]);
                                         if rest.Failure? then rest else Success(articles + rest.value))
    {
      assert urls[i..][1..] == urls[i + 1..] && urls[i..][0] == urls[i];
      var content := fetch(urls[i]);
      if content.Failure? {
        return Failure(content.error);
      }
      if content.value.Some? && content.value.value != [] {
        var rest := Collect(fetch, urls[i + 1..]);
        if rest.Success? {
          assert articles + ([Article(urls[i], content.value.value)] + rest.value)
              == (articles + [Article(urls[i], content.value.value)]) + rest.value;
        }
        articles := articles + [Article(urls[i], content.value.value)];
      }
      i := i + 1;
    }
    assert urls[i..] == [];
    assert articles + [] == articles;
    return Success(articles);
  }

  /** `prepare_context` */
  method PrepareContext(web: Web, description: string) returns (r: Result<Context, string>)
    ensures r == PrepareContextSpec(web, description)
  {
    if description == [] {
      return Success(Context([], []));
    }
    var instructions := ExtractInstructions(description);
    var articles :- CollectArticles(url => FetchUrlContent(web, url), ContextUrls(description));
    return Success(Context(instructions, articles));
  }

  /** An empty description gives empty instructions and no article, without any fetch. */
  lemma EmptyDescription(web: Web)
    ensures PrepareContextSpec(web, "") == Success(Context("", []))
  {
  }

  /** `urls` occur in `all` in the same order. */
  predicate Subsequence(urls: seq<string>, all: seq<string>)
    decreases |all|
  {
    urls == [] || (all != [] && ((urls[0] == all[0] && Subsequence(urls[1..], all[1..])) || Subsequence(urls, all[1..])))
  }

  function UrlsOf(articles: seq<Article>): (r: seq<string>)
    ensures |r| == |articles| && forall k :: 0 <= k < |articles| ==> r[k] == articles[k].url
  {
    if articles == [] then [] else [articles[0].url] + UrlsOf(articles[1..])
  }

  /**
   * Every collected article comes from one of the URLs, in the URLs' order,
   * and holds exactly the non-empty content fetched for it.
   */
  lemma {:induction false} CollectKeepsOrder(fetch: Fetcher, urls: seq<string>)
    requires Collect(fetch, urls).Success?
    ensures var arts := Collect(fetch, urls).value;
            && Subsequence(UrlsOf(arts), urls)
            && forall k :: 0 <= k < |arts| ==>
                 arts[k].content != [] && fetch(arts[k].url) == Success(Some(arts[k].content))
    decreases |urls|
  {
    if urls != [] {
      CollectKeepsOrder(fetch, urls[1..]);
      var arts := Collect(fetch, urls).value;
      var rest := Collect(fetch, urls[1..]).value;
      var c := fetch(urls[0]).value;
      if c.Some? && c.value != [] {
        assert arts == [Article(urls[0], c.value)] + rest;
        assert UrlsOf(arts)[1..] == UrlsOf(rest);
        assert forall k :: 1 <= k < |arts| ==> arts[k] == rest[k - 1];
      } else {
        assert arts == rest;
        if UrlsOf(arts) != [] {
          assert Subsequence(UrlsOf(arts), urls[1..]);
        }
      }
    }
  }

  /** Every URL whose fetch gives content has its article. */
  lemma {:induction false} CollectMissesNothing(fetch: Fetcher, urls: seq<string>, k: nat)
    requires Collect(fetch, urls).Success? && k < |urls|
    requires fetch(urls[k]).Success? && fetch(urls[k]).value.Some? && fetch(urls[k]).value.value != []
    ensures Article(urls[k], fetch(urls[k]).value.value) in Collect(fetch, urls).value
    decreases |urls|
  {
    if k > 0 {
      assert urls[1..][k - 1] == urls[k];
      CollectMissesNothing(fetch, urls[1..], k - 1);
    }
  }

  /** Parsing fails for some URL among those looked at exactly when the preparation fails. */
  lemma {:induction false} CollectFailsIffSomeFetchFails(fetch: Fetcher, urls: seq<string>)
    ensures Collect(fetch, urls).Failure? <==> exists k :: 0 <= k < |urls| && fetch(urls[k]).Failure?
    decreases |urls|
  {
    if urls != [] {
      CollectFailsIffSomeFetchFails(fetch, urls[1..]);
      if exists k :: 0 <= k < |urls| && fetch(urls[k]).Failure? {
        var k :| 0 <= k < |urls| && fetch(urls[k]).Failure?;
        if k > 0 {
          assert urls[1..][k - 1] == urls[k];
        }
      }
      if exists k :: 0 <= k < |urls[1..]| && fetch(urls[1..][k]).Failure? {
        var k :| 0 <= k < |urls[1..]| && fetch(urls[1..][k]).Failure?;
        assert urls[k + 1] == urls[1..][k];
      }
    }
  }

  /**
   * A successful preparation has at most 15 articles, each from the
   * description's URLs in order, each with the non-empty content fetched
   * for its URL; its instructions hold no URL.
   */
  lemma {:induction false} ContextShape(web: Web, description: string)
    requires PrepareContextSpec(web, description).Success?
    ensures var ctx := PrepareContextSpec(web, description).value;
            && |ctx.articles| <= MaxUrls
            && Subsequence(UrlsOf(ctx.articles), ContextUrls(description))
            && (forall k :: 0 <= k < |ctx.articles| ==>
                  ctx.articles[k].content != [] && FetchUrlContent(web, ctx.articles[k].url) == Success(Some(ctx.articles[k].content)))
            && ctx.instructions == ExtractInstructions(description)
            && ExtractUrls(ctx.instructions) == []
  {
    if description != [] {
      CollectKeepsOrder(url => FetchUrlContent(web, url), ContextUrls(description));
      InstructionsHaveNoUrls(description);
    } else {
      assert ExtractInstructions(description) == [];
    }
  }
}
