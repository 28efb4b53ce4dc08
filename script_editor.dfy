/**
 * `api/script_editor.py`: the page that shows a stored script for editing
 * and the endpoint that saves an edited script.
 *
 * The text of the page's HTML, CSS and JavaScript is not modelled: each
 * template is cut at its placeholders and the pieces are parameters. The
 * settings (whether Trello credentials are configured) and the card-name
 * request are parameters too.
 */
module ScriptEditor {
  import opened Results
  import opened PyStr
  import opened KeyValue
  import opened Trello
  import Tasks
  import TrelloClient

  const EditorScriptTtl: nat := 604800
  const UnknownCard: string := "Unknown Card"

  // ---------------------------------------------------------------------
  // Escaping the script for the text area

  /** `s.replace(c, rep)` for a one-character pattern: every occurrence of `c` replaced. */
  function Subst(s: string, c: char, rep: string): (r: string)
    ensures c !in rep ==> c !in r
    ensures forall x :: x in r ==> x in s || x in rep
  {
    if s == [] then [] else (if s[0] == c then rep else [s[0]]) + Subst(s[1..], c, rep)
  }

  /** The four replacements, in the order the page applies them: `&` first, then `<`, `>` and `"`. */
  function EscapeHtml(s: string): string {
    Replace(Replace(Replace(Replace(s, "&", "&amp;"), "<", "&lt;"), ">", "&gt;"), "\"", "&quot;")
  }

  /** The same four replacements, each as a one-character substitution. */
  function EscapeStages(s: string): string {
    Subst(Subst(Subst(Subst(s, '&', "&amp;"), '<', "&lt;"), '>', "&gt;"), '"', "&quot;")
  }

  /** What one character becomes in the text area. */
  function EscapeChar(c: char): string {
    if c == '&' then "&amp;"
    else if c == '<' then "&lt;"
    else if c == '>' then "&gt;"
    else if c == '"' then "&quot;"
    else [c]
  }

  /** The reference escape: each character replaced on its own. */
  function Escape(s: string): (r: string)
    ensures '<' !in r && '>' !in r && '"' !in r
    ensures |r| >= |s|
  {
    if s == [] then [] else EscapeChar(s[0]) + Escape(s[1..])
  }

  /**
   * How the browser reads the text area back: character references are
   * decoded in one left-to-right pass, here the four the page produces.
   */
  function Unescape(t: string): string
    decreases |t|
  {
    if t == [] then []
    else if StartsWith(t, "&amp;") then "&" + Unescape(t[5..])
    else if StartsWith(t, "&lt;") then "<" + Unescape(t[4..])
    else if StartsWith(t, "&gt;") then ">" + Unescape(t[4..])
    else if StartsWith(t, "&quot;") then "\"" + Unescape(t[6..])
    else [t[0]] + Unescape(t[1..])
  }

  lemma {:induction false} ReplaceOneChar(s: string, c: char, rep: string)
    ensures Replace(s, [c], rep) == Subst(s, c, rep)
    decreases |s|
  {
    if s != [] {
      ReplaceOneChar(s[1..], c, rep);
      assert s[..1] == [s[0]];
    }
  }

  lemma {:induction false} SubstAppend(a: string, b: string, c: char, rep: string)
    ensures Subst(a + b, c, rep) == Subst(a, c, rep) + Subst(b, c, rep)
  {
    if a != [] {
      SubstAppend(a[1..], b, c, rep);
      assert (a + b)[0] == a[0];
      assert (a + b)[1..] == a[1..] + b;
    } else {
      assert a + b == b;
    }
  }

  lemma SubstSingle(x: char, c: char, rep: string)
    ensures Subst([x], c, rep) == if x == c then rep else [x]
  {
    assert [x][1..] == [];
  }

  lemma {:induction false} SubstAbsent(a: string, c: char, rep: string)
    requires c !in a
    ensures Subst(a, c, rep) == a
  {
    if a != [] {
      SubstAbsent(a[1..], c, rep);
    }
  }

  lemma StagesAppend(a: string, b: string)
    ensures EscapeStages(a + b) == EscapeStages(a) + EscapeStages(b)
  {
    var a1, b1 := Subst(a, '&', "&amp;"), Subst(b, '&', "&amp;");
    var a2, b2 := Subst(a1, '<', "&lt;"), Subst(b1, '<', "&lt;");
    var a3, b3 := Subst(a2, '>', "&gt;"), Subst(b2, '>', "&gt;");
    SubstAppend(a, b, '&', "&amp;");
    SubstAppend(a1, b1, '<', "&lt;");
    SubstAppend(a2, b2, '>', "&gt;");
    SubstAppend(a3, b3, '"', "&quot;");
  }

  lemma StagesOfAmp()
    ensures EscapeStages("&") == "&amp;"
  {
    var amp := "&amp;";
    assert "&" == ['&'];
    SubstSingle('&', '&', amp);
    assert '<' !in amp && '>' !in amp && '"' !in amp;
    SubstAbsent(amp, '<', "&lt;");
    SubstAbsent(amp, '>', "&gt;");
    SubstAbsent(amp, '"', "&quot;");
  }

  lemma StagesOfLt()
    ensures EscapeStages("<") == "&lt;"
  {
    SubstSingle('<', '&', "&amp;");
    SubstSingle('<', '<', "&lt;");
    SubstAbsent("&lt;", '>', "&gt;");
    SubstAbsent("&lt;", '"', "&quot;");
  }

  lemma StagesOfGt()
    ensures EscapeStages(">") == "&gt;"
  {
    SubstSingle('>', '&', "&amp;");
    SubstSingle('>', '<', "&lt;");
    SubstSingle('>', '>', "&gt;");
    SubstAbsent("&gt;", '"', "&quot;");
  }

  lemma StagesOfQuot()
    ensures EscapeStages("\"") == "&quot;"
  {
    SubstSingle('"', '&', "&amp;");
    SubstSingle('"', '<', "&lt;");
    SubstSingle('"', '>', "&gt;");
    SubstSingle('"', '"', "&quot;");
  }

  lemma StagesOfOther(c: char)
    requires c != '&' && c != '<' && c != '>' && c != '"'
    ensures EscapeStages([c]) == [c]
  {
    SubstSingle(c, '&', "&amp;");
    SubstSingle(c, '<', "&lt;");
    SubstSingle(c, '>', "&gt;");
    SubstSingle(c, '"', "&quot;");
  }

  lemma StagesOfChar(c: char)
    ensures EscapeStages([c]) == EscapeChar(c)
  {
    if c == '&' {
      StagesOfAmp();
    } else if c == '<' {
      StagesOfLt();
    } else if c == '>' {
      StagesOfGt();
    } else if c == '"' {
      StagesOfQuot();
    } else {
      StagesOfOther(c);
    }
  }

  lemma {:induction false} StagesAreEscape(s: string)
    ensures EscapeStages(s) == Escape(s)
  {
    if s != [] {
      assert s == [s[0]] + s[1..];
      StagesAppend([s[0]], s[1..]);
      StagesOfChar(s[0]);
      StagesAreEscape(s[1..]);
    }
  }

  /** The page's chain of replacements escapes each character on its own: `&` first keeps the entities it adds intact. */
  lemma EscapeHtmlIsEscape(s: string)
    ensures EscapeHtml(s) == Escape(s)
  {
    var s1 := Subst(s, '&', "&amp;");
    var s2 := Subst(s1, '<', "&lt;");
    var s3 := Subst(s2, '>', "&gt;");
    ReplaceOneChar(s, '&', "&amp;");
    ReplaceOneChar(s1, '<', "&lt;");
    ReplaceOneChar(s2, '>', "&gt;");
    ReplaceOneChar(s3, '"', "&quot;");
    StagesAreEscape(s);
  }

  /** A string that differs from `p` at position `i` does not start with `p`. */
  lemma DiffersAt(s: string, p: string, i: nat)
    requires i < |s| && i < |p| && s[i] != p[i]
    ensures !StartsWith(s, p)
  {
    if |p| <= |s| {
      assert s[..|p|][i] == s[i];
    }
  }

  lemma UnescapeChar(c: char, t: string)
    ensures Unescape(EscapeChar(c) + t) == [c] + Unescape(t)
  {
    var e := EscapeChar(c) + t;
    if c == '&' {
      assert e[..5] == "&amp;" && e[5..] == t;
    } else if c == '<' {
      assert e[..4] == "&lt;" && e[4..] == t;
      DiffersAt(e, "&amp;", 1);
    } else if c == '>' {
      assert e[..4] == "&gt;" && e[4..] == t;
      DiffersAt(e, "&amp;", 1);
      DiffersAt(e, "&lt;", 1);
    } else if c == '"' {
      assert e[..6] == "&quot;" && e[6..] == t;
      DiffersAt(e, "&amp;", 1);
      DiffersAt(e, "&lt;", 1);
      DiffersAt(e, "&gt;", 1);
    } else {
      assert e[0] == c && e[1..] == t;
      DiffersAt(e, "&amp;", 0);
      DiffersAt(e, "&lt;", 0);
      DiffersAt(e, "&gt;", 0);
      DiffersAt(e, "&quot;", 0);
    }
  }

  /** Reading the text area back gives exactly the stored script. */
  lemma {:induction false} EscapeRoundTrip(s: string)
    ensures Unescape(EscapeHtml(s)) == s
  {
    EscapeHtmlIsEscape(s);
    EscapeRoundTripRef(s);
  }

  lemma {:induction false} EscapeRoundTripRef(s: string)
    ensures Unescape(Escape(s)) == s
  {
    if s != [] {
      UnescapeChar(s[0], Escape(s[1..]));
      EscapeRoundTripRef(s[1..]);
    }
  }

  /** A script cannot close the text area or open a tag: no raw `<`, `>` or `"` survives. */
  lemma EscapedHasNoMarkup(s: string)
    ensures '<' !in EscapeHtml(s) && '>' !in EscapeHtml(s) && '"' !in EscapeHtml(s)
  {
    EscapeHtmlIsEscape(s);
  }

  // ---------------------------------------------------------------------
  // The editor page

  const BodyMark: string := "{{BODY}}"
  const ScriptMark: string := "{{SCRIPT}}"
  const TitleMark: string := "{{CARD_TITLE}}"
  const TextMark: string := "{{SCRIPT_TEXT}}"
  const IdMark: string := "{{CARD_ID}}"

  /**
   * The three templates of the page, each cut at its placeholders: the page
   * around `{{BODY}}` and `{{SCRIPT}}`, the body around `{{CARD_TITLE}}` and
   * `{{SCRIPT_TEXT}}`, the script around `{{CARD_ID}}`. The HTML, CSS and
   * JavaScript text of the pieces is not modelled.
   */
  datatype Templates = Templates(
    pageHead: string, pageMiddle: string, pageTail: string,
    bodyHead: string, bodyMiddle: string, bodyTail: string,
    codeHead: string, codeTail: string)

  function PageTemplate(t: Templates): string {
    t.pageHead + BodyMark + t.pageMiddle + ScriptMark + t.pageTail
  }

  function BodyTemplate(t: Templates): string {
    t.bodyHead + TitleMark + t.bodyMiddle + TextMark + t.bodyTail
  }

  function CodeTemplate(t: Templates): string {
    t.codeHead + IdMark + t.codeTail
  }

  /**
   * No `{{` in `s`, and `s` does not end with `{`: no placeholder can start
   * inside `s`, whatever follows it.
   */
  predicate OpensNoMark(s: string)
    decreases |s|
  {
    s == [] || ((s[0] == '{' ==> |s| > 1 && s[1] != '{') && OpensNoMark(s[1..]))
  }

  /** The pieces of the templates hold no placeholder of their own. */
  predicate PlainPieces(t: Templates) {
    && OpensNoMark(t.pageHead) && OpensNoMark(t.pageMiddle) && OpensNoMark(t.pageTail)
    && OpensNoMark(t.bodyHead) && OpensNoMark(t.bodyMiddle) && OpensNoMark(t.bodyTail)
    && OpensNoMark(t.codeHead) && OpensNoMark(t.codeTail)
  }

  /** A placeholder: `{{`, then a name without braces on its left, then whatever closes it. */
  predicate IsMark(m: string) {
    |m| >= 3 && m[0] == '{' && m[1] == '{' && '{' !in m[2..]
  }

  /** The page the templates describe, with each placeholder holding the given text. */
  function FilledPage(t: Templates, cardTitle: string, scriptText: string, cardId: string): string {
    t.pageHead + (t.bodyHead + cardTitle + t.bodyMiddle + scriptText + t.bodyTail)
    + t.pageMiddle + (t.codeHead + cardId + t.codeTail) + t.pageTail
  }

  /**
   * `_render_editor`: the body gets the title, then the escaped script; the
   * script gets the card id; the page gets the body, then the script. Each
   * step is a `str.replace` over the text the earlier steps produced.
   */
  function RenderEditor(t: Templates, cardId: string, cardTitle: string, script: string): string {
    var body := Replace(Replace(BodyTemplate(t), TitleMark, cardTitle), TextMark, EscapeHtml(script));
    var code := Replace(CodeTemplate(t), IdMark, cardId);
    Replace(Replace(PageTemplate(t), BodyMark, body), ScriptMark, code)
  }

  lemma {:induction false} PlainJoin(a: string, b: string)
    requires OpensNoMark(a) && OpensNoMark(b)
    ensures OpensNoMark(a + b)
    decreases |a|
  {
    if a == [] {
      assert a + b == b;
    } else {
      PlainJoin(a[1..], b);
      assert (a + b)[1..] == a[1..] + b;
      if a[0] == '{' {
        assert (a + b)[1] == a[1];
      }
    }
  }

  lemma {:induction false} BraceFree(b: string)
    requires '{' !in b
    ensures OpensNoMark(b)
    decreases |b|
  {
    if b != [] {
      assert b[0] in b;
      assert forall x :: x in b[1..] ==> x in b;
      BraceFree(b[1..]);
    }
  }

  lemma MarkTail(m: string)
    requires IsMark(m)
    ensures OpensNoMark(m[1..])
  {
    var b := m[2..];
    assert b[0] == m[2] && b[0] in b;
    BraceFree(b);
    assert m[1..] == ['{'] + b;
    assert (['{'] + b)[1..] == b;
  }

  /** No placeholder starts at the front of a plain piece, whatever follows it. */
  lemma NoMarkAtFront(a: string, rest: string, pat: string)
    requires OpensNoMark(a) && a != [] && IsMark(pat)
    ensures !StartsWith(a + rest, pat)
  {
    var s := a + rest;
    if |pat| <= |s| {
      if a[0] == '{' {
        assert s[..|pat|][1] == a[1] != pat[1];
      } else {
        assert s[..|pat|][0] == a[0] != pat[0];
      }
    }
  }

  /** A text in which no placeholder starts passes through a replacement unchanged, whatever follows it. */
  lemma {:induction false} ReplacePlainPrefix(a: string, rest: string, pat: string, rep: string)
    requires OpensNoMark(a) && IsMark(pat)
    ensures Replace(a + rest, pat, rep) == a + Replace(rest, pat, rep)
    decreases |a|
  {
    if a != [] {
      var s := a + rest;
      NoMarkAtFront(a, rest, pat);
      assert s[1..] == a[1..] + rest;
      ReplacePlainPrefix(a[1..], rest, pat, rep);
      ReplaceStep(s, pat, rep);
      var r := Replace(rest, pat, rep);
      assert s[0] == a[0];
      assert [a[0]] + (a[1..] + r) == a + r by {
        assert a == [a[0]] + a[1..];
      }
    } else {
      assert a + rest == rest;
    }
  }

  lemma ReplacePlain(a: string, pat: string, rep: string)
    requires OpensNoMark(a) && IsMark(pat)
    ensures Replace(a, pat, rep) == a
  {
    ReplacePlainPrefix(a, [], pat, rep);
    assert a + [] == a;
  }

  /** A placeholder other than the one searched for passes through, when the two differ right after the braces. */
  lemma ReplaceOtherMark(m: string, rest: string, pat: string, rep: string)
    requires IsMark(m) && IsMark(pat) && m[2] != pat[2]
    ensures Replace(m + rest, pat, rep) == m + Replace(rest, pat, rep)
  {
    var s := m + rest;
    assert !StartsWith(s, pat) by {
      if |pat| <= |s| {
        assert s[..|pat|][2] == m[2];
      }
    }
    ReplaceStep(s, pat, rep);
    MarkTail(m);
    ReplacePlainPrefix(m[1..], rest, pat, rep);
    assert s[1..] == m[1..] + rest;
    assert m == [m[0]] + m[1..];
  }

  /** Where no match starts, the replacement keeps the first character and goes on. */
  lemma ReplaceStep(s: string, pat: string, rep: string)
    requires pat != [] && s != [] && !StartsWith(s, pat)
    ensures Replace(s, pat, rep) == [s[0]] + Replace(s[1..], pat, rep)
  {
    if |s| < |pat| {
      assert Replace(s[1..], pat, rep) == s[1..];
      assert s == [s[0]] + s[1..];
    }
  }

  /** A plain piece, then the placeholder searched for: the piece stays and the placeholder is replaced. */
  lemma ReplaceAtMark(a: string, m: string, rest: string, rep: string)
    requires OpensNoMark(a) && IsMark(m)
    ensures Replace(a + m + rest, m, rep) == a + rep + Replace(rest, m, rep)
  {
    Regroup3(a, m, rest);
    ReplacePlainPrefix(a, m + rest, m, rep);
    assert (m + rest)[..|m|] == m;
    assert (m + rest)[|m|..] == rest;
    assert Replace(m + rest, m, rep) == rep + Replace(rest, m, rep);
  }

  /** A plain piece, then another placeholder: both stay. */
  lemma ReplacePastMark(a: string, m: string, rest: string, pat: string, rep: string)
    requires OpensNoMark(a) && IsMark(m) && IsMark(pat) && m[2] != pat[2]
    ensures Replace(a + m + rest, pat, rep) == a + m + Replace(rest, pat, rep)
  {
    Regroup3(a, m, rest);
    ReplacePlainPrefix(a, m + rest, pat, rep);
    ReplaceOtherMark(m, rest, pat, rep);
  }

  /** A replacement over a piece with two placeholders, searching for the first. */
  lemma ReplaceFirstOfTwo(h: string, m1: string, mid: string, m2: string, tl: string, v: string)
    requires OpensNoMark(h) && OpensNoMark(mid) && OpensNoMark(tl)
    requires IsMark(m1) && IsMark(m2) && m1[2] != m2[2]
    ensures Replace(h + m1 + mid + m2 + tl, m1, v) == h + v + mid + m2 + tl
  {
    var rest := mid + m2 + tl;
    Regroup5(h, m1, mid, m2, tl);
    ReplaceAtMark(h, m1, rest, v);
    ReplacePastMark(mid, m2, tl, m1, v);
    ReplacePlain(tl, m1, v);
    Regroup5(h, v, mid, m2, tl);
  }

  /** A replacement over a piece with one placeholder. */
  lemma ReplaceOnly(h: string, m: string, tl: string, v: string)
    requires OpensNoMark(h) && OpensNoMark(tl) && IsMark(m)
    ensures Replace(h + m + tl, m, v) == h + v + tl
  {
    ReplaceAtMark(h, m, tl, v);
    ReplacePlain(tl, m, v);
  }

  /** A replacement over a piece where the same placeholder occurs twice. */
  lemma ReplaceBoth(h: string, m: string, mid: string, tl: string, v: string)
    requires OpensNoMark(h) && OpensNoMark(mid) && OpensNoMark(tl) && IsMark(m)
    ensures Replace(h + m + mid + m + tl, m, v) == h + v + mid + v + tl
  {
    var rest := mid + m + tl;
    Regroup5(h, m, mid, m, tl);
    ReplaceAtMark(h, m, rest, v);
    ReplaceOnly(mid, m, tl, v);
    Regroup5(h, v, mid, v, tl);
  }

  lemma MarksDiffer()
    ensures IsMark(BodyMark) && IsMark(ScriptMark) && IsMark(TitleMark) && IsMark(TextMark) && IsMark(IdMark)
    ensures BodyMark[2] != ScriptMark[2] && TitleMark[2] != TextMark[2]
  {
  }

  /** The escape adds no brace and keeps every brace's right neighbour a non-brace. */
  lemma {:induction false} EscapeOpensNoMark(s: string)
    requires OpensNoMark(s)
    ensures OpensNoMark(Escape(s))
  {
    if s != [] {
      EscapeOpensNoMark(s[1..]);
      var head := EscapeChar(s[0]);
      var tail := Escape(s[1..]);
      assert Escape(s) == head + tail;
      if s[0] == '{' {
        assert head == ['{'];
        assert tail[0] == EscapeChar(s[1])[0] != '{';
        assert (head + tail)[1..] == tail;
      } else {
        assert '{' !in head;
        BraceFree(head);
        PlainJoin(head, tail);
      }
    }
  }

  /**
   * When neither the card title nor the script can start a placeholder, each
   * placeholder ends up holding exactly its own value: the title and card id
   * verbatim and the escaped script in the text area.
   */
  lemma RenderEditorFillsSlots(t: Templates, cardId: string, cardTitle: string, script: string)
    requires PlainPieces(t) && OpensNoMark(cardTitle) && OpensNoMark(script)
    ensures RenderEditor(t, cardId, cardTitle, script) == FilledPage(t, cardTitle, EscapeHtml(script), cardId)
  {
    var text := EscapeHtml(script);
    EscapeHtmlIsEscape(script);
    EscapeOpensNoMark(script);
    BodyFilled(t, cardTitle, text);
    var body := t.bodyHead + cardTitle + t.bodyMiddle + text + t.bodyTail;
    PlainJoin(t.bodyHead, cardTitle);
    PlainJoin(t.bodyHead + cardTitle, t.bodyMiddle);
    PlainJoin(t.bodyHead + cardTitle + t.bodyMiddle, text);
    PlainJoin(t.bodyHead + cardTitle + t.bodyMiddle + text, t.bodyTail);
    CodeFilled(t, cardId);
    PageFilled(t, body, t.codeHead + cardId + t.codeTail);
  }

  /** The page as written agrees with the page intended whenever neither the title nor the script can start a placeholder. */
  lemma RenderEditorAgrees(t: Templates, cardId: string, cardTitle: string, script: string)
    requires PlainPieces(t) && OpensNoMark(cardTitle) && OpensNoMark(script)
    ensures RenderEditor(t, cardId, cardTitle, script) == RenderEditorIntended(t, cardId, cardTitle, script)
  {
    RenderEditorFillsSlots(t, cardId, cardTitle, script);
  }

  /** The body after its two replacements, when the title cannot start a placeholder. */
  lemma BodyFilled(t: Templates, cardTitle: string, text: string)
    requires PlainPieces(t) && OpensNoMark(cardTitle)
    ensures Replace(Replace(BodyTemplate(t), TitleMark, cardTitle), TextMark, text)
            == t.bodyHead + cardTitle + t.bodyMiddle + text + t.bodyTail
  {
    MarksDiffer();
    ReplaceFirstOfTwo(t.bodyHead, TitleMark, t.bodyMiddle, TextMark, t.bodyTail, cardTitle);
    PlainJoin(t.bodyHead, cardTitle);
    PlainJoin(t.bodyHead + cardTitle, t.bodyMiddle);
    ReplaceOnly(t.bodyHead + cardTitle + t.bodyMiddle, TextMark, t.bodyTail, text);
  }

  lemma CodeFilled(t: Templates, cardId: string)
    requires PlainPieces(t)
    ensures Replace(CodeTemplate(t), IdMark, cardId) == t.codeHead + cardId + t.codeTail
  {
    MarksDiffer();
    ReplaceOnly(t.codeHead, IdMark, t.codeTail, cardId);
  }

  /** The page's `{{BODY}}` replacement puts in the body, whatever it holds, and leaves `{{SCRIPT}}` in place. */
  lemma BodyPlaced(t: Templates, body: string)
    requires PlainPieces(t)
    ensures Replace(PageTemplate(t), BodyMark, body) == t.pageHead + body + t.pageMiddle + ScriptMark + t.pageTail
  {
    MarksDiffer();
    ReplaceFirstOfTwo(t.pageHead, BodyMark, t.pageMiddle, ScriptMark, t.pageTail, body);
  }

  /** The page's two replacements, when the body cannot start a placeholder. */
  lemma PageFilled(t: Templates, body: string, code: string)
    requires PlainPieces(t) && OpensNoMark(body)
    ensures Replace(Replace(PageTemplate(t), BodyMark, body), ScriptMark, code)
            == t.pageHead + body + t.pageMiddle + code + t.pageTail
  {
    MarksDiffer();
    BodyPlaced(t, body);
    PlainJoin(t.pageHead, body);
    PlainJoin(t.pageHead + body, t.pageMiddle);
    ReplaceOnly(t.pageHead + body + t.pageMiddle, ScriptMark, t.pageTail, code);
  }

  /**
   * One left-to-right pass that fills two placeholders: the text put in for
   * one is never searched again.
   */
  function Fill(s: string, m1: string, v1: string, m2: string, v2: string): string
    requires m1 != [] && m2 != []
    decreases |s|
  {
    if s == [] then []
    else if StartsWith(s, m1) then v1 + Fill(s[|m1|..], m1, v1, m2, v2)
    else if StartsWith(s, m2) then v2 + Fill(s[|m2|..], m1, v1, m2, v2)
    else [s[0]] + Fill(s[1..], m1, v1, m2, v2)
  }

  lemma {:induction false} FillPlainPrefix(a: string, rest: string, m1: string, v1: string, m2: string, v2: string)
    requires OpensNoMark(a) && IsMark(m1) && IsMark(m2)
    ensures Fill(a + rest, m1, v1, m2, v2) == a + Fill(rest, m1, v1, m2, v2)
    decreases |a|
  {
    if a != [] {
      var s := a + rest;
      NoMarkAtFront(a, rest, m1);
      NoMarkAtFront(a, rest, m2);
      assert s[1..] == a[1..] + rest;
      FillPlainPrefix(a[1..], rest, m1, v1, m2, v2);
      FillStep(s, m1, v1, m2, v2);
      var r := Fill(rest, m1, v1, m2, v2);
      assert s[0] == a[0];
      assert [a[0]] + (a[1..] + r) == a + r by {
        assert a == [a[0]] + a[1..];
      }
    } else {
      assert a + rest == rest;
    }
  }

  /** Where neither placeholder starts, the fill keeps the first character and goes on. */
  lemma FillStep(s: string, m1: string, v1: string, m2: string, v2: string)
    requires m1 != [] && m2 != [] && s != [] && !StartsWith(s, m1) && !StartsWith(s, m2)
    ensures Fill(s, m1, v1, m2, v2) == [s[0]] + Fill(s[1..], m1, v1, m2, v2)
  {
  }

  lemma FillAtFirst(rest: string, m1: string, v1: string, m2: string, v2: string)
    requires IsMark(m1) && IsMark(m2)
    ensures Fill(m1 + rest, m1, v1, m2, v2) == v1 + Fill(rest, m1, v1, m2, v2)
  {
    assert (m1 + rest)[..|m1|] == m1;
    assert (m1 + rest)[|m1|..] == rest;
  }

  lemma FillAtSecond(rest: string, m1: string, v1: string, m2: string, v2: string)
    requires IsMark(m1) && IsMark(m2) && m1[2] != m2[2]
    ensures Fill(m2 + rest, m1, v1, m2, v2) == v2 + Fill(rest, m1, v1, m2, v2)
  {
    var s := m2 + rest;
    assert !StartsWith(s, m1) by {
      if |m1| <= |s| {
        assert s[..|m1|][2] == m2[2];
      }
    }
    assert s[..|m2|] == m2;
    assert s[|m2|..] == rest;
  }

  lemma FillPlain(a: string, m1: string, v1: string, m2: string, v2: string)
    requires OpensNoMark(a) && IsMark(m1) && IsMark(m2)
    ensures Fill(a, m1, v1, m2, v2) == a
  {
    FillPlainPrefix(a, [], m1, v1, m2, v2);
    assert a + [] == a;
  }

  /** The fill over a piece with its two placeholders. */
  lemma FillBoth(h: string, m1: string, mid: string, m2: string, tl: string, v1: string, v2: string)
    requires OpensNoMark(h) && OpensNoMark(mid) && OpensNoMark(tl)
    requires IsMark(m1) && IsMark(m2) && m1[2] != m2[2]
    ensures Fill(h + m1 + mid + m2 + tl, m1, v1, m2, v2) == h + v1 + mid + v2 + tl
  {
    var rest := mid + m2 + tl;
    Regroup5(h, m1, mid, m2, tl);
    Regroup3(h, m1, rest);
    FillPlainPrefix(h, m1 + rest, m1, v1, m2, v2);
    FillAtFirst(rest, m1, v1, m2, v2);
    Regroup3(mid, m2, tl);
    FillPlainPrefix(mid, m2 + tl, m1, v1, m2, v2);
    FillAtSecond(tl, m1, v1, m2, v2);
    FillPlain(tl, m1, v1, m2, v2);
    Nest5(h, v1, mid, v2, tl);
  }

  /**
   * The page as evidently intended: the body and the page are each filled
   * in one pass, so no title or script can reach another placeholder. Every
   * placeholder holds its own value, for every title and script.
   */
  function RenderEditorIntended(t: Templates, cardId: string, cardTitle: string, script: string): (page: string)
    ensures PlainPieces(t) ==> page == FilledPage(t, cardTitle, EscapeHtml(script), cardId)
  {
    var text := EscapeHtml(script);
    var body := Fill(BodyTemplate(t), TitleMark, cardTitle, TextMark, text);
    var code := Replace(CodeTemplate(t), IdMark, cardId);
    var page := Fill(PageTemplate(t), BodyMark, body, ScriptMark, code);
    if PlainPieces(t) then
      IntendedFilled(t, cardTitle, text, body, code);
      CodeFilled(t, cardId);
      page
    else
      page
  }

  lemma IntendedFilled(t: Templates, cardTitle: string, text: string, body: string, code: string)
    requires PlainPieces(t) && body == Fill(BodyTemplate(t), TitleMark, cardTitle, TextMark, text)
    ensures body == t.bodyHead + cardTitle + t.bodyMiddle + text + t.bodyTail
    ensures Fill(PageTemplate(t), BodyMark, body, ScriptMark, code) == t.pageHead + body + t.pageMiddle + code + t.pageTail
  {
    MarksDiffer();
    FillBoth(t.bodyHead, TitleMark, t.bodyMiddle, TextMark, t.bodyTail, cardTitle, text);
    FillBoth(t.pageHead, BodyMark, t.pageMiddle, ScriptMark, t.pageTail, body, code);
  }

  /** A text with none of the four characters the page escapes is its own escape. */
  lemma {:induction false} EscapeKeeps(s: string)
    requires '&' !in s && '<' !in s && '>' !in s && '"' !in s
    ensures Escape(s) == s
  {
    if s != [] {
      EscapeKeeps(s[1..]);
      assert s == [s[0]] + s[1..];
    }
  }

  /** Escaping leaves `{{SCRIPT}}` as it is. */
  lemma ScriptMarkUnescaped()
    ensures EscapeHtml(ScriptMark) == ScriptMark
  {
    EscapeKeeps(ScriptMark);
    EscapeHtmlIsEscape(ScriptMark);
  }

  /** As written, a script that is exactly `{{SCRIPT}}` leaves a `{{SCRIPT}}` in the body. */
  lemma ScriptMarkBody(t: Templates, cardTitle: string)
    requires PlainPieces(t) && OpensNoMark(cardTitle)
    ensures Replace(Replace(BodyTemplate(t), TitleMark, cardTitle), TextMark, EscapeHtml(ScriptMark))
            == t.bodyHead + cardTitle + t.bodyMiddle + ScriptMark + t.bodyTail
  {
    ScriptMarkUnescaped();
    BodyFilled(t, cardTitle, ScriptMark);
  }

  lemma Regroup3(a: string, b: string, c: string)
    ensures a + b + c == a + (b + c)
  {
  }

  lemma Regroup5(a: string, b: string, c: string, d: string, e: string)
    ensures a + b + c + d + e == a + b + (c + d + e)
  {
  }

  lemma Nest5(a: string, b: string, c: string, d: string, e: string)
    ensures a + (b + (c + (d + e))) == a + b + c + d + e
  {
  }

  lemma Regroup(a: string, b: string, c: string, d: string, e: string, f: string, g: string)
    ensures a + (b + c + d) + e + f + g == (a + b) + c + (d + e) + f + g
  {
  }

  /** A `{{SCRIPT}}` inside the body is replaced by the script code like the page's own. */
  lemma PageWithMarkInBody(t: Templates, front: string, code: string)
    requires PlainPieces(t) && OpensNoMark(front)
    ensures Replace(Replace(PageTemplate(t), BodyMark, front + ScriptMark + t.bodyTail), ScriptMark, code)
            == t.pageHead + (front + code + t.bodyTail) + t.pageMiddle + code + t.pageTail
  {
    MarksDiffer();
    BodyPlaced(t, front + ScriptMark + t.bodyTail);
    Regroup(t.pageHead, front, ScriptMark, t.bodyTail, t.pageMiddle, ScriptMark, t.pageTail);
    PlainJoin(t.pageHead, front);
    PlainJoin(t.bodyTail, t.pageMiddle);
    ReplaceBoth(t.pageHead + front, ScriptMark, t.bodyTail + t.pageMiddle, t.pageTail, code);
    Regroup(t.pageHead, front, code, t.bodyTail, t.pageMiddle, code, t.pageTail);
  }

  /** As written, a script that is exactly `{{SCRIPT}}` ends up as the page's script code. */
  lemma ScriptMarkAsWritten(t: Templates, cardId: string, cardTitle: string)
    requires PlainPieces(t) && OpensNoMark(cardTitle)
    ensures RenderEditor(t, cardId, cardTitle, ScriptMark) == FilledPage(t, cardTitle, t.codeHead + cardId + t.codeTail, cardId)
  {
    var front := t.bodyHead + cardTitle + t.bodyMiddle;
    var code := t.codeHead + cardId + t.codeTail;
    ScriptMarkBody(t, cardTitle);
    CodeFilled(t, cardId);
    PlainJoin(t.bodyHead, cardTitle);
    PlainJoin(t.bodyHead + cardTitle, t.bodyMiddle);
    PageWithMarkInBody(t, front, code);
  }

  /**
   * A script that is exactly `{{SCRIPT}}` shows the page's own script code
   * in the text area as written: the body is searched for `{{SCRIPT}}` after
   * the script was put into it. The intended page shows the script there.
   */
  lemma ScriptMarkShowsCode(t: Templates, cardId: string, cardTitle: string)
    requires PlainPieces(t) && OpensNoMark(cardTitle) && |t.codeHead| > |ScriptMark|
    ensures var code := t.codeHead + cardId + t.codeTail;
            && RenderEditor(t, cardId, cardTitle, ScriptMark) == FilledPage(t, cardTitle, code, cardId)
            && RenderEditorIntended(t, cardId, cardTitle, ScriptMark) == FilledPage(t, cardTitle, ScriptMark, cardId)
            && RenderEditor(t, cardId, cardTitle, ScriptMark) != RenderEditorIntended(t, cardId, cardTitle, ScriptMark)
  {
    ScriptMarkAsWritten(t, cardId, cardTitle);
    ScriptMarkUnescaped();
    var code := t.codeHead + cardId + t.codeTail;
    assert |FilledPage(t, cardTitle, code, cardId)| > |FilledPage(t, cardTitle, ScriptMark, cardId)|;
  }

  /**
   * `_get_card_name`: "Unknown Card" without credentials or when the request
   * fails; otherwise the card's name, or "Unknown Card" when it has none.
   */
  function CardName(credentials: bool, fetched: Result<Option<string>, string>): (name: string)
    ensures !credentials || fetched.Failure? ==> name == UnknownCard
    ensures credentials && fetched.Success? && fetched.value.Some? ==> name == fetched.value.value
  {
    if !credentials || fetched.Failure? then UnknownCard
    else if fetched.value.None? then UnknownCard
    else fetched.value.value
  }

  datatype View =
    | NotFoundPage
    | GeneratingPage
    | EditorPage(page: string)
    | ViewFailed(error: string)

  /** What reading a stored value as a string needs: bytes decode as UTF-8, a stats object reads as its JSON. */
  datatype EditorEnv = EditorEnv(
    templates: Templates,
    credentials: bool,
    decode: seq<bv8> -> Result<string, string>,
    dumps: Stats -> string)

  /** `edit_script_page` */
  function EditPageSpec(env: EditorEnv, kv: Entries, cardId: string, fetched: Result<Option<string>, string>): (v: View)
    ensures v.NotFoundPage? <==> ScriptKey(cardId) !in kv
    ensures v.EditorPage? ==> ScriptKey(cardId) in kv
  {
    var stored := Lookup(kv, ScriptKey(cardId));
    if stored.None? then NotFoundPage
    else
      var script := Tasks.StoredText(stored.value, env.decode, env.dumps);
      if script.Failure? then ViewFailed(script.error)
      else if script.value == Sentinel then GeneratingPage
      else EditorPage(RenderEditor(env.templates, cardId, CardName(env.credentials, fetched), script.value))
  }

  /**
   * The page is "not found" exactly when the key is absent, "being
   * generated" when it holds the lock value, and otherwise the editor on the
   * stored text, an empty script included.
   */
  lemma EditPageDecision(env: EditorEnv, kv: Entries, cardId: string, fetched: Result<Option<string>, string>)
    ensures EditPageSpec(env, kv, cardId, fetched).NotFoundPage? <==> ScriptKey(cardId) !in kv
    ensures Lookup(kv, ScriptKey(cardId)) == Some(Text(Sentinel)) ==> EditPageSpec(env, kv, cardId, fetched) == GeneratingPage
    ensures forall s :: Lookup(kv, ScriptKey(cardId)) == Some(Text(s)) && s != Sentinel ==>
              EditPageSpec(env, kv, cardId, fetched) == EditorPage(RenderEditor(env.templates, cardId, CardName(env.credentials, fetched), s))
  {
  }

  method EditScriptPage(env: EditorEnv, store: Store, cardId: string, fetched: Result<Option<string>, string>) returns (view: View)
    ensures view == EditPageSpec(env, store.entries, cardId, fetched)
  {
    var stored := store.Get(ScriptKey(cardId));
    if stored.None? {
      return NotFoundPage;
    }
    var script := Tasks.StoredText(stored.value, env.decode, env.dumps);
    if script.Failure? {
      return ViewFailed(script.error);
    }
    if script.value == Sentinel {
      return GeneratingPage;
    }
    var title := CardName(env.credentials, fetched);
    view := EditorPage(RenderEditor(env.templates, cardId, title, script.value));
  }

  // ---------------------------------------------------------------------
  // Saving

  datatype SaveReply =
    | BadRequest(detail: string)
    | NotFound(detail: string)
    | Saved(wordCount: nat)

  function EditedComment(words: nat): string {
    "**Script Manually Edited** (" + NatToString(words) + " words)"
  }

  /**
   * With credentials, the saved script is attached again and the edit
   * announced. The posts do not check the HTTP status, so only a request
   * that fails outright stops them; either way the save goes on.
   */
  function UpdateCard(credentials: bool, w: World, cardId: string, script: string): (r: World)
    ensures r.card.labels == w.card.labels && r.card.listId == w.card.listId && r.catalogue == w.catalogue
    ensures !credentials ==> r == w
  {
    if !credentials then w
    else
      var a := AttachTextFile(w, cardId, "script.txt", script);
      if a.result == Failure(RequestFailed) then a.world
      else AddComment(a.world, cardId, EditedComment(WordCount(script))).world
  }

  /** `save_script`: the reply, the store after and the board after. */
  function SaveSpec(credentials: bool, kv: Entries, w: World, cardId: string, script: Option<string>): (r: (SaveReply, Entries, World))
    ensures !r.0.Saved? ==> r.1 == kv && r.2 == w
    ensures r.0.Saved? ==> ScriptKey(cardId) in kv && Tasks.SameExcept(kv, r.1, {ScriptKey(cardId)}) && r.0.wordCount > 0
  {
    var text := if script.Some? then script.value else [];
    if Strip(text) == [] then (BadRequest("Script cannot be empty"), kv, w)
    else if ScriptKey(cardId) !in kv then (NotFound("Script not found in Redis"), kv, w)
    else (Saved(WordCount(text)), kv[ScriptKey(cardId) := Entry(Text(text), EditorScriptTtl)], UpdateCard(credentials, w, cardId, text))
  }

  /** An empty or whitespace-only script, or none, is refused and nothing changes. */
  lemma BlankSaveRefused(credentials: bool, kv: Entries, w: World, cardId: string, script: Option<string>)
    requires script.None? || IsBlank(script.value)
    ensures SaveSpec(credentials, kv, w, cardId, script) == (BadRequest("Script cannot be empty"), kv, w)
  {
    if script.Some? {
      StripEmptyIffBlank(script.value);
    }
  }

  /** A non-blank script for a card with no stored script is refused and nothing changes. */
  lemma MissingScriptRefused(credentials: bool, kv: Entries, w: World, cardId: string, script: string)
    requires !IsBlank(script) && ScriptKey(cardId) !in kv
    ensures SaveSpec(credentials, kv, w, cardId, Some(script)) == (NotFound("Script not found in Redis"), kv, w)
  {
    StripEmptyIffBlank(script);
  }

  /**
   * A non-blank script over an existing key, the lock value included, is
   * stored for seven days and saved with its (positive) word count, whatever
   * happens on the board; no other key changes.
   */
  lemma SaveOverwrites(credentials: bool, kv: Entries, w: World, cardId: string, script: string)
    requires !IsBlank(script) && ScriptKey(cardId) in kv
    ensures var (reply, kv1, _) := SaveSpec(credentials, kv, w, cardId, Some(script));
            && reply == Saved(WordCount(script)) && reply.wordCount > 0
            && kv1[ScriptKey(cardId)] == Entry(Text(script), EditorScriptTtl)
            && forall k :: k != ScriptKey(cardId) ==> Lookup(kv1, k) == Lookup(kv, k)
  {
    StripEmptyIffBlank(script);
    NonBlankHasWords(script);
  }

  /**
   * A stored text reads back as the lock or as the editor on that text; when
   * neither the text nor the card name can start a placeholder, the page has
   * the name, the escaped text and the card id in their places.
   */
  lemma ViewOfText(env: EditorEnv, kv: Entries, cardId: string, script: string, fetched: Result<Option<string>, string>)
    requires Lookup(kv, ScriptKey(cardId)) == Some(Text(script))
    ensures script == Sentinel <==> EditPageSpec(env, kv, cardId, fetched) == GeneratingPage
    ensures script != Sentinel ==> EditPageSpec(env, kv, cardId, fetched) == EditorPage(RenderEditor(env.templates, cardId, CardName(env.credentials, fetched), script))
    ensures script != Sentinel && PlainPieces(env.templates) && OpensNoMark(script) && OpensNoMark(CardName(env.credentials, fetched)) ==>
              EditPageSpec(env, kv, cardId, fetched) == EditorPage(FilledPage(env.templates, CardName(env.credentials, fetched), EscapeHtml(script), cardId))
  {
    if script != Sentinel && PlainPieces(env.templates) && OpensNoMark(script) && OpensNoMark(CardName(env.credentials, fetched)) {
      RenderEditorFillsSlots(env.templates, cardId, CardName(env.credentials, fetched), script);
    }
  }

  /** After a save, the page shows the editor on the saved script, unless the script is the lock value itself. */
  lemma SaveThenView(env: EditorEnv, kv: Entries, w: World, cardId: string, script: string, fetched: Result<Option<string>, string>)
    requires !IsBlank(script) && ScriptKey(cardId) in kv
    ensures var kv1 := SaveSpec(env.credentials, kv, w, cardId, Some(script)).1;
            var view := EditPageSpec(env, kv1, cardId, fetched);
            && (script == Sentinel <==> view == GeneratingPage)
            && (script != Sentinel ==> view == EditorPage(RenderEditor(env.templates, cardId, CardName(env.credentials, fetched), script)))
            && (script != Sentinel && PlainPieces(env.templates) && OpensNoMark(script) && OpensNoMark(CardName(env.credentials, fetched)) ==>
                  view == EditorPage(FilledPage(env.templates, CardName(env.credentials, fetched), EscapeHtml(script), cardId))
                  && Unescape(EscapeHtml(script)) == script)
  {
    SavedStore(env.credentials, kv, w, cardId, script);
    EscapeRoundTrip(script);
    var kv1 := kv[ScriptKey(cardId) := Entry(Text(script), EditorScriptTtl)];
    ViewOfText(env, kv1, cardId, script, fetched);
  }

  lemma SavedStore(credentials: bool, kv: Entries, w: World, cardId: string, script: string)
    requires !IsBlank(script) && ScriptKey(cardId) in kv
    ensures SaveSpec(credentials, kv, w, cardId, Some(script)).1 == kv[ScriptKey(cardId) := Entry(Text(script), EditorScriptTtl)]
  {
    StripEmptyIffBlank(script);
  }

  /** Without credentials the board is not touched; with them the board sees the attachment, then the comment, at most. */
  lemma SaveBoardEffects(credentials: bool, w: World, cardId: string, script: string)
    ensures !credentials ==> UpdateCard(credentials, w, cardId, script) == w
    ensures UpdateCard(credentials, w, cardId, script).card.labels == w.card.labels
    ensures var after := UpdateCard(credentials, w, cardId, script).log;
            after == w.log || after == w.log + [Attached("script.txt")]
            || after == w.log + [Commented(EditedComment(WordCount(script)))]
            || after == w.log + [Attached("script.txt"), Commented(EditedComment(WordCount(script)))]
  {
  }

  method SaveScript(credentials: bool, store: Store, board: TrelloClient.Board, cardId: string, script: Option<string>)
    returns (reply: SaveReply)
    modifies store, board
    ensures (reply, store.entries, board.State()) == SaveSpec(credentials, old(store.entries), old(board.State()), cardId, script)
  {
    var text := if script.Some? then script.value else [];
    if Strip(text) == [] {
      return BadRequest("Script cannot be empty");
    }
    var existing := store.Get(ScriptKey(cardId));
    if existing.None? {
      return NotFound("Script not found in Redis");
    }
    store.Set(ScriptKey(cardId), Text(text), EditorScriptTtl);
    var words := WordCount(text);
    if credentials {
      var r := board.AttachTextFile(cardId, "script.txt", text);
      if r != Failure(RequestFailed) {
        r := board.AddComment(cardId, EditedComment(words));
      }
    }
    return Saved(words);
  }
}
