/**
 * The two calls to the language model: the retry loop around the
 * streaming request, the assembly of the answer's blocks into a script, a
 * research log and a list of search URLs, the 50-word floor on a new
 * script and the refusal scan on a revision.
 *
 * The model endpoint is a function from the attempt number (0, 1, ...) to
 * what that attempt returns: a message or the text of an API error. The
 * waits the loop sleeps are returned so that the backoff can be stated.
 */
module Claude {
  import opened Results
  import opened PyStr
  import opened KeyValue
  import Research

  const ApiMaxRetries: nat := 3
  const ApiRetryBaseDelay: nat := 30
  /** The fewest words a new script may have. */
  const MinWords: nat := 50

  /** Prices per million tokens, for writing and for revising. */
  const WriteInputPrice: real := 15.0
  const WriteOutputPrice: real := 75.0
  const ReviseInputPrice: real := 3.0
  const ReviseOutputPrice: real := 15.0

  // ---------------------------------------------------------------------
  // The retry loop

  /** An API error is retried exactly when its lower-cased text names an overload or a rate limit. */
  predicate IsRetryable(err: string) {
    var e := Lower(err);
    Contains(e, "overloaded") || Contains(e, "529") || Contains(e, "rate")
  }

  /**
   * The test looks for substrings of the lower-cased error, so "rate" also
   * matches inside other words: any error whose text holds one of the three
   * words, in any case and anywhere, is retried.
   */
  lemma RetryableWherever(pre: string, word: string, post: string)
    requires Lower(word) == "overloaded" || Lower(word) == "529" || Lower(word) == "rate"
    ensures IsRetryable(pre + word + post)
  {
    var e := Lower(pre + word + post);
    assert e[|pre|..|pre| + |word|] == Lower(word);
    ContainsAt(e, Lower(word), |pre|);
  }

  /** Seconds slept after the failed attempt `attempt` (0-based). */
  function RetryWait(attempt: nat): nat
  {
    ApiRetryBaseDelay * (attempt + 1)
  }

  datatype SearchItem = SearchItem(title: string, url: string)

  /**
   * A content block of the answer. A tool use carries its tool name and its
   * query (empty when absent); a search result carries its items when its
   * content is a list.
   */
  datatype Block =
    | Thinking(thinking: string)
    | ToolUse(name: string, query: string)
    | SearchResults(items: Option<seq<SearchItem>>)
    | TextBlock(text: string)
    | OtherBlock

  datatype Message = Message(content: seq<Block>, inputTokens: nat, outputTokens: nat)

  /** What attempt `k` of the request returns. */
  type Api = nat -> Result<Message, string>

  /** The outcome of the loop and the waits slept before the last attempt. */
  datatype Attempts = Attempts(result: Result<Message, string>, waits: seq<nat>)

  /**
   * The loop from attempt `attempt` on: the last attempt is the first one
   * that succeeds, fails with an error not worth retrying, or is attempt 3;
   * the attempts before it all failed with a retryable error, each followed
   * by its wait.
   */
  function RetryFrom(api: Api, attempt: nat): (r: Attempts)
    requires attempt <= ApiMaxRetries
    ensures attempt + |r.waits| <= ApiMaxRetries
    ensures r.result == api(attempt + |r.waits|)
    ensures r.result.Failure? ==> !IsRetryable(r.result.error) || attempt + |r.waits| == ApiMaxRetries
    ensures forall k :: 0 <= k < |r.waits| ==>
              r.waits[k] == RetryWait(attempt + k) && api(attempt + k).Failure? && IsRetryable(api(attempt + k).error)
    decreases ApiMaxRetries - attempt
  {
    match api(attempt)
    case Success(m) => Attempts(Success(m), [])
    case Failure(e) =>
      if IsRetryable(e) && attempt < ApiMaxRetries then
        var rest := RetryFrom(api, attempt + 1);
        Attempts(rest.result, [RetryWait(attempt)] + rest.waits)
      else Attempts(Failure(e), [])
  }

  function Retry(api: Api): Attempts {
    RetryFrom(api, 0)
  }

  /**
   * The retry loop from the first attempt: the answer is that of the last
   * attempt made, each wait follows an attempt that failed with a retryable
   * error, and the waits are 30, 60 and 90 seconds in turn.
   */
  lemma RetryFromFirst(api: Api)
    ensures var r := Retry(api);
            && |r.waits| <= ApiMaxRetries
            && r.result == api(|r.waits|)
            && forall k :: 0 <= k < |r.waits| ==> r.waits[k] == ApiRetryBaseDelay * (k + 1) && api(k).Failure? && IsRetryable(api(k).error)
  {
  }

  /** The loop makes at most four attempts and sleeps 30, 60 and 90 seconds at most, 180 in all. */
  lemma RetryBounds(api: Api)
    ensures |Retry(api).waits| + 1 <= ApiMaxRetries + 1
    ensures Sum(Retry(api).waits) <= 180
  {
    var w := Retry(api).waits;
    if |w| == 3 {
      assert w[1..][1..] == [90] && Sum([90]) == 90;
    } else if |w| == 2 {
      assert w[1..] == [60] && Sum([60]) == 60;
    } else if |w| == 1 {
      assert Sum(w[1..]) == 0;
    }
  }

  function Sum(xs: seq<nat>): nat {
    if xs == [] then 0 else xs[0] + Sum(xs[1..])
  }

  /** An error not worth retrying on the first attempt is raised at once, without a wait. */
  lemma NonRetryableRaisedAtOnce(api: Api)
    requires api(0).Failure? && !IsRetryable(api(0).error)
    ensures Retry(api) == Attempts(api(0), [])
  {
  }

  /** When the first three attempts are overloaded, the fourth one's answer is final, whatever it is. */
  lemma FourthAttemptIsFinal(api: Api)
    requires forall k :: 0 <= k < 3 ==> api(k).Failure? && IsRetryable(api(k).error)
    ensures Retry(api) == Attempts(api(3), [30, 60, 90])
  {
    assert api(0).Failure? && api(1).Failure? && api(2).Failure?;
  }

  /** The request, retried as the loop says. */
  method CallWithRetry(api: Api) returns (r: Result<Message, string>, waits: seq<nat>)
    ensures Attempts(r, waits) == Retry(api)
  {
    var attempt := 0;
    waits := [];
    while true
      invariant attempt <= ApiMaxRetries
      invariant Retry(api) == (var rest := RetryFrom(api, attempt); Attempts(rest.result, waits + rest.waits))
      decreases ApiMaxRetries - attempt
    {
      var outcome := api(attempt);
      if outcome.Success? {
        assert waits + [] == waits;
        return outcome, waits;
      }
      if IsRetryable(outcome.error) && attempt < ApiMaxRetries {
        var rest := RetryFrom(api, attempt + 1);
        assert waits + ([RetryWait(attempt)] + rest.waits) == (waits + [RetryWait(attempt)]) + rest.waits;
        waits := waits + [RetryWait(attempt)];
        attempt := attempt + 1;
      } else {
        assert waits + [] == waits;
        return outcome, waits;
      }
    }
  }

  // ---------------------------------------------------------------------
  // Assembling the answer

  const NoResults: string := "  [results received]"

  /** The line for one search item. */
  function ItemLine(item: SearchItem): string {
    "  - " + item.title + " | " + item.url
  }

  /** One line per item that has a title or a URL, in order. */
  function SearchLines(items: seq<SearchItem>): (lines: seq<string>)
    ensures |lines| <= |items|
    ensures forall k :: 0 <= k < |lines| ==> StartsWith(lines[k], "  - ")
    ensures lines == [] <==> forall k :: 0 <= k < |items| ==> items[k].title == [] && items[k].url == []
  {
    if items == [] then []
    else
      var init := SearchLines(items[..|items| - 1]);
      var last := items[|items| - 1];
      assert forall k :: 0 <= k < |items| - 1 ==> items[..|items| - 1][k] == items[k];
      if last.title != [] || last.url != [] then init + [ItemLine(last)] else init
  }

  /** `_format_search_results` */
  function SearchResultsText(items: Option<seq<SearchItem>>): string {
    var lines := if items.Some? then SearchLines(items.value) else [];
    if lines == [] then NoResults else Join("\n", lines)
  }

  lemma {:induction false} JoinStartsWithFirst(sep: string, parts: seq<string>)
    requires parts != []
    ensures StartsWith(Join(sep, parts), parts[0])
  {
    if |parts| > 1 {
      assert Join(sep, parts) == parts[0] + (sep + Join(sep, parts[1..]));
    }
  }

  /** The placeholder is produced exactly when no item has a title or a URL. */
  lemma PlaceholderIffNothingListed(items: Option<seq<SearchItem>>)
    ensures SearchResultsText(items) == NoResults <==>
              (items.None? || forall k :: 0 <= k < |items.value| ==> items.value[k].title == [] && items.value[k].url == [])
  {
    if items.Some? && SearchLines(items.value) != [] {
      var lines := SearchLines(items.value);
      JoinStartsWithFirst("\n", lines);
      assert lines[0][..4] == "  - ";
      assert lines[0][2] == lines[0][..4][2] == "  - "[2] == '-';
      assert Join("\n", lines)[..|lines[0]|] == lines[0];
      assert Join("\n", lines)[2] == '-';
      assert NoResults[2] == '[';
    }
  }

  /** `_format_search_results`, line by line. */
  method FormatSearchResults(items: Option<seq<SearchItem>>) returns (text: string)
    ensures text == SearchResultsText(items)
  {
    var lines: seq<string> := [];
    if items.Some? {
      var xs := items.value;
      for i := 0 to |xs|
        invariant lines == SearchLines(xs[..i])
      {
        assert xs[..i + 1][..i] == xs[..i];
        if xs[i].title != [] || xs[i].url != [] {
          lines := lines + [ItemLine(xs[i])];
        }
      }
      assert xs[..|xs|] == xs;
    }
    if lines == [] {
      text := NoResults;
    } else {
      text := Join("\n", lines);
    }
  }

  datatype SearchUrl = SearchUrl(url: string, title: string)

  /** The items of one result block that have a URL. */
  function ItemUrls(items: seq<SearchItem>): (r: seq<SearchUrl>)
    ensures forall k :: 0 <= k < |r| ==> r[k].url != []
    ensures forall k :: 0 <= k < |items| && items[k].url != [] ==> SearchUrl(items[k].url, items[k].title) in r
  {
    if items == [] then []
    else
      var init := ItemUrls(items[..|items| - 1]);
      var last := items[|items| - 1];
      assert forall k :: 0 <= k < |items| - 1 ==> items[..|items| - 1][k] == items[k];
      if last.url != [] then init + [SearchUrl(last.url, last.title)] else init
  }

  /** The script: the text blocks, concatenated in order. */
  function ScriptText(blocks: seq<Block>): string {
    if blocks == [] then []
    else ScriptText(blocks[..|blocks| - 1]) + BlockText(blocks[|blocks| - 1])
  }

  function BlockText(b: Block): string {
    if b.TextBlock? then b.text else []
  }

  /** The research entry a block contributes, if any. */
  function ResearchPart(b: Block): Option<string> {
    match b
    case Thinking(t) => Some("[Thinking]\n" + t)
    case ToolUse(name, query) => if name == "web_search" then Some("[Web Search] \"" + query + "\"") else None
    case SearchResults(items) => Some("[Search Results]\n" + SearchResultsText(items))
    case _ => None
  }

  /** The research entries: one for each block that contributes one, and nothing else. */
  function ResearchParts(blocks: seq<Block>): (parts: seq<string>)
    ensures |parts| <= |blocks|
    ensures forall j :: 0 <= j < |blocks| && ResearchPart(blocks[j]).Some? ==> ResearchPart(blocks[j]).value in parts
  {
    if blocks == [] then []
    else
      var init := ResearchParts(blocks[..|blocks| - 1]);
      assert forall j :: 0 <= j < |blocks| - 1 ==> blocks[..|blocks| - 1][j] == blocks[j];
      match ResearchPart(blocks[|blocks| - 1])
      case Some(p) => init + [p]
      case None => init
  }

  /** Every research entry is the entry of some block: nothing else gets in. */
  lemma {:induction false} ResearchPartsFromBlocks(blocks: seq<Block>)
    ensures forall p :: p in ResearchParts(blocks) ==>
              exists j :: 0 <= j < |blocks| && ResearchPart(blocks[j]) == Some(p)
  {
    if blocks != [] {
      var front := blocks[..|blocks| - 1];
      ResearchPartsFromBlocks(front);
      forall p | p in ResearchParts(blocks)
        ensures exists j :: 0 <= j < |blocks| && ResearchPart(blocks[j]) == Some(p)
      {
        if p in ResearchParts(front) {
          var j :| 0 <= j < |front| && ResearchPart(front[j]) == Some(p);
          assert blocks[j] == front[j];
        } else {
          assert ResearchPart(blocks[|blocks| - 1]) == Some(p);
        }
      }
    }
  }

  function BlockUrls(b: Block): seq<SearchUrl> {
    if b.SearchResults? && b.items.Some? then ItemUrls(b.items.value) else []
  }

  /** The search URLs: the items with a URL of every result block, in order. */
  function SearchUrls(blocks: seq<Block>): (r: seq<SearchUrl>)
    ensures forall k :: 0 <= k < |r| ==> r[k].url != []
  {
    if blocks == [] then []
    else SearchUrls(blocks[..|blocks| - 1]) + BlockUrls(blocks[|blocks| - 1])
  }

  /** The script of two runs of blocks is the script of the first followed by that of the second. */
  lemma {:induction false} ScriptTextAppend(a: seq<Block>, b: seq<Block>)
    ensures ScriptText(a + b) == ScriptText(a) + ScriptText(b)
    decreases |b|
  {
    if b != [] {
      var n := |b| - 1;
      assert (a + b)[..|a + b| - 1] == a + b[..n];
      ScriptTextAppend(a, b[..n]);
    } else {
      assert a + b == a;
    }
  }

  /** Only text blocks matter to the script: any other block in between changes nothing. */
  lemma NonTextBlockIgnored(a: seq<Block>, b: Block, c: seq<Block>)
    requires !b.TextBlock?
    ensures ScriptText(a + [b] + c) == ScriptText(a + c)
  {
    ScriptTextAppend(a + [b], c);
    ScriptTextAppend(a, [b]);
    ScriptTextAppend(a, c);
    assert ScriptText([b]) == [] by {
      assert [b][..0] == [];
    }
  }

  /** Every item with a URL in a result block of the answer is among the search URLs. */
  lemma {:induction false} SearchUrlsComplete(blocks: seq<Block>, j: nat, k: nat)
    requires j < |blocks| && blocks[j].SearchResults? && blocks[j].items.Some?
    requires k < |blocks[j].items.value| && blocks[j].items.value[k].url != []
    ensures var it := blocks[j].items.value[k]; SearchUrl(it.url, it.title) in SearchUrls(blocks)
    decreases |blocks|
  {
    var n := |blocks| - 1;
    var it := blocks[j].items.value[k];
    assert SearchUrls(blocks) == SearchUrls(blocks[..n]) + BlockUrls(blocks[n]);
    if j < n {
      assert blocks[..n][j] == blocks[j];
      SearchUrlsComplete(blocks[..n], j, k);
    } else {
      assert SearchUrl(it.url, it.title) in ItemUrls(blocks[n].items.value);
    }
  }

  /** The loop over the answer's blocks. */
  method AssembleBlocks(blocks: seq<Block>) returns (script: string, parts: seq<string>, urls: seq<SearchUrl>)
    ensures script == ScriptText(blocks) && parts == ResearchParts(blocks) && urls == SearchUrls(blocks)
  {
    script, parts, urls := [], [], [];
    for i := 0 to |blocks|
      invariant script == ScriptText(blocks[..i])
      invariant parts == ResearchParts(blocks[..i])
      invariant urls == SearchUrls(blocks[..i])
    {
      assert blocks[..i + 1][..i] == blocks[..i];
      var b := blocks[i];
      if b.TextBlock? {
        script := script + b.text;
      } else {
        assert script + [] == script;
      }
      var part := BlockPart(b);
      if part.Some? {
        parts := parts + [part.value];
      }
      var found := BlockSearchUrls(b);
      urls := urls + found;
    }
    assert blocks[..|blocks|] == blocks;
  }

  /** The research entry one block adds to the log, if any. */
  method BlockPart(b: Block) returns (part: Option<string>)
    ensures part == ResearchPart(b)
  {
    match b {
      case Thinking(t) =>
        part := Some("[Thinking]\n" + t);
      case ToolUse(name, query) =>
        part := if name == "web_search" then Some("[Web Search] \"" + query + "\"") else None;
      case SearchResults(items) =>
        var text := FormatSearchResults(items);
        part := Some("[Search Results]\n" + text);
      case TextBlock(_) =>
        part := None;
      case OtherBlock =>
        part := None;
    }
  }

  /** The items with a URL of one result block, in order. */
  method BlockSearchUrls(b: Block) returns (found: seq<SearchUrl>)
    ensures found == BlockUrls(b)
  {
    found := [];
    if b.SearchResults? && b.items.Some? {
      var xs := b.items.value;
      for k := 0 to |xs|
        invariant found == ItemUrls(xs[..k])
      {
        assert xs[..k + 1][..k] == xs[..k];
        if xs[k].url != [] {
          found := found + [SearchUrl(xs[k].url, xs[k].title)];
        }
      }
      assert xs[..|xs|] == xs;
    }
  }

  // ---------------------------------------------------------------------
  // The research log

  const LogHeader: string := "=== RESEARCH LOG ===\n\n"
  const ProcessHeader: string := "--- CLAUDE'S RESEARCH PROCESS ---\n\n"

  /** The entry for the `i`-th (1-based) fetched article: its URL and the first 200 characters of its content. */
  function ArticleEntry(i: nat, a: Research.Article): string {
    "[" + NatToString(i) + "] " + a.url + "\n    " + Research.Take(a.content, 200) + "...\n"
  }

  function ArticleEntries(articles: seq<Research.Article>): string {
    if articles == [] then []
    else ArticleEntries(articles[..|articles| - 1]) + ArticleEntry(|articles|, articles[|articles| - 1])
  }

  function InstructionsSection(instructions: string): string {
    if instructions == [] then [] else "--- INSTRUCTIONS FROM CARD ---\n" + instructions + "\n\n"
  }

  function ArticlesSection(articles: seq<Research.Article>): string {
    if articles == [] then [] else "--- FETCHED ARTICLES ---\n" + ArticleEntries(articles) + "\n"
  }

  function ResearchLog(instructions: string, articles: seq<Research.Article>, parts: seq<string>): string {
    LogHeader + InstructionsSection(instructions) + ArticlesSection(articles) + ProcessHeader + Join("\n\n", parts)
  }

  lemma Framed(a: string, b: string, c: string, d: string, e: string)
    ensures StartsWith(a + b + c + d + e, a) && EndsWith(a + b + c + d + e, d + e)
  {
    var s := a + b + c + d + e;
    assert s == a + (b + c + d + e);
    assert s == (a + b + c) + (d + e);
    assert s[..|a|] == a;
    assert s[|s| - |d + e|..] == d + e;
  }

  /** The log opens with its header and closes with the model's research steps. */
  lemma ResearchLogFrame(instructions: string, articles: seq<Research.Article>, parts: seq<string>)
    ensures StartsWith(ResearchLog(instructions, articles, parts), LogHeader)
    ensures EndsWith(ResearchLog(instructions, articles, parts), ProcessHeader + Join("\n\n", parts))
  {
    Framed(LogHeader, InstructionsSection(instructions), ArticlesSection(articles), ProcessHeader, Join("\n\n", parts));
  }

  /** The research log, with the fetched articles numbered from 1. */
  method BuildResearchLog(instructions: string, articles: seq<Research.Article>, parts: seq<string>) returns (log: string)
    ensures log == ResearchLog(instructions, articles, parts)
  {
    var entries: string := [];
    for i := 0 to |articles|
      invariant entries == ArticleEntries(articles[..i])
    {
      assert articles[..i + 1][..i] == articles[..i];
      entries := entries + ArticleEntry(i + 1, articles[i]);
    }
    assert articles[..|articles|] == articles;
    var section := if articles == [] then [] else "--- FETCHED ARTICLES ---\n" + entries + "\n";
    log := LogHeader + InstructionsSection(instructions) + section + ProcessHeader + Join("\n\n", parts);
  }

  // ---------------------------------------------------------------------
  // Writing a script

  /** The floor on a new script's length: the word count, or the error raised. */
  function CheckWordFloor(script: string): (r: Result<nat, string>)
    ensures r.Success? <==> WordCount(script) >= MinWords
    ensures r.Success? ==> r.value == WordCount(script)
  {
    var wc := WordCount(script);
    if wc < MinWords then
      Failure("Claude produced only " + NatToString(wc) + " words (minimum 50). Output: " + Research.Take(script, 300) + "...")
    else Success(wc)
  }

  /** A blank answer, a refusal with no text, is always rejected. */
  lemma BlankScriptRejected(script: string)
    requires IsBlank(script)
    ensures CheckWordFloor(script).Failure?
  {
    BlankHasNoWords(script);
  }

  datatype Written = Written(script: string, stats: Stats, research: string, searchUrls: seq<SearchUrl>)

  function WriteCost(m: Message): real {
    (m.inputTokens as real * WriteInputPrice + m.outputTokens as real * WriteOutputPrice) / 1000000.0
  }

  function ScriptStats(m: Message, script: string, words: nat, elapsed: real): Stats {
    map["input_tokens" := Count(m.inputTokens), "output_tokens" := Count(m.outputTokens),
        "cost_usd" := Measure(WriteCost(m)), "duration_s" := Measure(elapsed),
        "char_count" := Count(|script|), "word_count" := Count(words)]
  }

  /**
   * `write_script` of the model client: the retried request, then the
   * assembled answer, refused below 50 words. `elapsed` is the measured
   * duration in seconds.
   */
  function WriteScriptSpec(api: Api, instructions: string, articles: seq<Research.Article>, elapsed: real): (r: Result<Written, string>)
    ensures r.Success? ==> WordCount(r.value.script) >= MinWords
    ensures r.Success? ==> "word_count" in r.value.stats && r.value.stats["word_count"] == Count(WordCount(r.value.script))
    ensures r.Success? ==> "char_count" in r.value.stats && r.value.stats["char_count"] == Count(|r.value.script|)
    ensures Retry(api).result.Failure? ==> r == Failure(Retry(api).result.error)
  {
    var m :- Retry(api).result;
    var script := ScriptText(m.content);
    var words :- CheckWordFloor(script);
    Success(Written(script, ScriptStats(m, script, words, elapsed),
                    ResearchLog(instructions, articles, ResearchParts(m.content)), SearchUrls(m.content)))
  }

  /** A successful request whose text has fewer than 50 words still fails. */
  lemma ShortScriptRaises(api: Api, instructions: string, articles: seq<Research.Article>, elapsed: real)
    requires Retry(api).result.Success? && WordCount(ScriptText(Retry(api).result.value.content)) < MinWords
    ensures WriteScriptSpec(api, instructions, articles, elapsed).Failure?
  {
    var script := ScriptText(Retry(api).result.value.content);
    assert CheckWordFloor(script).Failure?;
  }

  method WriteScript(api: Api, instructions: string, articles: seq<Research.Article>, elapsed: real)
    returns (r: Result<Written, string>, waits: seq<nat>)
    ensures r == WriteScriptSpec(api, instructions, articles, elapsed)
    ensures waits == Retry(api).waits
  {
    var answer;
    answer, waits := CallWithRetry(api);
    if answer.Failure? {
      return Failure(answer.error), waits;
    }
    var m := answer.value;
    var script, parts, urls := AssembleBlocks(m.content);
    var log := BuildResearchLog(instructions, articles, parts);
    var words := CheckWordFloor(script);
    if words.Failure? {
      return Failure(words.error), waits;
    }
    r := Success(Written(script, ScriptStats(m, script, words.value, elapsed), log, urls));
  }

  // ---------------------------------------------------------------------
  // Revising a script

  /** Lower-case phrases whose presence marks a refusal to revise. */
  const RefusalPhrases: seq<string> := [
    "i can't revise",
    "i cannot create",
    "i can't create",
    "i appreciate you sharing",
    "crosses an ethical line",
    "deliberately deceives",
    "i'm not able to",
    "i cannot write",
    "i can't write",
    "i need to decline",
    "i must decline",
    "misleading clickbait",
    "i cannot help with",
    "i can't help with"
  ]

  predicate IsRefusal(script: string) {
    exists k :: 0 <= k < |RefusalPhrases| && Contains(Lower(script), RefusalPhrases[k])
  }

  /** The scan over the phrases. */
  method FindRefusal(script: string) returns (refused: bool)
    ensures refused <==> IsRefusal(script)
  {
    var lower := Lower(script);
    for k := 0 to |RefusalPhrases|
      invariant forall j :: 0 <= j < k ==> !Contains(lower, RefusalPhrases[j])
    {
      if Contains(lower, RefusalPhrases[k]) {
        return true;
      }
    }
    return false;
  }

  /** The scan ignores case. */
  lemma RefusalIgnoresCase(script: string)
    ensures IsRefusal(script) <==> IsRefusal(Lower(script))
  {
    LowerIdempotent(script);
  }

  lemma {:induction false} EmptyContainsNothing(p: string)
    requires p != []
    ensures !Contains([], p)
  {
  }

  datatype Revised = Revised(script: string, stats: Stats)

  function ReviseCost(m: Message): real {
    (m.inputTokens as real * ReviseInputPrice + m.outputTokens as real * ReviseOutputPrice) / 1000000.0
  }

  function RevisionStats(m: Message, script: string, elapsed: real): Stats {
    map["input_tokens" := Count(m.inputTokens), "output_tokens" := Count(m.outputTokens),
        "cost_usd" := Measure(ReviseCost(m)), "duration_s" := Measure(elapsed),
        "word_count" := Count(WordCount(script))]
  }

  /** `revise_script` of the model client: the retried request, refused when a refusal phrase appears. */
  function ReviseSpec(api: Api, elapsed: real): (r: Result<Revised, string>)
    ensures r.Success? ==> !IsRefusal(r.value.script)
    ensures r.Success? ==> Retry(api).result.Success? && r.value.script == ScriptText(Retry(api).result.value.content)
  {
    var m :- Retry(api).result;
    var script := ScriptText(m.content);
    if IsRefusal(script) then Failure("Claude refused to revise the script: " + Research.Take(script, 300) + "...")
    else Success(Revised(script, RevisionStats(m, script, elapsed)))
  }

  /** A revision has no word floor: an answer without any text block is accepted as an empty script. */
  lemma EmptyRevisionAccepted(api: Api, elapsed: real)
    requires Retry(api).result.Success? && ScriptText(Retry(api).result.value.content) == []
    ensures ReviseSpec(api, elapsed) == Success(Revised([], RevisionStats(Retry(api).result.value, [], elapsed)))
  {
    EmptyIsNoRefusal();
  }

  /** The empty script contains no refusal phrase. */
  lemma EmptyIsNoRefusal()
    ensures !IsRefusal([])
  {
    forall k | 0 <= k < |RefusalPhrases|
      ensures !Contains(Lower([]), RefusalPhrases[k])
    {
      EmptyContainsNothing(RefusalPhrases[k]);
    }
  }

  method Revise(api: Api, elapsed: real) returns (r: Result<Revised, string>, waits: seq<nat>)
    ensures r == ReviseSpec(api, elapsed)
    ensures waits == Retry(api).waits
  {
    var answer;
    answer, waits := CallWithRetry(api);
    if answer.Failure? {
      return Failure(answer.error), waits;
    }
    var m := answer.value;
    var script, _, _ := AssembleBlocks(m.content);
    var refused := FindRefusal(script);
    if refused {
      return Failure("Claude refused to revise the script: " + Research.Take(script, 300) + "..."), waits;
    }
    r := Success(Revised(script, RevisionStats(m, script, elapsed)));
  }
}
