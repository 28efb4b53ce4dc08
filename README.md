# snap-pipeline, modelled in Dafny

This project models the decision logic of *snap-pipeline*. It is a
webhook-driven service that takes a Trello card from "snap script" to a
voiced, delivered script:

1. A Trello webhook event reaches `trello_webhook`. It routes the event and
   takes a set-if-absent lock in Redis.
2. Celery workers run the three stages:
   - `write_script`: research the card, have the language model write a
     script, attach it, and ask for review;
   - `generate_voice`: send the approved script to the speech service;
   - `deliver`: attach the audio and script, move the card, and mark it done.
3. `on_pipeline_error` escalates a failed chain back to the card.
4. A small web editor lets a producer correct the stored script.

Everything outside the process is replaced by state or by parameters:

- **Trello.** The board is a value (`Trello.World`): the label catalogue,
  the lists, the one card the requests are about, and the history of
  actions taken on it. Each client function of `services/trello.py` is a
  function from world to world plus result, and
  `TrelloClient.Board` runs them in place as methods.
- **Network failures.** The `link` field says after how many Trello
  requests the network fails, so every path where a Trello request raises
  is reachable.
- **Redis.** The store is a map from keys to entries (a value and its TTL).
  `KeyValue.Store` holds it as a class with `GET`, `SET`, `SET NX` and
  `DEL`. These commands always succeed in the model; Redis errors are
  listed under "Left out".
- **External services.** The language model, the speech service, the web
  fetches, clocks, JSON and UTF-8 decoding, float formatting and the
  webhook signature are function-typed parameters, gathered in one
  environment record per task.

Each task is first written as a specification function returning an
outcome (`Finished`, `Done`, `Skipped`, `Retried(error)` or
`Raised(error)`), the board and the store. The lemmas state the properties
of that function. A method with the same name runs the worker step by step
against the board and store objects, and its `ensures` ties it to the
specification function. The text helpers (URL scanning, HTML stripping,
escaping) are direct scanners over `seq<char>` in place of the regular
expressions.

The modules are:

| module | models |
|---|---|
| `Results`, `PyStr` | the Result and Option types; the Python string methods the code relies on |
| `KeyValue` | the Redis keys and the store |
| `Settings` | `config/settings.py` |
| `Trello`, `TrelloClient` | `services/trello.py` |
| `Research` | `services/research.py` |
| `Spans` | the ordered, non-overlapping match spans that stand for `re.findall` and `re.sub` in `services/research.py` |
| `Claude` | `services/claude.py` |
| `Tasks`, `ScriptTasks`, `DeliverTasks`, `Pipeline` | `workers/tasks/` |
| `Webhook` | `api/main.py` |
| `ScriptEditor` | `api/script_editor.py` |

## Model

| member | source | states |
|---|---|---|
| KeyValue.KeyFamiliesDisjoint | api/main.py:39-41 | The script, voice, audio and stats keys never collide, whatever the two card ids. |
| KeyValue.KeysInjective | api/main.py:39-41 | Within one key family, different card ids give different keys. |
| KeyValue.Store.Get | api/script_editor.py:164 | GET returns the stored value, present exactly when the key is. |
| KeyValue.Store.Set | workers/tasks/script.py:136 | SET with EX replaces the entry for the key and touches no other key. |
| KeyValue.Store.SetIfAbsent | api/main.py:134 | SET NX EX creates the entry exactly when the key was absent, reports whether it did, and otherwise leaves the store unchanged. |
| KeyValue.Store.Delete | api/main.py:39 | DEL removes the key and returns 1 when it existed, 0 otherwise. |
| KeyValue.Store.Expire | api/script_editor.py:166-167 | A lapsed TTL removes exactly that key. |
| PyStr.StripEmptyIffBlank | api/script_editor.py:179 | `strip()` is empty exactly for the strings made only of whitespace. |
| PyStr.Strip | api/script_editor.py:179 | `strip()` is no longer than its input, and neither starts nor ends with whitespace. |
| PyStr.Words | services/claude.py:160 | `split()` yields non-empty pieces with no whitespace in them; `WordsOfWord` and `WordsSplitAtSpace` say which pieces. |
| PyStr.WordsOfWord | services/claude.py:160 | A run of non-whitespace characters splits into itself alone. |
| PyStr.WordsSplitAtSpace | services/claude.py:160 | Splitting at any whitespace character splits the two sides apart: the words of `a + c + b` are the words of `a` followed by those of `b`. With `WordsOfWord`, the words are the maximal non-whitespace runs, in order. |
| PyStr.BlankHasNoWords | services/claude.py:160-161 | A whitespace-only text has word count 0. |
| PyStr.NonBlankHasWords | api/script_editor.py:189 | A text that is not whitespace-only has a positive word count. |
| PyStr.NatToString | api/script_editor.py:210 | `str(n)` is the decimal numeral of `n`: non-empty decimal digits whose value is `n`, with no leading zero unless `n` is 0. |
| Tasks.Merge | workers/tasks/script.py:141-149 | `dict.update`: the keys are the union, updated keys take the new values, and every other key keeps its old value. |
| Tasks.RStripSlashes | workers/tasks/script.py:108 | `rstrip("/")` is the longest prefix not ending in `/`, and only slashes are removed. |
| Tasks.EditLink | workers/tasks/script.py:108-109 | The edit link is empty exactly when the web URL is empty once its trailing slashes are removed. |
| Tasks.EditLinkIgnoresTrailingSlash | workers/tasks/script.py:108-109 | A web URL gives the same link with or without trailing slashes. |
| Settings.DefaultLabelsDistinct | config/settings.py:63-71 | The trigger and six stage label names are pairwise different after lower-casing. |
| Settings.GetChannelIgnoresCase | config/settings.py:73-74 | `get_channel` gives the same answer for any two names with the same lower case. |
| Settings.GetSnapChannel | config/settings.py:76-81 | The answer is a given label that ends in "(snap)" in any case and names a channel, and no earlier label does; it is None exactly when no label qualifies. |
| Settings.SnapChannelOrderIrrelevant | config/settings.py:76-81 | With at most one qualifying label, any two orders of the same label set give the same channel. |
| Settings.LastColumn | config/settings.py:119-124 | The scan keeps the last header that names the column; none exactly when no header does. |
| Settings.FoldCells | config/settings.py:133-153 | After any row the continuation pointer, when set, names a registered channel. |
| Settings.FoldRow | config/settings.py:129-131 | Each row keeps the continuation pointer on a registered channel. |
| Settings.FoldRows | config/settings.py:129-153 | The whole row loop keeps the continuation pointer on a registered channel. |
| Settings.SheetChannelsAreSnap | config/settings.py:143-153 | Every loaded key is a lower-cased name ending in "(snap)", and its channel keeps a name that lower-cases to the key. |
| Settings.LoadedLabelsAreSnapChannels | config/settings.py:148-153 | Every key of a loaded registry is a label `get_snap_channel` accepts. |
| Settings.NoVoiceHeaderNoChannels | config/settings.py:125-127 | Without a "voices id" or "voice id" header, nothing is loaded. |
| Settings.ShortRowSkipped | config/settings.py:129-131 | An empty row, or one that ends at or before the voice column, changes nothing. |
| Settings.ContinuationRow | config/settings.py:137-141 | A nameless row appends a newline and its prompt to the previous channel's prompt, only when there is such a channel and the prompt is not empty. |
| Settings.NonSnapRowDropsContinuations | config/settings.py:143-146 | A non-"(snap)" name clears the pointer, so its continuation rows are dropped. |
| Settings.LaterDuplicateReplaces | config/settings.py:148-153 | A later "(snap)" row with the same lower-cased name replaces the earlier entry. |
| Settings.HeaderColumns | config/settings.py:119-124 | The header loop finds the last voice column and the last prompt column. |
| Settings.FetchChannelsFromSheet | config/settings.py:95-158 | The loader returns the registry the row fold defines, and every entry in it is a "(snap)" channel. |
| Settings.FoldRowStep | config/settings.py:129-153 | One pass of the row loop is one step of the row fold. |
| Settings.NoSheetEmptyConfig | config/settings.py:175-176 | Without a sheet id, the config is empty and the cache is untouched. |
| Settings.FreshCacheServed | config/settings.py:178-180 | A cache younger than 300 s is served as is, whatever a fetch would return. |
| Settings.FailedFetchFallsBack | config/settings.py:187-191 | A failed fetch leaves the cache alone and returns the stale config, or the empty one when there is none. |
| Settings.RefreshThenServe | config/settings.py:178-186 | After a successful refresh, every call within the next 300 s returns that config without fetching. |
| Settings.ConfigCache.GetPipelineConfig | config/settings.py:166-191 | The cache object returns the config and moves to the cache state that the cache decision defines. |
| Trello.FindLabel | services/trello.py:57-61 | The index found names a label matching case-insensitively, no earlier label matches, and none is found exactly when no label matches. |
| Trello.FindName | services/trello.py:57-61 | The index found names a matching name case-insensitively, no earlier name matches, and none is found exactly when no name matches. |
| Trello.FindList | services/trello.py:136-140 | The same first-match search as `FindLabel`, both through `FindName`, over the board's lists. |
| Trello.GetCard | services/trello.py:20-27 | The read succeeds exactly when the request goes through and the card id is the card's; it returns the card and changes nothing on the board. |
| Trello.GetCardLabels | services/trello.py:30-32 | Returns the card's labels, and succeeds and fails exactly as `get_card` does. |
| Trello.GetCardAttachments | services/trello.py:35-43 | Returns the card's attachments exactly when the request goes through and the card id matches; the card is not changed. |
| Trello.CreateLabel | services/trello.py:63-69 | A created label gets the next fresh id and is appended to the board's catalogue. |
| Trello.PutLabelOnCard | services/trello.py:71-77 | A label already on the card (409) leaves the card's labels unchanged without error; otherwise it is appended. |
| Trello.AddComment | services/trello.py:94-100 | A comment that goes through is appended to the card's history; the card itself is unchanged. |
| Trello.Attach | services/trello.py:103-122 | An upload that goes through appends the file to the card's attachments, and leaves labels and list alone. |
| Trello.AddLabelReusesFirstMatch | services/trello.py:57-61 | When a board label matches, the first match is put on the card and no label is created. |
| Trello.AddLabelCreatesWhenMissing | services/trello.py:63-69 | When no board label matches, exactly one label with the requested name is created and put on the card. |
| Trello.AddLabelGivesLabel | services/trello.py:46-77 | On a well-formed board, a successful add leaves a label of that name on the card. |
| Trello.AddLabelIdempotent | services/trello.py:71-77 | Right after a successful add, a second add of the same name succeeds and changes nothing. |
| Trello.CreateLabelKeepsWellFormed | services/trello.py:63-69 | Creating a label keeps board ids distinct and the card's labels on the board. |
| Trello.PutLabelKeepsWellFormed | services/trello.py:71-77 | Putting a board label on the card keeps the board well formed. |
| Trello.AddLabelKeepsWellFormed | services/trello.py:46-77 | `add_label_by_name` keeps the board well formed. |
| Trello.RemoveLabelFirstMatchOnly | services/trello.py:80-91 | A remove deletes the first matching card label and only it; with no match it changes nothing. |
| Trello.RemoveLabelAtMostOne | services/trello.py:84-91 | A remove takes at most one label off the card. |
| Trello.RemoveLabelKeepsWellFormed | services/trello.py:80-91 | `remove_label_by_name` keeps the board well formed. |
| Trello.MoveWithoutMatchRaises | services/trello.py:142-143 | With no matching list the move fails, and the card and board keep their contents. |
| Trello.MoveToFirstMatch | services/trello.py:136-149 | A successful move puts the card in the first list whose name matches case-insensitively. |
| Trello.LinkDownChangesNothing | services/trello.py:20-149 | Once the network is down, every client function raises and the board keeps its contents. |
| Trello.AddLabelKeepsCardLabels | services/trello.py:71-77 | An add never takes a label off the card: the labels before are a prefix of those after. |
| Trello.RemoveLabelKeepsOthers | services/trello.py:84-91 | A remove keeps every card label whose name does not match. |
| Trello.MoveKeepsLabels | services/trello.py:145-149 | A move, successful or not, leaves the card's labels, the label catalogue and the label counter alone. |
| Trello.LabelChangesKeepPlace | services/trello.py:46-91 | Adding or removing labels leaves the card in its list and the board's lists unchanged. |
| Trello.AddLabelLogsLabels | services/trello.py:46-77 | An add records only label actions in the history. |
| Trello.RemoveLabelLogsLabels | services/trello.py:80-91 | A remove records only label actions in the history. |
| Trello.CardNameAtMostOnce | services/trello.py:46-91 | On a well-formed board whose catalogue holds a name at most once, the card carries that name at most once. |
| Trello.RemoveLabelClears | services/trello.py:84-91 | When the card carries a name at most once, a successful remove leaves no label of that name on it. |
| Trello.RemoveLabelClearsOnBoard | services/trello.py:80-91 | On a well-formed board whose catalogue holds the name at most once, a successful remove leaves no label of that name on the card, keeps the board well formed, and keeps the catalogue. |
| Trello.RemoveLabelKeepsAbsent | services/trello.py:80-91 | A remove never puts a label on the card: a name absent before is absent after. |
| Trello.AddLabelKeepsAbsent | services/trello.py:46-77 | Adding one name never puts a label of a different name on the card. |
| Trello.AddLabelKeepsNameAtMostOnce | services/trello.py:46-77 | An add keeps any name at most once in the catalogue: it creates a label only when none matches. |
| Trello.MoveCardToList | services/trello.py:125-149 | A move leaves the board's lists as they are, and succeeds only when some list matches the name. |
| TrelloClient.Board.GetCard | services/trello.py:20-27 | The method's result and new board are those of `Trello.GetCard`. |
| TrelloClient.Board.GetCardLabels | services/trello.py:30-32 | The method's result and new board are those of `Trello.GetCardLabels`. |
| TrelloClient.Board.GetCardAttachments | services/trello.py:35-43 | The method's result and new board are those of `Trello.GetCardAttachments`. |
| TrelloClient.Board.FindBoardLabel | services/trello.py:57-61 | The find-first loop over the catalogue returns what `Trello.FindLabel` does. |
| TrelloClient.Board.AddLabelByName | services/trello.py:46-77 | The method's result and new board are those of `Trello.AddLabelByName`. |
| TrelloClient.Board.RemoveLabelByName | services/trello.py:80-91 | The loop over the card's labels has the result and new board of `Trello.RemoveLabelByName`. |
| TrelloClient.Board.AddComment | services/trello.py:94-100 | The method's result and new board are those of `Trello.AddComment`. |
| TrelloClient.Board.AttachTextFile | services/trello.py:103-111 | The method's result and new board are those of `Trello.AttachTextFile`. |
| TrelloClient.Board.AttachBinaryFile | services/trello.py:114-122 | The method's result and new board are those of `Trello.AttachBinaryFile`. |
| TrelloClient.Board.MoveCardToList | services/trello.py:125-149 | The find-first loop over the lists, then the move, has the result and new board of `Trello.MoveCardToList`. |
| Research.RunLen | services/research.py:17 | The run of URL characters is maximal: none of its characters is whitespace or one of `<>")]`, and the next character, if any, is. |
| Research.SchemeLen | services/research.py:17 | The scheme part is 8 characters exactly when the text starts with `https://`, 7 exactly when it starts with `http://` but not `https://`, and absent otherwise. |
| Research.MatchLen | services/research.py:17 | A match starts exactly where a scheme is followed by a URL character, and it takes the scheme and the whole run that follows. |
| Research.MatchIsUrl | services/research.py:17 | Every match is a scheme followed by a non-empty run of URL characters. |
| Research.ExtractUrls | services/research.py:15-17 | Every string `extract_urls` returns is a scheme and a non-empty run of URL characters; `UrlMatches` says which strings, in which order. |
| Research.UrlMatches | services/research.py:15-22 | There are match positions, left to right and not overlapping, each where a match starts and as long as `MatchLen` says, that cover every place a match could start; `extract_urls` returns the texts at those positions in order, and removing URLs cuts exactly those spans. |
| Research.RemoveUrlsNoMatch | services/research.py:22 | After the URLs are removed, no URL can be found anywhere in the text, including across a removed one. |
| Research.CollapseLeadingNewlines | services/research.py:23 | Collapsing newline runs keeps the leading newlines, capped at two. |
| Research.CollapseNoTriple | services/research.py:23 | After collapsing, no three newlines are left in a row. |
| Research.CollapseKeepsNoMatch | services/research.py:22-23 | Collapsing newlines creates no URL in a text that held none. |
| Research.InstructionsHaveNoUrls | services/research.py:20-24 | The instructions hold no URL that `extract_urls` would find, no run of three newlines, and no leading or trailing whitespace. |
| Research.ExtractInstructions | services/research.py:20-24 | The instructions are no longer than the description, and neither start nor end with whitespace. |
| Research.CollapseNewlines | services/research.py:23 | Collapsing newline runs never lengthens the text. |
| Research.OpenBlockName | services/research.py:30 | The element name found after `<` is one of script, style, nav, footer, header or aside, in any case. |
| Research.FindClose | services/research.py:30 | The index found is the first at which the closing tag starts, ignoring case. |
| Research.BlockLen | services/research.py:29-32 | A matched block runs from `<name` to the end of the first `</name>` after its opening tag, and stays within the text. |
| Research.RemoveBlocks | services/research.py:29-32 | Removing blocks never lengthens the text; `BlockMatches` says what is removed. |
| Research.BlockMatches | services/research.py:29-32 | The removed blocks are spans, left to right and not overlapping, each as long as `BlockLen` says, that cover every place a block could start; the result is the text with exactly those spans cut out. |
| Research.RemoveBlocksWithoutTags | services/research.py:29-32 | A text without `<` has no block to remove. |
| Research.TagLen | services/research.py:33 | A tag is `<`, at least one character other than `>`, then `>`. |
| Research.StripTagsLeavesNoTag | services/research.py:33 | One pass of tag stripping leaves no tag in the output. |
| Research.StripTagsIdempotent | services/research.py:33 | Stripping tags twice is the same as stripping them once. |
| Research.AmpersandDecodedFirst | services/research.py:34-41 | Because `&amp;` is decoded first, a double-encoded `&amp;lt;` comes out as `<`. |
| Research.DecodeWithoutAmpersand | services/research.py:34-41 | Text without `&` passes entity decoding unchanged. |
| Research.CollapseBlanksSpec | services/research.py:42 | The result has no tab and no two spaces in a row, starts with a blank exactly when the input does, and keeps every other character in order. |
| Research.BlankLineLen | services/research.py:43 | A blank line break is a newline, spaces and tabs only, then a newline. |
| Research.JoinBlankLinesDropsOnlyBlanks | services/research.py:43 | Joining blank lines only drops spaces and tabs: the other characters and their order are kept. |
| Research.StripHtml | services/research.py:27-44 | The text of an HTML page neither starts nor ends with whitespace. |
| Research.IsTwitterUrl | services/research.py:47-51 | The test as written raises exactly when `urlsplit` would reject the network location for unbalanced brackets. |
| Research.IsTweetUrl | services/research.py:47-51 | The intended test, on the host rather than on substrings of the domain, fails in exactly the same cases. |
| Research.TweetUrlRefinesTwitterUrl | services/research.py:47-51 | Every URL the intended test accepts, the written test accepts too. |
| Research.TweetUrlAcceptsTwitterHosts | services/research.py:47-51 | The intended test accepts twitter.com, x.com and their subdomains. |
| Research.BoxDomainMisread | services/research.py:47-51 | Any URL whose host is box.com passes the written test and fails the intended one. |
| Research.BoxCountsAsTwitter | services/research.py:47-51 | `http://box.com` passes the written test, because its domain contains `x.com`; the intended test rejects it. |
| Research.HttpNetloc | services/research.py:50 | The network location of `http://` followed by a plain host is that host. |
| Research.Take | services/research.py:93 | `s[:n]` is the prefix of `s` of length `min(n, len(s))`. |
| Research.FetchTweet | services/research.py:54-72 | A tweet gives content exactly when oEmbed answers with HTML that strips to something non-empty; that content is never empty. |
| Research.FetchUrlContent | services/research.py:75-100 | `fetch_url_content` with the host test as written fails outright exactly when the URL's network location does not parse. |
| Research.FetchAfterTest | services/research.py:77-100 | A URL taken for a tweet is fetched through oEmbed; any other yields content only from a fetched page, and at most 5000 characters of it. |
| Research.FetchUrlContentIntended | services/research.py:75-100 | The same fetch with the intended host test, failing in exactly the same cases. |
| Research.FetchDiffersOnlyWhenMisread | services/research.py:47-100 | The fetch as written and the intended fetch answer alike for every URL except those the written test misreads as Twitter ones. |
| Research.BoxFetchedAsTweet | services/research.py:47-78 | `http://box.com` is sent to oEmbed as written, and fetched as a page with the intended test. |
| Research.PageContentCapped | services/research.py:92-96 | Content fetched for a URL that the written test does not take for a tweet is at most 5000 characters long. |
| Research.NonTextPageSkipped | services/research.py:87-90 | For a URL the written test does not take for a tweet, a page whose content type is neither HTML nor plain text yields nothing. |
| Research.PlainTextKeptVerbatim | services/research.py:92-93 | For a URL the written test does not take for a tweet, when the content type names plain text the text is kept as it is, even if it also names HTML. |
| Research.TweetIgnoresPage | services/research.py:77-78 | A URL the written test takes for a tweet, box.com and netflix.com included, is fetched only through oEmbed, whatever the page itself would return. |
| Research.Collect | services/research.py:116-121 | A successful collection has no more articles than URLs. |
| Research.Take15 | services/research.py:117 | `urls[:15]` is the first `min(15, len(urls))` URLs. |
| Research.ContextUrls | services/research.py:114-117 | At most 15 URLs are looked at. |
| Research.CollectArticles | services/research.py:116-121 | The fetch loop returns what `Collect` defines. |
| Research.PrepareContext | services/research.py:103-125 | `prepare_context`, with the fetch as written, returns what its specification function defines. |
| Research.PrepareContextSpec | services/research.py:103-125 | An empty description gives empty instructions and no articles, and a successful preparation has at most 15 articles. |
| Research.EmptyDescription | services/research.py:110-111 | An empty description gives empty instructions and no articles, without fetching anything. |
| Research.CollectKeepsOrder | services/research.py:116-121 | Collected articles come from the URLs in URL order, and each holds exactly the non-empty content fetched for its URL. |
| Research.CollectMissesNothing | services/research.py:118-120 | Every URL whose fetch gives content gets its article. |
| Research.CollectFailsIffSomeFetchFails | services/research.py:116-118 | The preparation fails exactly when parsing fails for one of the URLs looked at. |
| Research.ContextShape | services/research.py:103-125 | A successful preparation has at most 15 articles, taken from the description's URLs in order, each with the non-empty content fetched for its URL; its instructions are `extract_instructions` of the description. |
| Claude.RetryFrom | services/claude.py:86-115 | The last attempt made is the first that succeeds, fails with an error not worth retrying, or is attempt 3; every earlier attempt failed with a retryable error, and its wait is its linear backoff. |
| Claude.RetryBounds | services/claude.py:86-115 | At most four attempts, and at most three waits of 30, 60 and 90 seconds: 180 in all. |
| Claude.RetryFromFirst | services/claude.py:86-115 | From the first attempt: at most three waits, the result is the answer of the attempt after the last wait, and every wait k is 30 × (k + 1) seconds after attempt k failed with a retryable error. |
| Claude.RetryableWherever | services/claude.py:106 | An error is retryable when "overloaded", "529" or "rate" occurs anywhere in it, in any case, so a word such as "generate" makes an error retryable too. |
| Claude.NonRetryableRaisedAtOnce | services/claude.py:104-115 | An error not worth retrying on the first attempt is raised at once, with no wait. |
| Claude.FourthAttemptIsFinal | services/claude.py:107-115 | When the first three attempts are overloaded, the fourth attempt's answer is final, whatever it is. |
| Claude.CallWithRetry | services/claude.py:86-115 | The retry loop returns the result and the waits that `Retry` defines. |
| Claude.SearchLines | services/claude.py:25-30 | One line per item that has a title or a URL, each starting with `  - `; no lines exactly when no item has either. |
| Claude.PlaceholderIffNothingListed | services/claude.py:31 | `"  [results received]"` is produced exactly when no item has a title or a URL. |
| Claude.FormatSearchResults | services/claude.py:21-31 | The line loop returns `_format_search_results`' text. |
| Claude.ItemUrls | services/claude.py:134-140 | Exactly the items with a non-empty URL are kept, with their titles. |
| Claude.ResearchParts | services/claude.py:123-140 | The research entries are no more than the blocks, and every entry a block contributes is among them. |
| Claude.ResearchPartsFromBlocks | services/claude.py:123-140 | Every research entry is the entry of some block: nothing else gets in. |
| Claude.SearchUrls | services/claude.py:131-140 | Every search URL is non-empty. |
| Claude.ScriptTextAppend | services/claude.py:142-143 | The script of two runs of blocks is the script of the first followed by the script of the second. |
| Claude.NonTextBlockIgnored | services/claude.py:123-143 | A block that is not text, inserted anywhere, leaves the script unchanged. |
| Claude.SearchUrlsComplete | services/claude.py:131-140 | Every item with a URL in a result block is among the search URLs. |
| Claude.AssembleBlocks | services/claude.py:119-143 | The loop over the blocks yields the script, the research entries and the search URLs as defined. |
| Claude.BlockPart | services/claude.py:124-133 | A thinking block, a web-search call or a result block gives its research entry; any other block gives none. |
| Claude.BlockSearchUrls | services/claude.py:134-140 | The item loop of a result block keeps the items with a URL, in order, as `BlockUrls` defines. |
| Claude.ResearchLogFrame | services/claude.py:145-158 | The research log opens with its header and ends with the model's research steps. |
| Claude.BuildResearchLog | services/claude.py:145-158 | The log loop numbers the fetched articles from 1 and builds the log as defined. |
| Claude.CheckWordFloor | services/claude.py:160-166 | A script passes exactly when it has at least 50 words, and its word count is returned. |
| Claude.BlankScriptRejected | services/claude.py:160-166 | A blank answer is always rejected. |
| Claude.WriteScriptSpec | services/claude.py:34-185 | A written script has at least 50 words and reports its word and character counts; a failed request is re-raised unchanged. |
| Claude.ShortScriptRaises | services/claude.py:160-166 | A successful request whose text has fewer than 50 words still fails. |
| Claude.WriteScript | services/claude.py:34-185 | The model client's `write_script` returns what `WriteScriptSpec` defines, after the waits `Retry` defines. |
| Claude.FindRefusal | services/claude.py:253-275 | The phrase loop reports a refusal exactly when one of the 14 phrases occurs in the lower-cased script. |
| Claude.RefusalIgnoresCase | services/claude.py:269-271 | A script and its lower-case form are refused alike. |
| Claude.ReviseSpec | services/claude.py:193-294 | An accepted revision contains no refusal phrase, and its script is the text blocks of the successful answer. |
| Claude.EmptyRevisionAccepted | services/claude.py:248-294 | A revision has no word floor: an answer without text blocks is accepted as an empty script. |
| Claude.Revise | services/claude.py:193-294 | The model client's `revise_script` returns what `ReviseSpec` defines, after the waits `Retry` defines. |
| ScriptTasks.ImageAttachments | workers/tasks/script.py:74-81 | No more images than attachments. |
| ScriptTasks.ImageAttachmentsExact | workers/tasks/script.py:76-81 | An image is passed exactly when some attachment with an `image/` type and a non-empty URL carries its name and URL. |
| ScriptTasks.FilterImages | workers/tasks/script.py:75-82 | The attachment loop selects the images `ImageAttachments` defines. |
| ScriptTasks.Preview | workers/tasks/script.py:103 | A script of at most 500 characters is its own preview; a longer one gives its first 500 characters followed by "...". |
| ScriptTasks.GeneratedCommentIsBotComment | workers/tasks/script.py:111-119 | The script comment starts with the bot marker `**`. |
| ScriptTasks.Gather | workers/tasks/script.py:55-94 | Steps 1 to 5 change the board only as adding the writing label does, and succeed only when that add succeeded and the channel exists. |
| ScriptTasks.PublishLog | workers/tasks/script.py:99-123 | A published script appends the two files and the comment to the card's history, then label actions only. |
| ScriptTasks.PublishUnderReview | workers/tasks/script.py:121-123 | On a well-formed board, publishing leaves the review label on the card and the board well formed. |
| ScriptTasks.PublishAttaches | workers/tasks/script.py:99-109 | A published script adds to the card exactly the two text files script.txt and research.txt, in that order, holding the script and the research log. |
| ScriptTasks.PublishClearsWriting | workers/tasks/script.py:121-123 | On a well-formed board whose catalogue holds the writing name at most once, publishing takes the writing label off the card, and adding the review label does not put it back. |
| ScriptTasks.ScriptRunStats | workers/tasks/script.py:141-149 | The stats update has exactly the seven script keys, and takes its word and character counts from the model client. |
| ScriptTasks.StoreScript | workers/tasks/script.py:136-150 | The script is stored for seven days before the stats are read; stats that do not load fail the run; otherwise the merged stats are stored for seven days, and no other key changes. |
| ScriptTasks.WriteBody | workers/tasks/script.py:127-160 | Every failure after the guard goes through the retry, and a retried run changes no key but the script key. |
| ScriptTasks.FinishClearsWriting | workers/tasks/script.py:121-123 | A finished step 6 to 8 on such a board leaves no writing label on the card. |
| ScriptTasks.Finish | workers/tasks/script.py:99-150 | Steps 6 to 8 finish or retry, and a retried run changes no key but the script key. |
| ScriptTasks.WriteSkipsExactlyStaleCards | workers/tasks/script.py:35-51 | `write_script` skips exactly when the labels can be read and one of them is review, approved, generating voice or done; a skipped run changes neither the card nor the store. |
| ScriptTasks.WriteNeverRaises | workers/tasks/script.py:21-160 | `write_script` never raises: every run is skipped, finished or retried. |
| ScriptTasks.LabelReadFailureProceeds | workers/tasks/script.py:52-53 | When the labels cannot be read, `write_script` does not skip and takes no label off the card. |
| ScriptTasks.WriteAddsWritingLabelFirst | workers/tasks/script.py:56-57 | Every run that is not skipped starts by adding the writing label. |
| ScriptTasks.WriteFinishedIsUnderReview | workers/tasks/script.py:121-123 | On a well-formed board, a finished run leaves the review label on the card and the board well formed. |
| ScriptTasks.WriteFinishedClearsWriting | workers/tasks/script.py:121-123 | On a well-formed board whose catalogue holds the writing name at most once, with distinct label names, a finished run swaps the writing label for the review label: the review label is on the card and the writing label is not. |
| ScriptTasks.WriteFinishedOrder | workers/tasks/script.py:56-123 | A finished run's history: label actions, then script.txt, research.txt and the comment, then label actions only; `WriteFinishedClearsWriting` says which labels they leave. |
| ScriptTasks.WriteFinishedStores | workers/tasks/script.py:136-150 | A finished run stores the script, of at least 50 words, for seven days, and merges the seven script stats into the card's stats, keeping every other key. |
| ScriptTasks.WriteUnfinishedKeepsStats | workers/tasks/script.py:127-160 | A run that does not finish leaves the stats alone, and changes the store at most at the script key. |
| ScriptTasks.UnknownChannelRetried | workers/tasks/script.py:57-85 | A channel label that names no channel fails the run after the writing label was added: the card gets label actions only, no file and no comment, and the store is unchanged. |
| ScriptTasks.GatherInputs | workers/tasks/script.py:55-94 | Steps 1 to 5, run on the board, have the result and new board of `Gather`. |
| ScriptTasks.PublishScript | workers/tasks/script.py:99-123 | Steps 6 and 7, run on the board, have the result and new board of `Publish`. |
| ScriptTasks.StoreResult | workers/tasks/script.py:136-150 | Storing on the store has the outcome and new entries of `StoreScript`. |
| ScriptTasks.WriteScript | workers/tasks/script.py:21-160 | `write_script` has the outcome, board and store that `WriteScriptSpec` defines. |
| ScriptTasks.FindStaleLabel | workers/tasks/script.py:43-46 | The scan reports a stale card exactly when one of the card's lower-cased label names is review, approved, generating voice or done. |
| ScriptTasks.WriteAfterGuard | workers/tasks/script.py:55-160 | The body after the guard, run on the board and the store, has the outcome, board and store of `WriteBody`. |
| ScriptTasks.RevisedCommentIsBotComment | workers/tasks/script.py:208-213 | The revision comment starts with the bot marker `**`. |
| ScriptTasks.PostRevision | workers/tasks/script.py:200-213 | After the revision is stored, attaching it and commenting change no key, no label, no list and no catalogue entry. |
| ScriptTasks.ReviseNeedsStoredScript | workers/tasks/script.py:183-185 | Without a non-empty stored script, the revision is retried and nothing changes. |
| ScriptTasks.StoredTextRevised | workers/tasks/script.py:183-200 | Any non-empty stored text passes the script-present guard and is sent as the current script: with the channel known and the board reachable, a revision the model client accepts finishes `revise_script`. |
| ScriptTasks.SentinelAccepted | workers/tasks/script.py:183-187 | The router's "1" lock value passes the same guard, so a revision queued before the script exists revises "1". |
| ScriptTasks.ReviseTouchesOnlyScript | workers/tasks/script.py:178-215 | A revision changes no label, no list and no stats; it writes only the script key, only with an accepted revision, for seven days. |
| ScriptTasks.ReviseScriptSpec | workers/tasks/script.py:169-228 | `revise_script` finishes or retries, and never changes the card's labels or list. |
| ScriptTasks.ReviseScript | workers/tasks/script.py:169-228 | `revise_script` has the outcome, board and store that `ReviseScriptSpec` defines. |
| DeliverTasks.VoiceStats | workers/tasks/deliver.py:64-67 | The voice stats update has exactly `voice_duration` and `audio_size_bytes`, the latter being the audio's length. |
| DeliverTasks.StoreVoice | workers/tasks/deliver.py:58-68 | The audio is stored for a day before the stats are read; stats that do not load fail the run; otherwise the merged stats are stored for seven days, and no other key changes. |
| DeliverTasks.VoiceBody | workers/tasks/deliver.py:42-68 | The body finishes or retries, and its only board change is adding the generating-voice label. |
| DeliverTasks.VoiceOfStoredText | workers/tasks/deliver.py:36-40 | A non-empty stored script is read back as written and voiced. |
| DeliverTasks.VoiceNeedsScript | workers/tasks/deliver.py:36-38 | Without a non-empty stored script, `generate_voice` raises before touching the card or the store. |
| DeliverTasks.VoiceLabelFirst | workers/tasks/deliver.py:43-50 | The only board change is the generating-voice label, added before the speech service is called. |
| DeliverTasks.VoiceFinishedStores | workers/tasks/deliver.py:53-68 | A finished run stores, for a day, the audio made from the stored script with the channel's voice, and merges its size and duration into the stats. |
| DeliverTasks.VoiceUnfinishedKeepsStats | workers/tasks/deliver.py:53-79 | A run that does not finish leaves the script and the stats as they were. |
| DeliverTasks.StoreVoiceResult | workers/tasks/deliver.py:58-68 | Storing on the store has the outcome and new entries of `StoreVoice`. |
| DeliverTasks.GenerateVoice | workers/tasks/deliver.py:22-79 | `generate_voice` has the outcome, board and store that `GenerateVoiceSpec` defines. |
| DeliverTasks.GenerateVoiceSpec | workers/tasks/deliver.py:22-79 | `generate_voice` raises, finishes or retries, and a raised run changes neither the board nor the store. |
| DeliverTasks.DeliveredCommentIsBotComment | workers/tasks/deliver.py:125-130 | The delivery comment starts with the bot marker `**`. |
| DeliverTasks.DeliveryLog | workers/tasks/deliver.py:115-130 | voice.mp3 first, the comment last, and three entries exactly when there is a script to attach. |
| DeliverTasks.PostDelivery | workers/tasks/deliver.py:115-130 | Steps 1 to 3 leave labels, list and board alone, and on success append exactly the delivery log to the history. |
| DeliverTasks.AnnounceKeepsLabels | workers/tasks/deliver.py:115-133 | Steps 1 to 4 leave the card's labels alone. |
| DeliverTasks.AnnounceOrder | workers/tasks/deliver.py:115-133 | A successful announcement logs, in order: the audio, the script when there is one, the comment with the script's word count, and the move to the ready list. |
| DeliverTasks.Announce | workers/tasks/deliver.py:115-133 | Steps 1 to 4 leave the board's lists alone, and succeed only when a list matches the ready list's name. |
| DeliverTasks.CleanupKeepsPlace | workers/tasks/deliver.py:135-140 | The label cleanup leaves the card in the list it was moved to. |
| DeliverTasks.CleanupLogsLabels | workers/tasks/deliver.py:135-140 | The cleanup records label actions only. |
| DeliverTasks.CleanupKeepsOthers | workers/tasks/deliver.py:136-139 | The cleanup keeps every card label not named like one of the four it removes. |
| DeliverTasks.CleanupKeepsWritingAndError | workers/tasks/deliver.py:136-140 | With distinct label names, the cleanup never takes off the writing or the error label. |
| DeliverTasks.CleanupMarksDone | workers/tasks/deliver.py:140 | On a well-formed board, a successful cleanup leaves the done label on the card. |
| DeliverTasks.CleanupClearsStages | workers/tasks/deliver.py:135-140 | On a well-formed board whose catalogue holds each of the four names at most once, with distinct label names, a successful cleanup leaves none of the trigger, review, approved and generating-voice labels on the card. |
| DeliverTasks.DeliverBodyClearsStages | workers/tasks/deliver.py:114-140 | On such a board, a finished body leaves none of the four labels on the card. |
| DeliverTasks.Delivered | workers/tasks/deliver.py:146-151 | After delivery the audio key is gone, the stats gain `step_deliver_duration` and are kept for seven days, and every other key is unchanged. |
| DeliverTasks.DeliverBody | workers/tasks/deliver.py:142-156 | The body is done or retried; a retried body leaves the store alone, and a done one leaves the store `Delivered` defines. |
| DeliverTasks.DeliverNeedsAudio | workers/tasks/deliver.py:100-103 | Without non-empty stored audio, `deliver` raises before touching the card or the store. |
| DeliverTasks.DeliverBodyOrder | workers/tasks/deliver.py:114-140 | A finished body logs the announcement and moves the card, then records label actions only. |
| DeliverTasks.DeliveredOrder | workers/tasks/deliver.py:114-140 | A delivered card got, in order: the audio, the script only when one is stored (the comment then counts its words, and 0 otherwise), the comment, the move, then label actions only; `DeliveredClearsStages` says which labels they leave. |
| DeliverTasks.DeliveredStore | workers/tasks/deliver.py:146-151 | A delivery drops the stored audio, keeps the script, and adds its duration to the stats, which are kept for seven days. |
| DeliverTasks.DeliveredKeepsScript | workers/tasks/deliver.py:146-151 | A delivery leaves the stored script as it was. |
| DeliverTasks.UndeliveredKeepsStore | workers/tasks/deliver.py:154-156 | A delivery that stops after reading the audio and script changes nothing in the store. |
| DeliverTasks.DeliverBodyLabels | workers/tasks/deliver.py:135-140 | On a well-formed board, a finished body marks the card done and keeps its writing and error labels. |
| DeliverTasks.DeliveredLabels | workers/tasks/deliver.py:135-140 | On a well-formed board with distinct label names, a delivered card is done and keeps its writing and error labels. |
| DeliverTasks.DeliveredClearsStages | workers/tasks/deliver.py:135-140 | On a well-formed board whose catalogue holds each of the four names at most once, with distinct label names, a delivered card carries the done label and none of the trigger, review, approved and generating-voice labels. |
| DeliverTasks.AnnounceDelivery | workers/tasks/deliver.py:115-133 | Steps 1 to 4, run on the board, have the result and new board of `Announce`. |
| DeliverTasks.PostDeliveryFiles | workers/tasks/deliver.py:115-130 | Steps 1 to 3, run on the board, have the result and new board of `PostDelivery`. |
| DeliverTasks.CleanupLabels | workers/tasks/deliver.py:135-140 | Step 5, run on the board, has the result and new board of `Cleanup`. |
| DeliverTasks.Deliver | workers/tasks/deliver.py:88-156 | `deliver` has the outcome, board and store that `DeliverSpec` defines. |
| DeliverTasks.DeliverSpec | workers/tasks/deliver.py:88-156 | `deliver` raises, is done or retries, and a raised run changes neither the board nor the store. |
| DeliverTasks.DeliverFiles | workers/tasks/deliver.py:142-156 | The `try` body, run on the board and the store, has the outcome, board and store of `DeliverBody`. |
| Pipeline.ScriptPipeline | workers/tasks/pipeline.py:15-22 | The script chain is exactly `write_script`, and it and its error callback get the same card, channel and name. |
| Pipeline.VoicePipeline | workers/tasks/pipeline.py:26-34 | The voice chain is `generate_voice` then `deliver`, and both and the error callback get the same card, channel and name. |
| Pipeline.PipelinesDisjoint | workers/tasks/pipeline.py:15-34 | The two chains share no stage. |
| Pipeline.ErrorCommentIsBotComment | workers/tasks/pipeline.py:54-57 | The escalation comment starts with the bot marker `**`. |
| Pipeline.ErrorCommentNamesParent | workers/tasks/pipeline.py:47-48 | The escalation comment names the failed parent task. |
| Pipeline.EscalationLog | workers/tasks/pipeline.py:50-62 | Escalation logs label actions, then at most the one comment, which is posted exactly when the label was added and the comment request went through. |
| Pipeline.EscalationMarksCard | workers/tasks/pipeline.py:53 | On a well-formed board, a successful label request leaves the error label on the card, whatever happens to the comment. |
| Pipeline.OnPipelineError | workers/tasks/pipeline.py:38-62 | The callback leaves the board that `OnPipelineErrorSpec` defines and never raises. |
| Pipeline.OnPipelineErrorSpec | workers/tasks/pipeline.py:38-62 | Escalation takes no label off the card, adds no attachment and leaves the card in its list. |
| Pipeline.ScriptReachesVoice | workers/tasks/deliver.py:35-40 | After a finished `write_script`, `generate_voice` does not raise for a missing script and voices exactly the written text. |
| Pipeline.VoiceReachesDelivery | workers/tasks/deliver.py:100-103 | After a finished `generate_voice` with non-empty audio, `deliver`'s audio guard passes and it delivers the audio the speech service produced. |
| Pipeline.EmptyAudioStopsDelivery | workers/tasks/deliver.py:101-103 | When the speech service returns no bytes, `generate_voice` still finishes, and the `deliver` that follows raises. |
| Pipeline.SentinelReachesSpeech | workers/tasks/deliver.py:36-40 | With the router's "1" still stored, the voice step sends "1" to the speech service. |
| Webhook.CallbackUrlDefaults | api/main.py:57-59 | Without proxy headers, the callback URL is `https://` with the request's own host and path. |
| Webhook.CallbackUrlForwarded | api/main.py:57-59 | Behind a proxy, the forwarded scheme and host are used instead of the request's own. |
| Webhook.ForwardedHostWins | api/main.py:58 | With a forwarded host, the request's own `Host` header does not matter. |
| Webhook.LabelNames | api/main.py:96-98 | The label names are exactly the lower-cased forms of the non-empty names present on the card. |
| Webhook.CommentRoute | api/main.py:104-124 | A comment either queues a revision or is ignored, and an ignored one enqueues nothing. |
| Webhook.ApprovedRoute | api/main.py:127-143 | The approval route either enqueues the voice chain or is ignored, and an ignored one enqueues nothing and leaves the store alone. |
| Webhook.TriggerRoute | api/main.py:146-170 | The trigger route either enqueues the script chain or is ignored, and an ignored one enqueues nothing and leaves the store alone. |
| Webhook.BadSignatureRejected | api/main.py:61-63 | A request whose signature does not verify gets 401 before anything else. |
| Webhook.OtherActionsIgnored | api/main.py:70-73 | Any other action type is ignored with `action_type=<type>`, before the card is read: nothing is enqueued and the store is untouched. |
| Webhook.MissingCardIgnored | api/main.py:77-80 | A relevant event without a card id is ignored with "no card_id" before the card is read. |
| Webhook.UnreadableCardFails | api/main.py:84-94 | A card that cannot be read fails the request; nothing is enqueued or locked. |
| Webhook.CommentsOnlyRevise | api/main.py:104-124 | A comment never reaches the voice or script routes: it never touches the store and enqueues at most a revision of that card. |
| Webhook.RevisionQueuedExactly | api/main.py:108-124 | A revision is queued exactly when the comment does not start with `**` and the card carries the review label and a snap channel; it carries that channel's name, the card name and the comment. |
| Webhook.BotCommentIgnored | api/main.py:108-109 | A comment that starts with `**` is ignored as "bot comment". |
| Webhook.EscalationNotRevised | api/main.py:108-109 | The pipeline's own error comment, coming back as an event, never queues a revision. |
| Webhook.ScriptStartsExactly | api/main.py:145-170 | On any label addition other than the approved label, the script chain starts exactly when the card carries the trigger label and a snap channel and no script key exists; the key then holds "1" for a day. |
| Webhook.VoiceStartsExactly | api/main.py:127-143 | Adding the approved label, in any case, starts the voice chain exactly when the card carries a snap channel and no voice key exists; the key then holds "1" for a day. |
| Webhook.ApprovalNeverWrites | api/main.py:127-143 | Once the approved label is seen, the trigger route is not consulted: an approval never starts the script chain. |
| Webhook.RouteStoreChange | api/main.py:133-160 | The store changes only by the one lock the route took, for the event's card. |
| Webhook.WebhookRoutes | api/main.py:96-101 | Past the signature, action-type and card-id steps, the handler is the route on the card's lower-cased label names. |
| Webhook.VoiceOncePerLock | api/main.py:133-136 | After a request started the voice chain for a card, no request for that card starts another while the key is held. |
| Webhook.ScriptOncePerLock | api/main.py:157-160 | After a request started the script chain for a card, no request for that card starts another while the key is held. |
| Webhook.TrelloWebhook | api/main.py:51-170 | The handler run on the store has the reply, jobs and new store that `WebhookSpec` defines. |
| Webhook.WebhookSpec | api/main.py:51-170 | At most one job is enqueued, and a request that enqueues nothing leaves the store alone. |
| Webhook.RouteEvent | api/main.py:103-170 | The routes, taking the lock with `SET NX` on the store, have the reply, jobs and new store that `Route` defines. |
| Webhook.Route | api/main.py:103-170 | At most one job is enqueued, a reply is "ignored" exactly when nothing is, and the store changes only when a job is enqueued by a label route. |
| Webhook.ResetKeys | api/main.py:39-41 | Three keys are cleared, and the stats key is not one of them. |
| Webhook.ResetCardSpec | api/main.py:36-42 | Clearing removes exactly the three keys, keeps every other entry, and reports how many of them existed (at most 3). |
| Webhook.ResetKeepsStats | api/main.py:36-42 | A reset keeps the card's stats and every other card's keys, and a second reset deletes nothing. |
| Webhook.ResetReopensLocks | api/main.py:36-42 | After a reset, the webhook can take both locks again. |
| Webhook.ResetCard | api/main.py:36-42 | The endpoint run on the store leaves the entries and returns the count that `ResetCardSpec` defines. |
| ScriptEditor.Escape | api/script_editor.py:150 | The escaped text holds no raw `<`, `>` or `"`, and is at least as long as the script. |
| ScriptEditor.EscapeHtmlIsEscape | api/script_editor.py:150 | The chain of four replacements, `&` first, escapes each character on its own: the entities it adds are not escaped again. |
| ScriptEditor.EscapeRoundTrip | api/script_editor.py:150 | Decoding the four entities in the text area gives back exactly the stored script. |
| ScriptEditor.EscapedHasNoMarkup | api/script_editor.py:150 | No script can close the text area or open a tag: no raw `<`, `>` or `"` survives the escape. |
| ScriptEditor.RenderEditorFillsSlots | api/script_editor.py:148-153 | When neither the card title nor the script contains `{{` or ends with `{`, the chain of replacements leaves the title, the escaped script and the card id each in its own placeholder, verbatim. |
| ScriptEditor.RenderEditorAgrees | api/script_editor.py:148-153 | When neither the card title nor the script contains `{{` or ends with `{`, the page as written is the page with each placeholder filled once. |
| ScriptEditor.BodyFilled | api/script_editor.py:149-151 | The body's two replacements put the title, then the escaped text, into their places when the title cannot start a placeholder. |
| ScriptEditor.CodeFilled | api/script_editor.py:152 | The card id goes into the script code verbatim, whatever it holds. |
| ScriptEditor.BodyPlaced | api/script_editor.py:153 | The page's `{{BODY}}` replacement puts in the body as it is and leaves `{{SCRIPT}}` for the next step. |
| ScriptEditor.PageFilled | api/script_editor.py:153 | When the body cannot start a placeholder, the page holds the body and then the script code, each once. |
| ScriptEditor.ScriptMarkAsWritten | api/script_editor.py:148-153 | A script that is exactly `{{SCRIPT}}` ends up as the page's script code in the text area. |
| ScriptEditor.ScriptMarkShowsCode | api/script_editor.py:148-153 | For a script that is exactly `{{SCRIPT}}`, the page as written differs from the page with each placeholder filled once. |
| ScriptEditor.CardName | api/script_editor.py:24-44 | "Unknown Card" without credentials or when the request fails; otherwise the card's name when it has one. |
| ScriptEditor.EditPageDecision | api/script_editor.py:161-173 | The page is "not found" exactly when the key is absent, "being generated" when it holds "1", and otherwise the editor on the stored text under the card's name. |
| ScriptEditor.EditScriptPage | api/script_editor.py:161-173 | The page handler run on the store returns the view `EditPageSpec` defines. |
| ScriptEditor.EditPageSpec | api/script_editor.py:162-174 | The page is "not found" exactly when the script key is absent, and the editor is shown only when it is present. |
| ScriptEditor.BlankSaveRefused | api/script_editor.py:178-180 | An empty or whitespace-only script, or none, gets 400 "Script cannot be empty", and nothing changes. |
| ScriptEditor.MissingScriptRefused | api/script_editor.py:182-185 | A non-blank script for a card with no stored script gets 404 "Script not found in Redis", and nothing changes. |
| ScriptEditor.SaveOverwrites | api/script_editor.py:187-189 | A non-blank script over an existing key, the "1" lock included, is stored for seven days and saved with its positive word count; every other key is unchanged, whatever happens on Trello. |
| ScriptEditor.ViewOfText | api/script_editor.py:166-173 | Stored text reads back as the "being generated" page when it is "1", and as the editor on that text otherwise; when neither the text nor the card name can start a placeholder, the page holds the name, the escaped text and the card id in their places. |
| ScriptEditor.SaveThenView | api/script_editor.py:166-187 | After a save, the page shows the editor on the saved script, unless the script is "1" itself; when neither the script nor the card name can start a placeholder, its text area holds the escaped script, which decodes back to the script. |
| ScriptEditor.SavedStore | api/script_editor.py:187 | A save over an existing key stores exactly the new script with the seven-day TTL. |
| ScriptEditor.SaveBoardEffects | api/script_editor.py:191-215 | Without credentials the board is untouched; with them it sees at most the attachment, then the comment. |
| ScriptEditor.UpdateCard | api/script_editor.py:191-215 | The board update never changes the card's labels, list or the label catalogue, and does nothing without credentials. |
| ScriptEditor.SaveSpec | api/script_editor.py:176-218 | A refused save changes neither the store nor the board; a save needs an existing script key, changes no other key, and reports a positive word count. |
| ScriptEditor.SaveScript | api/script_editor.py:176-218 | The save handler run on the store and the board has the reply, entries and board that `SaveSpec` defines. |

## Left out

- The webhook signature (`api/trello_auth.py`) is a parameter of the handler: the model does not recompute HMAC-SHA1 and base64.
- The speech service (`services/elevenlabs.py`) is a parameter that returns audio bytes and a duration, or an error.
- The language model's request is a function from attempt number to message or error text. Prompt assembly (`full_system`, user blocks and images) is not modelled, since it only builds the request.
- Page fetches, oEmbed, `time.time()`, JSON encoding, UTF-8 decoding and `str.encode` are parameters. The Trello read in `_get_card_name` is an argument of the page handler.
- Floating-point cost, size in MB and durations are not computed. Durations are opaque values, and the comment texts omit the figures that need float formatting.
- Celery itself is not modelled: retry scheduling and its countdown, `max_retries`, the firing of `link_error`, and the broker. A task's `self.retry` is the `Retried` outcome.
- `workers/utils.py` (the event loop bridge), `workers/celery_app.py` and `main.py` are not part of this model.
- KeyValue.Store: Redis errors are not modelled. `GET`, `SET`, `SET NX` and `DEL` always succeed, so no path where a Redis command raises is reachable. This leaves out, among others:
  - the `SET` of the finished script in `write_script` (workers/tasks/script.py:136) failing after the card was published: the retry then finds the review label and skips, the store keeps the lock value "1", and a later `generate_voice` would voice "1";
  - the `SET NX` locks of the webhook (api/main.py:133-134 and 157-158) raising, which fails the request;
  - the reads in `deliver` (workers/tasks/deliver.py:101-112) and in the editor's page and save handlers (api/script_editor.py:163-164 and 182-187) raising.
- TTL expiry is the explicit `KeyValue.Store.Expire` step rather than elapsed time.
- `csv.reader` tokenisation is not modelled: the sheet loader receives the rows already split into cells.
- Label names in a Python set are iterated in hash order. The model iterates the card's labels in card order, and `Settings.SnapChannelOrderIrrelevant` shows the order cannot matter when at most one label qualifies.
- Lower-casing folds ASCII letters only; Unicode case mapping is not modelled.
- `urlsplit` is modelled for scheme, network location and the unbalanced-bracket error only. Ports, user info and IPv6 literals are not examined further.
- Regular expressions are replaced by scanners for the exact patterns used. The HTML block pattern's back-reference is a case-insensitive search for the matching closing tag.
- The browser reads the editor's text area back with a decoder for the four entities the page writes; other character references are not decoded.
- The HTML, CSS and JavaScript text of the editor templates and `_render_message` are not modelled. Each template is cut at its placeholders and its pieces are parameters. The layout lemmas assume that no piece contains `{{` or ends with `{` (`ScriptEditor.PlainPieces`); every `{{` in the templates at api/script_editor.py:47-145 opens one of the five placeholders.
- ScriptEditor.RenderEditor: the page is proved to hold each value in its own place only when neither the card title nor the script contains `{{` or ends with `{`. A script or title holding `{{SCRIPT}}`, or a title holding `{{SCRIPT_TEXT}}`, has other text put in its place as written (see "Findings").
- ScriptEditor.RenderEditor: the browser's HTML parser drops one newline directly after `<textarea>`, so a script that starts with a newline reads back without it. HTML parsing is not modelled; `EscapeRoundTrip` is about the text area's content as written.
- `get_card_labels`' default for a missing `labels` field is not modelled: a card in the model always has its label list. The same holds for missing `name`, `desc`, `mimeType` and `url` fields, which read as empty strings.
- JSON values other than text and stats objects are not modelled. A stored value that is neither text, bytes nor a stats object does not occur.
- The board holds one card; a request for another card id fails with 404.
- `health` and `trello_validation` return constants and are not modelled.

## Findings

| source | as written | input that shows it | evidently intended | confidence | as-written member | corrected member |
|---|---|---|---|---|---|---|
| api/script_editor.py:148-153 | the title and the escaped script are put into the body before the body is searched for `{{SCRIPT_TEXT}}` and the page for `{{SCRIPT}}`, so inserted text is searched again | a script that is exactly `{{SCRIPT}}`: the text area shows the page's own script code instead | each placeholder is filled once, and text put in is never searched again | not executed | ScriptEditor.ScriptMarkShowsCode | ScriptEditor.RenderEditorIntended |
| services/research.py:47-51 | `_is_twitter_url` tests whether `twitter.com` or `x.com` is a substring of the domain | `http://box.com` (also netflix.com, dropbox.com): the domain contains `x.com`, so the URL is sent to Twitter's oEmbed instead of being fetched as a page | the host is twitter.com or x.com, or a subdomain of one of them | not executed | Research.BoxFetchedAsTweet | Research.FetchUrlContentIntended |

`Research.IsTwitterUrl` is the test as written and `Research.FetchUrlContent` uses it, so `prepare_context` and the tasks above it behave as the code does. The corrected test is `Research.IsTweetUrl`, used by `Research.FetchUrlContentIntended`. `Research.TweetUrlAcceptsTwitterHosts` and `Research.BoxDomainMisread` prove that it accepts the Twitter hosts and rejects box.com. `Research.FetchDiffersOnlyWhenMisread` proves that the two fetches differ only on the URLs the written test misreads.

`ScriptEditor.RenderEditor` is the page as written, and the editor handler uses it. `ScriptEditor.RenderEditorIntended` fills the body and the page each in one left-to-right pass (`ScriptEditor.Fill`), and its contract states that it holds the title, the escaped script and the card id in their places for every title and script. `ScriptEditor.RenderEditorAgrees` proves the two agree whenever neither the title nor the script contains `{{` or ends with `{`.
