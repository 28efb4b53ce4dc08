/**
 * The script stage of `workers/tasks/script.py`: `write_script`, which
 * researches the card, has the model client write a script, attaches it
 * and pauses the card for review, and `revise_script`, which rewrites the
 * stored script from a producer's comment.
 *
 * Each task is a spec function from the board and the store to a `Run`,
 * and a method that performs the same steps on a `TrelloClient.Board` and
 * a `KeyValue.Store` and is proved to leave them as the spec function says.
 * The pipeline config, the web, the model client and the measured
 * durations are parameters of each worker.
 */
module ScriptTasks {
  import opened Results
  import opened PyStr
  import opened KeyValue
  import opened Trello
  import opened Settings
  import opened Tasks
  import Research
  import Claude
  import TrelloClient

  /** The decorators' retry settings of the two tasks. */
  const WriteMaxRetries: nat := 3
  const WriteRetryDelay: nat := 60
  const ReviseMaxRetries: nat := 2
  const ReviseRetryDelay: nat := 30

  /** Characters of the script quoted in the comment. */
  const PreviewChars: nat := 500

  /** The placeholder in a channel prompt that the card name replaces. */
  const TitlePlaceholder: string := "INSERT TITLE"

  const ScriptMissing: string := "Script not found in Redis — may have expired"

  datatype Image = Image(name: string, url: string)

  /** What `write_script` sends to the model client. */
  datatype ScriptRequest = ScriptRequest(
    system: string,
    topic: string,
    instructions: string,
    articles: seq<Research.Article>,
    images: Option<seq<Image>>)

  /** What `revise_script` sends to the model client. */
  datatype RevisionRequest = RevisionRequest(system: string, current: string, feedback: string)

  /**
   * What `write_script` depends on besides the board and the store: the
   * pipeline config, the web, the model client's answers to each request,
   * the measured durations, the configured web URL, and the rendering of
   * the comment's cost, token and time line from the client's stats.
   */
  datatype WriteEnv = WriteEnv(
    config: PipelineConfig,
    web: Research.Web,
    claude: ScriptRequest -> Claude.Api,
    claudeElapsed: real,
    duration: real,
    webUrl: string,
    figures: Stats -> string)

  // ---------------------------------------------------------------------
  // The stale-task guard

  /** The lower-cased labels that mean the card is past the writing stage. */
  function SkipNames(l: Labels): set<string> {
    {Lower(l.review), Lower(l.approved), Lower(l.generatingVoice), Lower(l.done)}
  }

  predicate HasSkipLabel(l: Labels, labels: seq<Label>) {
    exists i :: 0 <= i < |labels| && Lower(labels[i].name) in SkipNames(l)
  }

  // ---------------------------------------------------------------------
  // The image filter

  /** An attachment passed to the model as an image. */
  predicate IsImage(a: Attachment) {
    StartsWith(a.mimeType, "image/") && a.url != []
  }

  /** The images among the attachments, in attachment order. */
  function ImageAttachments(atts: seq<Attachment>): (r: seq<Image>)
    ensures |r| <= |atts|
  {
    if atts == [] then []
    else
      var a := atts[|atts| - 1];
      var rest := ImageAttachments(atts[..|atts| - 1]);
      if IsImage(a) then rest + [Image(a.name, a.url)] else rest
  }

  /** Filtering a concatenation filters each part, in order. */
  lemma {:induction false} ImageAttachmentsAppend(a: seq<Attachment>, b: seq<Attachment>)
    ensures ImageAttachments(a + b) == ImageAttachments(a) + ImageAttachments(b)
    decreases |b|
  {
    if b == [] {
      assert a + b == a;
    } else {
      assert (a + b)[..|a + b| - 1] == a + b[..|b| - 1];
      ImageAttachmentsAppend(a, b[..|b| - 1]);
    }
  }

  /** An image is passed exactly when some attachment with an image type and a URL carries its name and URL. */
  lemma {:induction false} ImageAttachmentsExact(atts: seq<Attachment>, im: Image)
    ensures im in ImageAttachments(atts) <==> exists a :: a in atts && IsImage(a) && im == Image(a.name, a.url)
  {
    if atts != [] {
      var init := atts[..|atts| - 1];
      var a := atts[|atts| - 1];
      ImageAttachmentsExact(init, im);
      assert atts == init + [a];
      if im in ImageAttachments(atts) && !(im in ImageAttachments(init)) {
        assert a in atts;
      }
      if exists x :: x in atts && IsImage(x) && im == Image(x.name, x.url) {
        var x :| x in atts && IsImage(x) && im == Image(x.name, x.url);
        if x != a {
          assert x in init;
        }
      }
    }
  }

  method FilterImages(atts: seq<Attachment>) returns (images: seq<Image>)
    ensures images == ImageAttachments(atts)
  {
    images := [];
    var i := 0;
    while i < |atts|
      invariant 0 <= i <= |atts|
      invariant images == ImageAttachments(atts[..i])
    {
      var a := atts[i];
      assert atts[..i + 1][..i] == atts[..i];
      if StartsWith(a.mimeType, "image/") && a.url != [] {
        images := images + [Image(a.name, a.url)];
      }
      i := i + 1;
    }
    assert atts[..i] == atts;
  }

  // ---------------------------------------------------------------------
  // Text of the prompt and of the comments

  /** The channel prompt with the card name in place of every placeholder. */
  function SystemPrompt(prompt: string, cardName: string): string {
    Replace(prompt, TitlePlaceholder, cardName)
  }

  /** The first 500 characters of the script, followed by "..." when the script is longer. */
  function Preview(script: string): (p: string)
    ensures |script| <= PreviewChars ==> p == script
    ensures |script| > PreviewChars ==> |p| == PreviewChars + 3 && p[..PreviewChars] == script[..PreviewChars]
    ensures |script| > PreviewChars ==> EndsWith(p, "...")
  {
    if |script| > PreviewChars then script[..PreviewChars] + "..." else script
  }

  function SourcesNote(articles: nat): string {
    if articles == 0 then [] else " | " + NatToString(articles) + " article(s) fetched"
  }

  function ImagesNote(images: nat): string {
    if images == 0 then [] else " | " + NatToString(images) + " image(s)"
  }

  const GeneratedHeading: string := "**Snap Script Generated** ("
  const RevisedHeading: string := "**Snap Script Revised** ("

  /** The comment posted with a new script: the heading, then the figures, the review request and the preview. */
  function GeneratedComment(env: WriteEnv, cardId: string, req: ScriptRequest, written: Claude.Written): string {
    GeneratedHeading + GeneratedDetails(env, cardId, req, written)
  }

  function GeneratedDetails(env: WriteEnv, cardId: string, req: ScriptRequest, written: Claude.Written): string {
    var images := if req.images.Some? then |req.images.value| else 0;
    NatToString(WordCount(written.script)) + " words, " + NatToString(|written.script|) + " chars)\n"
    + env.figures(written.stats) + SourcesNote(|req.articles|) + ImagesNote(images)
    + "\n\nReview the script and add **Snap Approved** label when ready." + EditLink(env.webUrl, cardId)
    + "\n\n" + Preview(written.script)
  }

  /** A comment that starts with the heading starts with the bot marker `**`. */
  lemma HeadingMarksBot(heading: string, rest: string)
    requires StartsWith(heading, "**")
    ensures StartsWith(heading + rest, "**")
  {
    assert (heading + rest)[..2] == heading[..2];
  }

  /** The script comment carries the bot marker, so the webhook ignores it. */
  lemma GeneratedCommentIsBotComment(env: WriteEnv, cardId: string, req: ScriptRequest, written: Claude.Written)
    ensures StartsWith(GeneratedComment(env, cardId, req, written), "**")
  {
    HeadingMarksBot(GeneratedHeading, GeneratedDetails(env, cardId, req, written));
  }

  // ---------------------------------------------------------------------
  // write_script, stage by stage

  /**
   * Steps 1 to 5 of the worker body: the writing label, the card, the
   * research context, the images, and the channel prompt, which fails when
   * the channel label names no channel.
   */
  function Gather(env: WriteEnv, w: World, cardId: string, channelLabel: string, cardName: string): (c: Call<ScriptRequest>)
    ensures c.world.card.labels == AddLabelByName(w, cardId, env.config.labels.writing).world.card.labels
    ensures c.world.log == AddLabelByName(w, cardId, env.config.labels.writing).world.log
    ensures c.world.catalogue == AddLabelByName(w, cardId, env.config.labels.writing).world.catalogue
    ensures c.world.nextId == AddLabelByName(w, cardId, env.config.labels.writing).world.nextId
    ensures c.result.Success? ==> AddLabelByName(w, cardId, env.config.labels.writing).result.Success? && GetChannel(env.config, channelLabel).Some?
  {
    var a := AddLabelByName(w, cardId, env.config.labels.writing);
    if a.result.Failure? then Call(Failure(a.result.error), a.world)
    else
      var g := GetCard(a.world, cardId);
      if g.result.Failure? then Call(Failure(g.result.error), g.world)
      else
        var context := Research.PrepareContextSpec(env.web, g.result.value.desc);
        if context.Failure? then Call(Failure(context.error), g.world)
        else
          var at := GetCardAttachments(g.world, cardId);
          if at.result.Failure? then Call(Failure(at.result.error), at.world)
          else
            var channel := GetChannel(env.config, channelLabel);
            if channel.None? then Call(Failure(NoAttribute("load_prompt")), at.world)
            else
              var images := ImageAttachments(at.result.value);
              Call(Success(ScriptRequest(SystemPrompt(channel.value.prompt, cardName), cardName,
                                         context.value.instructions, context.value.articles,
                                         if images == [] then None else Some(images))),
                   at.world)
  }

  /** Steps 6 and 7: attach the script and the research log, comment, then swap the writing label for the review label. */
  function Publish(l: Labels, w: World, cardId: string, written: Claude.Written, comment: string): Call<()> {
    var s := AttachTextFile(w, cardId, "script.txt", written.script);
    if s.result.Failure? then s
    else
      var r := AttachTextFile(s.world, cardId, "research.txt", written.research);
      if r.result.Failure? then r
      else
        var c := AddComment(r.world, cardId, comment);
        if c.result.Failure? then c
        else
          var rm := RemoveLabelByName(c.world, cardId, l.writing);
          if rm.result.Failure? then rm
          else AddLabelByName(rm.world, cardId, l.review)
  }

  /** A published script leaves, after the log before, the two files and the comment, then label changes only. */
  lemma PublishLog(l: Labels, w: World, cardId: string, written: Claude.Written, comment: string)
    requires Publish(l, w, cardId, written, comment).result.Success?
    ensures ExtendsWithLabelActions(w.log + [Attached("script.txt"), Attached("research.txt"), Commented(comment)],
                                    Publish(l, w, cardId, written, comment).world.log)
  {
    var s := AttachTextFile(w, cardId, "script.txt", written.script);
    var r := AttachTextFile(s.world, cardId, "research.txt", written.research);
    var c := AddComment(r.world, cardId, comment);
    var rm := RemoveLabelByName(c.world, cardId, l.writing);
    assert s.world.log == w.log + [Attached("script.txt")];
    assert r.world.log == s.world.log + [Attached("research.txt")];
    assert c.world.log == r.world.log + [Commented(comment)];
    AppendThree(w.log, Attached("script.txt"), Attached("research.txt"), Commented(comment));
    RemoveLabelLogsLabels(c.world, cardId, l.writing);
    AddLabelLogsLabels(rm.world, cardId, l.review);
    ExtendsWithLabelActionsTrans(c.world.log, rm.world.log, Publish(l, w, cardId, written, comment).world.log);
  }

  /** Three entries appended one at a time are the three appended at once. */
  lemma AppendThree<T>(xs: seq<T>, a: T, b: T, c: T)
    ensures xs + [a] + [b] + [c] == xs + [a, b, c]
  {
  }

  /** A published script adds exactly two attachments to the card: the script, then the research log. */
  lemma PublishAttaches(l: Labels, w: World, cardId: string, written: Claude.Written, comment: string)
    requires Publish(l, w, cardId, written, comment).result.Success?
    ensures Publish(l, w, cardId, written, comment).world.card.attachments
            == w.card.attachments + [Attachment("script.txt", TextMime, "", TextBody(written.script)),
                                     Attachment("research.txt", TextMime, "", TextBody(written.research))]
  {
    var s := AttachTextFile(w, cardId, "script.txt", written.script);
    var r := AttachTextFile(s.world, cardId, "research.txt", written.research);
    var c := AddComment(r.world, cardId, comment);
    var rm := RemoveLabelByName(c.world, cardId, l.writing);
    assert c.world.card.attachments == w.card.attachments + [Attachment("script.txt", TextMime, "", TextBody(written.script)),
                                                             Attachment("research.txt", TextMime, "", TextBody(written.research))];
    RemoveLabelFirstMatchOnly(c.world, cardId, l.writing);
    LabelChangesKeepPlace(rm.world, cardId, l.review);
  }

  /** On a well-formed board a published script leaves the review label on the card, and the board well formed. */
  lemma PublishUnderReview(l: Labels, w: World, cardId: string, written: Claude.Written, comment: string)
    requires WellFormed(w) && Publish(l, w, cardId, written, comment).result.Success?
    ensures HasLabel(Publish(l, w, cardId, written, comment).world.card, l.review)
    ensures WellFormed(Publish(l, w, cardId, written, comment).world)
  {
    var s := AttachTextFile(w, cardId, "script.txt", written.script);
    var r := AttachTextFile(s.world, cardId, "research.txt", written.research);
    var c := AddComment(r.world, cardId, comment);
    var rm := RemoveLabelByName(c.world, cardId, l.writing);
    assert c.world.card.labels == w.card.labels && c.world.catalogue == w.catalogue && c.world.nextId == w.nextId;
    RemoveLabelKeepsWellFormed(c.world, cardId, l.writing);
    AddLabelGivesLabel(rm.world, cardId, l.review);
    AddLabelKeepsWellFormed(rm.world, cardId, l.review);
  }

  /**
   * On a well-formed board whose catalogue holds the writing label's name at
   * most once, a published script leaves no writing label on the card when the
   * review label's name differs from it.
   */
  lemma PublishClearsWriting(l: Labels, w: World, cardId: string, written: Claude.Written, comment: string)
    requires WellFormed(w) && NameAtMostOnce(w.catalogue, l.writing) && !SameName(l.review, l.writing)
    requires Publish(l, w, cardId, written, comment).result.Success?
    ensures !HasLabel(Publish(l, w, cardId, written, comment).world.card, l.writing)
  {
    var s := AttachTextFile(w, cardId, "script.txt", written.script);
    var r := AttachTextFile(s.world, cardId, "research.txt", written.research);
    var c := AddComment(r.world, cardId, comment);
    var rm := RemoveLabelByName(c.world, cardId, l.writing);
    assert c.world.card.labels == w.card.labels;
    CardNameAtMostOnce(w, l.writing);
    RemoveLabelClears(c.world, cardId, l.writing);
    AddLabelKeepsAbsent(rm.world, cardId, l.review, l.writing);
  }

  /** The stats keys `write_script` sets. */
  function ScriptStatKeys(): set<string> {
    {"step_script_duration", "script_word_count", "script_char_count", "script_input_tokens",
     "script_output_tokens", "script_cost_usd", "claude_duration"}
  }

  /** The update `write_script` merges into the card's stats. */
  function ScriptRunStats(claude: Stats, duration: real): (s: Stats)
    ensures s.Keys == ScriptStatKeys()
    ensures s["script_word_count"] == Stat(claude, "word_count") && s["script_char_count"] == Stat(claude, "char_count")
  {
    map["step_script_duration" := Measure(duration),
        "script_word_count" := Stat(claude, "word_count"),
        "script_char_count" := Stat(claude, "char_count"),
        "script_input_tokens" := Stat(claude, "input_tokens"),
        "script_output_tokens" := Stat(claude, "output_tokens"),
        "script_cost_usd" := Stat(claude, "cost_usd"),
        "claude_duration" := Stat(claude, "duration_s")]
  }

  /** After the body: store the script, then merge the stats; a stats value that does not load fails after the script is stored. */
  function StoreScript(kv: Entries, cardId: string, written: Claude.Written, duration: real): (r: (Outcome, Entries))
    ensures r.0 == Finished(written.script) || r.0.Retried?
    ensures ScriptKey(cardId) in r.1 && r.1[ScriptKey(cardId)] == Entry(Text(written.script), ScriptTtl)
    ensures r.0.Retried? ==> r.1 == kv[ScriptKey(cardId) := Entry(Text(written.script), ScriptTtl)]
    ensures r.0.Retried? <==> ReadStats(Lookup(kv, StatsKey(cardId))).Failure?
    ensures r.0.Finished? ==>
              && StatsKey(cardId) in r.1
              && r.1[StatsKey(cardId)] == Entry(Json(Merge(ReadStats(Lookup(kv, StatsKey(cardId))).value, ScriptRunStats(written.stats, duration))), ScriptTtl)
              && r.1 == kv[ScriptKey(cardId) := r.1[ScriptKey(cardId)]][StatsKey(cardId) := r.1[StatsKey(cardId)]]
  {
    KeyFamiliesDisjoint(cardId, cardId);
    var kv1 := kv[ScriptKey(cardId) := Entry(Text(written.script), ScriptTtl)];
    var prev := ReadStats(Lookup(kv1, StatsKey(cardId)));
    if prev.Failure? then (Retried(prev.error), kv1)
    else
      var stats := Merge(prev.value, ScriptRunStats(written.stats, duration));
      (Finished(written.script), kv1[StatsKey(cardId) := Entry(Json(stats), ScriptTtl)])
  }

  /** The body of `write_script` after the guard: every failure in it goes through the retry. */
  function WriteBody(env: WriteEnv, w: World, kv: Entries, cardId: string, channelLabel: string, cardName: string): (run: Run)
    ensures run.outcome.Retried? || run.outcome.Finished?
    ensures run.outcome.Retried? ==> SameExcept(kv, run.kv, {ScriptKey(cardId)})
  {
    var g := Gather(env, w, cardId, channelLabel, cardName);
    if g.result.Failure? then Run(Retried(g.result.error), g.world, kv)
    else
      var req := g.result.value;
      var written := Claude.WriteScriptSpec(env.claude(req), req.instructions, req.articles, env.claudeElapsed);
      if written.Failure? then Run(Retried(written.error), g.world, kv)
      else Finish(env, g.world, kv, cardId, req, written.value)
  }

  /** Steps 6 to 8: publish the written script on the card, then store it and its stats. */
  function Finish(env: WriteEnv, w: World, kv: Entries, cardId: string, req: ScriptRequest, written: Claude.Written): (run: Run)
    ensures run.outcome.Retried? || run.outcome.Finished?
    ensures run.outcome.Retried? ==> SameExcept(kv, run.kv, {ScriptKey(cardId)})
  {
    var p := Publish(env.config.labels, w, cardId, written, GeneratedComment(env, cardId, req, written));
    if p.result.Failure? then Run(Retried(p.result.error), p.world, kv)
    else
      var (outcome, kv1) := StoreScript(kv, cardId, written, env.duration);
      Run(outcome, p.world, kv1)
  }

  /** A finished `Finish` published the script and is what storing it gives. */
  lemma FinishFinished(env: WriteEnv, w: World, kv: Entries, cardId: string, req: ScriptRequest, written: Claude.Written)
    requires Finish(env, w, kv, cardId, req, written).outcome.Finished?
    ensures var p := Publish(env.config.labels, w, cardId, written, GeneratedComment(env, cardId, req, written));
            && p.result.Success?
            && Finish(env, w, kv, cardId, req, written).world == p.world
            && Finish(env, w, kv, cardId, req, written).outcome == StoreScript(kv, cardId, written, env.duration).0
            && Finish(env, w, kv, cardId, req, written).kv == StoreScript(kv, cardId, written, env.duration).1
  {
  }

  /** `write_script`: the stale-task guard, then the body. */
  function WriteScriptSpec(env: WriteEnv, w: World, kv: Entries, cardId: string, channelLabel: string, cardName: string): Run {
    var seen := GetCardLabels(w, cardId);
    if seen.result.Success? && HasSkipLabel(env.config.labels, seen.result.value) then Run(Skipped, seen.world, kv)
    else WriteBody(env, seen.world, kv, cardId, channelLabel, cardName)
  }

  // ---------------------------------------------------------------------
  // Properties of write_script

  /** `write_script` never raises: every failure goes through the retry, so a run is skipped, finished or retried. */
  lemma WriteNeverRaises(env: WriteEnv, w: World, kv: Entries, cardId: string, channelLabel: string, cardName: string)
    ensures var run := WriteScriptSpec(env, w, kv, cardId, channelLabel, cardName);
            run.outcome.Skipped? || run.outcome.Finished? || run.outcome.Retried?
  {
  }

  /**
   * `write_script` skips exactly when the labels could be read and one of them is
   * past the writing stage; a skipped run changes neither the card nor the
   * board nor the store.
   */
  lemma WriteSkipsExactlyStaleCards(env: WriteEnv, w: World, kv: Entries, cardId: string, channelLabel: string, cardName: string)
    ensures var run := WriteScriptSpec(env, w, kv, cardId, channelLabel, cardName);
            run.outcome.Skipped? <==> (GetCardLabels(w, cardId).result.Success? && HasSkipLabel(env.config.labels, w.card.labels))
    ensures var run := WriteScriptSpec(env, w, kv, cardId, channelLabel, cardName);
            run.outcome.Skipped? ==> SameContents(run.world, w) && run.kv == kv
  {
  }

  /** When the labels cannot be read `write_script` goes on: its first change is the writing label. */
  lemma LabelReadFailureProceeds(env: WriteEnv, w: World, kv: Entries, cardId: string, channelLabel: string, cardName: string)
    requires GetCardLabels(w, cardId).result.Failure?
    ensures var run := WriteScriptSpec(env, w, kv, cardId, channelLabel, cardName);
            !run.outcome.Skipped? && w.card.labels <= run.world.card.labels
  {
    var seen := GetCardLabels(w, cardId);
    UnreadableCardRefusesLabel(w, cardId, env.config.labels.writing);
    AddLabelKeepsCardLabels(seen.world, cardId, env.config.labels.writing);
  }

  /** Every run that is not skipped starts by adding the writing label. */
  lemma WriteAddsWritingLabelFirst(env: WriteEnv, w: World, kv: Entries, cardId: string, channelLabel: string, cardName: string)
    requires !WriteScriptSpec(env, w, kv, cardId, channelLabel, cardName).outcome.Skipped?
    ensures var w1 := GetCardLabels(w, cardId).world;
            Gather(env, w1, cardId, channelLabel, cardName).world.log == AddLabelByName(w1, cardId, env.config.labels.writing).world.log
  {
  }

  /** A finished run got past the guard, gathered its inputs and had a script written; the rest is `Finish`. */
  lemma WriteFinishedShape(env: WriteEnv, w: World, kv: Entries, cardId: string, channelLabel: string, cardName: string)
    requires WriteScriptSpec(env, w, kv, cardId, channelLabel, cardName).outcome.Finished?
    ensures var g := Gather(env, GetCardLabels(w, cardId).world, cardId, channelLabel, cardName);
            && g.result.Success?
            && var req := g.result.value;
               var written := Claude.WriteScriptSpec(env.claude(req), req.instructions, req.articles, env.claudeElapsed);
               && written.Success?
               && WriteScriptSpec(env, w, kv, cardId, channelLabel, cardName) == Finish(env, g.world, kv, cardId, req, written.value)
  {
  }

  /** Gathering keeps a well-formed board well formed. */
  lemma GatherKeepsWellFormed(env: WriteEnv, w: World, cardId: string, channelLabel: string, cardName: string)
    requires WellFormed(w)
    ensures WellFormed(Gather(env, w, cardId, channelLabel, cardName).world)
  {
    AddLabelKeepsWellFormed(w, cardId, env.config.labels.writing);
  }

  /** A finished `Finish` on a well-formed board leaves the review label on the card, and the board well formed. */
  lemma FinishUnderReview(env: WriteEnv, w: World, kv: Entries, cardId: string, req: ScriptRequest, written: Claude.Written)
    requires WellFormed(w) && Finish(env, w, kv, cardId, req, written).outcome.Finished?
    ensures HasLabel(Finish(env, w, kv, cardId, req, written).world.card, env.config.labels.review)
    ensures WellFormed(Finish(env, w, kv, cardId, req, written).world)
  {
    FinishFinished(env, w, kv, cardId, req, written);
    PublishUnderReview(env.config.labels, w, cardId, written, GeneratedComment(env, cardId, req, written));
  }

  /**
   * The pieces a finished run is made of: the board after gathering, the
   * request and the written script, with what gathering keeps of the board.
   */
  lemma WriteFinishedParts(env: WriteEnv, w: World, kv: Entries, cardId: string, channelLabel: string, cardName: string)
    returns (w1: World, req: ScriptRequest, written: Claude.Written)
    requires WriteScriptSpec(env, w, kv, cardId, channelLabel, cardName).outcome.Finished?
    ensures WriteScriptSpec(env, w, kv, cardId, channelLabel, cardName) == Finish(env, w1, kv, cardId, req, written)
    ensures WellFormed(w) ==> WellFormed(w1)
    ensures NameAtMostOnce(w.catalogue, env.config.labels.writing) ==> NameAtMostOnce(w1.catalogue, env.config.labels.writing)
  {
    WriteFinishedShape(env, w, kv, cardId, channelLabel, cardName);
    GatheredBoard(env, w, cardId, channelLabel, cardName);
    var g := Gather(env, GetCardLabels(w, cardId).world, cardId, channelLabel, cardName);
    req := g.result.value;
    written := Claude.WriteScriptSpec(env.claude(req), req.instructions, req.articles, env.claudeElapsed).value;
    w1 := g.world;
  }

  /** Reading the labels and gathering keep the board well formed and the writing label's name at most once in the catalogue. */
  lemma GatheredBoard(env: WriteEnv, w: World, cardId: string, channelLabel: string, cardName: string)
    ensures var w1 := Gather(env, GetCardLabels(w, cardId).world, cardId, channelLabel, cardName).world;
            && (WellFormed(w) ==> WellFormed(w1))
            && (NameAtMostOnce(w.catalogue, env.config.labels.writing) ==> NameAtMostOnce(w1.catalogue, env.config.labels.writing))
  {
    var seen := GetCardLabels(w, cardId);
    if WellFormed(w) {
      GatherKeepsWellFormed(env, seen.world, cardId, channelLabel, cardName);
    }
    if NameAtMostOnce(w.catalogue, env.config.labels.writing) {
      AddLabelKeepsNameAtMostOnce(seen.world, cardId, env.config.labels.writing, env.config.labels.writing);
    }
  }

  /** On a well-formed board a finished run leaves the review label on the card and keeps the board well formed. */
  lemma WriteFinishedIsUnderReview(env: WriteEnv, w: World, kv: Entries, cardId: string, channelLabel: string, cardName: string)
    requires WellFormed(w)
    requires WriteScriptSpec(env, w, kv, cardId, channelLabel, cardName).outcome.Finished?
    ensures var run := WriteScriptSpec(env, w, kv, cardId, channelLabel, cardName);
            HasLabel(run.world.card, env.config.labels.review) && WellFormed(run.world)
  {
    var w1, req, written := WriteFinishedParts(env, w, kv, cardId, channelLabel, cardName);
    FinishUnderReview(env, w1, kv, cardId, req, written);
  }

  /**
   * On a well-formed board whose catalogue holds the writing label's name at
   * most once, and with label names that differ in lower case, a finished run
   * swaps the writing label for the review label: the card ends with the
   * review label and without the writing label.
   */
  lemma WriteFinishedClearsWriting(env: WriteEnv, w: World, kv: Entries, cardId: string, channelLabel: string, cardName: string)
    requires WellFormed(w) && NameAtMostOnce(w.catalogue, env.config.labels.writing) && DistinctLabels(env.config.labels)
    requires WriteScriptSpec(env, w, kv, cardId, channelLabel, cardName).outcome.Finished?
    ensures var run := WriteScriptSpec(env, w, kv, cardId, channelLabel, cardName);
            !HasLabel(run.world.card, env.config.labels.writing) && HasLabel(run.world.card, env.config.labels.review)
  {
    ReviewIsNotWriting(env.config.labels);
    var w1, req, written := WriteFinishedParts(env, w, kv, cardId, channelLabel, cardName);
    FinishClearsWriting(env, w1, kv, cardId, req, written);
    FinishUnderReview(env, w1, kv, cardId, req, written);
  }

  lemma ReviewIsNotWriting(l: Labels)
    requires DistinctLabels(l)
    ensures !SameName(l.review, l.writing)
  {
    var names := [l.trigger, l.writing, l.review, l.approved, l.generatingVoice, l.done, l.error];
    assert Lower(names[1]) != Lower(names[2]);
  }

  lemma FinishClearsWriting(env: WriteEnv, w: World, kv: Entries, cardId: string, req: ScriptRequest, written: Claude.Written)
    requires WellFormed(w) && NameAtMostOnce(w.catalogue, env.config.labels.writing)
    requires !SameName(env.config.labels.review, env.config.labels.writing)
    requires Finish(env, w, kv, cardId, req, written).outcome.Finished?
    ensures !HasLabel(Finish(env, w, kv, cardId, req, written).world.card, env.config.labels.writing)
  {
    FinishFinished(env, w, kv, cardId, req, written);
    PublishClearsWriting(env.config.labels, w, cardId, written, GeneratedComment(env, cardId, req, written));
  }

  /**
   * The order of a finished run's changes: label changes (the writing label),
   * then the script, the research log and the comment, then label changes
   * only (writing off, review on).
   */
  lemma WriteFinishedOrder(env: WriteEnv, w: World, kv: Entries, cardId: string, channelLabel: string, cardName: string)
    requires WriteScriptSpec(env, w, kv, cardId, channelLabel, cardName).outcome.Finished?
    ensures exists before: seq<Action>, comment: string ::
              && ExtendsWithLabelActions(w.log, before)
              && ExtendsWithLabelActions(before + [Attached("script.txt"), Attached("research.txt"), Commented(comment)],
                                         WriteScriptSpec(env, w, kv, cardId, channelLabel, cardName).world.log)
              && StartsWith(comment, "**")
  {
    WriteFinishedShape(env, w, kv, cardId, channelLabel, cardName);
    var seen := GetCardLabels(w, cardId);
    var g := Gather(env, seen.world, cardId, channelLabel, cardName);
    var req := g.result.value;
    var written := Claude.WriteScriptSpec(env.claude(req), req.instructions, req.articles, env.claudeElapsed).value;
    FinishFinished(env, g.world, kv, cardId, req, written);
    AddLabelLogsLabels(seen.world, cardId, env.config.labels.writing);
    var comment := GeneratedComment(env, cardId, req, written);
    PublishLog(env.config.labels, g.world, cardId, written, comment);
    GeneratedCommentIsBotComment(env, cardId, req, written);
    assert ExtendsWithLabelActions(w.log, g.world.log);
  }

  /**
   * A finished run stores the script, of at least 50 words, for seven days,
   * merges the seven script stats into the card's stats keeping every other
   * key, and touches no other key of the store.
   */
  lemma WriteFinishedStores(env: WriteEnv, w: World, kv: Entries, cardId: string, channelLabel: string, cardName: string)
    requires WriteScriptSpec(env, w, kv, cardId, channelLabel, cardName).outcome.Finished?
    ensures var run := WriteScriptSpec(env, w, kv, cardId, channelLabel, cardName);
            var script := run.outcome.value;
            && WordCount(script) >= Claude.MinWords
            && ScriptKey(cardId) in run.kv && run.kv[ScriptKey(cardId)] == Entry(Text(script), ScriptTtl)
            && ReadStats(Lookup(kv, StatsKey(cardId))).Success?
            && StatsKey(cardId) in run.kv && run.kv[StatsKey(cardId)].ttl == ScriptTtl
            && run.kv[StatsKey(cardId)].value.Json?
            && (var merged := run.kv[StatsKey(cardId)].value.stats;
                var prev := ReadStats(Lookup(kv, StatsKey(cardId))).value;
                && merged.Keys == prev.Keys + ScriptStatKeys()
                && merged["script_word_count"] == Count(WordCount(script))
                && (forall k :: k in prev && k !in ScriptStatKeys() ==> merged[k] == prev[k]))
            && SameExcept(kv, run.kv, {ScriptKey(cardId), StatsKey(cardId)})
  {
    WriteFinishedShape(env, w, kv, cardId, channelLabel, cardName);
    var seen := GetCardLabels(w, cardId);
    var g := Gather(env, seen.world, cardId, channelLabel, cardName);
    var req := g.result.value;
    var written := Claude.WriteScriptSpec(env.claude(req), req.instructions, req.articles, env.claudeElapsed).value;
    FinishFinished(env, g.world, kv, cardId, req, written);
  }

  /** A run that does not finish never touches the stats, and changes the store at most by the stored script. */
  lemma WriteUnfinishedKeepsStats(env: WriteEnv, w: World, kv: Entries, cardId: string, channelLabel: string, cardName: string)
    requires !WriteScriptSpec(env, w, kv, cardId, channelLabel, cardName).outcome.Finished?
    ensures var run := WriteScriptSpec(env, w, kv, cardId, channelLabel, cardName);
            Lookup(run.kv, StatsKey(cardId)) == Lookup(kv, StatsKey(cardId))
            && SameExcept(kv, run.kv, {ScriptKey(cardId)})
  {
    var run := WriteScriptSpec(env, w, kv, cardId, channelLabel, cardName);
    assert SameExcept(kv, run.kv, {ScriptKey(cardId)});
    ScriptOnlyKeepsStats(kv, run.kv, cardId);
  }

  /** A store that differs at most at a card's script key has the same stats for that card. */
  lemma ScriptOnlyKeepsStats(a: Entries, b: Entries, cardId: string)
    requires SameExcept(a, b, {ScriptKey(cardId)})
    ensures Lookup(b, StatsKey(cardId)) == Lookup(a, StatsKey(cardId))
  {
    KeyFamiliesDisjoint(cardId, cardId);
    assert StatsKey(cardId) !in {ScriptKey(cardId)};
  }

  /**
   * A channel label that names no channel fails the run after the writing label
   * has been added: the card gets label actions only (no attachment, no
   * comment) and the store is unchanged.
   */
  lemma UnknownChannelRetried(env: WriteEnv, w: World, kv: Entries, cardId: string, channelLabel: string, cardName: string)
    requires GetChannel(env.config, channelLabel).None?
    ensures var run := WriteScriptSpec(env, w, kv, cardId, channelLabel, cardName);
            (run.outcome.Skipped? || run.outcome.Retried?) && run.kv == kv
            && ExtendsWithLabelActions(w.log, run.world.log)
            && !(exists i :: |w.log| <= i < |run.world.log| && run.world.log[i].Commented?)
  {
    var seen := GetCardLabels(w, cardId);
    var run := WriteScriptSpec(env, w, kv, cardId, channelLabel, cardName);
    if run.outcome.Skipped? {
      assert run.world.log == w.log;
    } else {
      AddLabelLogsLabels(seen.world, cardId, env.config.labels.writing);
      assert run.world.log == AddLabelByName(seen.world, cardId, env.config.labels.writing).world.log;
      var extra := run.world.log[|w.log|..];
      forall i | |w.log| <= i < |run.world.log|
        ensures !run.world.log[i].Commented?
      {
        assert run.world.log[i] == extra[i - |w.log|];
      }
    }
  }

  // ---------------------------------------------------------------------
  // write_script on a board and a store

  method GatherInputs(env: WriteEnv, board: TrelloClient.Board, cardId: string, channelLabel: string, cardName: string)
    returns (r: Result<ScriptRequest, string>)
    modifies board
    ensures Call(r, board.State()) == Gather(env, old(board.State()), cardId, channelLabel, cardName)
  {
    var added := board.AddLabelByName(cardId, env.config.labels.writing);
    if added.Failure? {
      return Failure(added.error);
    }
    var card := board.GetCard(cardId);
    if card.Failure? {
      return Failure(card.error);
    }
    var context := Research.PrepareContext(env.web, card.value.desc);
    if context.Failure? {
      return Failure(context.error);
    }
    var atts := board.GetCardAttachments(cardId);
    if atts.Failure? {
      return Failure(atts.error);
    }
    var images := FilterImages(atts.value);
    var channel := GetChannel(env.config, channelLabel);
    if channel.None? {
      return Failure(NoAttribute("load_prompt"));
    }
    var system := SystemPrompt(channel.value.prompt, cardName);
    return Success(ScriptRequest(system, cardName, context.value.instructions, context.value.articles,
                                 if images == [] then None else Some(images)));
  }

  method PublishScript(l: Labels, board: TrelloClient.Board, cardId: string, written: Claude.Written, comment: string)
    returns (r: Result<(), string>)
    modifies board
    ensures Call(r, board.State()) == Publish(l, old(board.State()), cardId, written, comment)
  {
    r := board.AttachTextFile(cardId, "script.txt", written.script);
    if r.Failure? {
      return;
    }
    r := board.AttachTextFile(cardId, "research.txt", written.research);
    if r.Failure? {
      return;
    }
    r := board.AddComment(cardId, comment);
    if r.Failure? {
      return;
    }
    r := board.RemoveLabelByName(cardId, l.writing);
    if r.Failure? {
      return;
    }
    r := board.AddLabelByName(cardId, l.review);
  }

  method StoreResult(store: Store, cardId: string, written: Claude.Written, duration: real) returns (outcome: Outcome)
    modifies store
    ensures (outcome, store.entries) == StoreScript(old(store.entries), cardId, written, duration)
  {
    store.Set(ScriptKey(cardId), Text(written.script), ScriptTtl);
    var raw := store.Get(StatsKey(cardId));
    var prev := ReadStats(raw);
    if prev.Failure? {
      return Retried(prev.error);
    }
    var stats := prev.value + ScriptRunStats(written.stats, duration);
    store.Set(StatsKey(cardId), Json(stats), ScriptTtl);
    return Finished(written.script);
  }

  /** `write_script` as the worker runs it. */
  method WriteScript(env: WriteEnv, board: TrelloClient.Board, store: Store, cardId: string, channelLabel: string, cardName: string)
    returns (outcome: Outcome)
    modifies board, store
    ensures Run(outcome, board.State(), store.entries) == WriteScriptSpec(env, old(board.State()), old(store.entries), cardId, channelLabel, cardName)
  {
    var labels := board.GetCardLabels(cardId);
    if labels.Success? {
      var stale := FindStaleLabel(env.config.labels, labels.value);
      if stale {
        return Skipped;
      }
    }
    outcome := WriteAfterGuard(env, board, store, cardId, channelLabel, cardName);
  }

  /** The stale-task guard's scan over the card's label names. */
  method FindStaleLabel(l: Labels, labels: seq<Label>) returns (stale: bool)
    ensures stale <==> HasSkipLabel(l, labels)
  {
    stale := false;
    var i := 0;
    while i < |labels|
      invariant 0 <= i <= |labels|
      invariant stale <==> exists j :: 0 <= j < i && Lower(labels[j].name) in SkipNames(l)
    {
      if Lower(labels[i].name) in SkipNames(l) {
        stale := true;
      }
      i := i + 1;
    }
  }

  /** The body of `write_script` after the guard, on the board and the store. */
  method WriteAfterGuard(env: WriteEnv, board: TrelloClient.Board, store: Store, cardId: string, channelLabel: string, cardName: string)
    returns (outcome: Outcome)
    modifies board, store
    ensures Run(outcome, board.State(), store.entries) == WriteBody(env, old(board.State()), old(store.entries), cardId, channelLabel, cardName)
  {
    var req := GatherInputs(env, board, cardId, channelLabel, cardName);
    if req.Failure? {
      return Retried(req.error);
    }
    var written, _ := Claude.WriteScript(env.claude(req.value), req.value.instructions, req.value.articles, env.claudeElapsed);
    if written.Failure? {
      return Retried(written.error);
    }
    var published := PublishScript(env.config.labels, board, cardId, written.value, GeneratedComment(env, cardId, req.value, written.value));
    if published.Failure? {
      return Retried(published.error);
    }
    outcome := StoreResult(store, cardId, written.value, env.duration);
  }

  // ---------------------------------------------------------------------
  // revise_script

  /**
   * What `revise_script` depends on besides the board and the store: the
   * pipeline config, the model client, its measured duration, the web URL,
   * the rendering of the comment's cost and time line, and how a stored
   * value that is not text reads as text (UTF-8 decoding of bytes, the
   * JSON text of a stats object).
   */
  datatype ReviseEnv = ReviseEnv(
    config: PipelineConfig,
    claude: RevisionRequest -> Claude.Api,
    claudeElapsed: real,
    webUrl: string,
    figures: Stats -> string,
    decode: seq<bv8> -> Result<string, string>,
    dumps: Stats -> string)

  /** The comment posted with a revised script. */
  function RevisedComment(env: ReviseEnv, cardId: string, revised: Claude.Revised): string {
    RevisedHeading + RevisedDetails(env, cardId, revised)
  }

  function RevisedDetails(env: ReviseEnv, cardId: string, revised: Claude.Revised): string {
    NatToString(WordCount(revised.script)) + " words)\n" + env.figures(revised.stats)
    + "\n\nReview and add **Snap Approved** label when ready." + EditLink(env.webUrl, cardId)
  }

  /** The revision comment carries the bot marker, so the webhook ignores it. */
  lemma RevisedCommentIsBotComment(env: ReviseEnv, cardId: string, revised: Claude.Revised)
    ensures StartsWith(RevisedComment(env, cardId, revised), "**")
  {
    HeadingMarksBot(RevisedHeading, RevisedDetails(env, cardId, revised));
  }

  /**
   * `revise_script`: read the stored script, which must be non-empty, ask the
   * model client for the revision, overwrite the stored script, then attach
   * it and comment. Every failure goes through the retry.
   */
  function ReviseScriptSpec(env: ReviseEnv, w: World, kv: Entries, cardId: string, channelLabel: string, cardName: string, feedback: string): (run: Run)
    ensures run.outcome.Finished? || run.outcome.Retried?
    ensures run.world.card.labels == w.card.labels && run.world.card.listId == w.card.listId
  {
    var v := Lookup(kv, ScriptKey(cardId));
    if !Truthy(v) then Run(Retried(ScriptMissing), w, kv)
    else
      var current := StoredText(v.value, env.decode, env.dumps);
      if current.Failure? then Run(Retried(current.error), w, kv)
      else
        var channel := GetChannel(env.config, channelLabel);
        if channel.None? then Run(Retried(NoAttribute("load_prompt")), w, kv)
        else
          ReviseWith(env, w, kv, cardId, RevisionRequest(SystemPrompt(channel.value.prompt, cardName), current.value, feedback))
  }

  /** The request to the model client, then the stored revision and what follows it. */
  function ReviseWith(env: ReviseEnv, w: World, kv: Entries, cardId: string, req: RevisionRequest): Run {
    var revised := Claude.ReviseSpec(env.claude(req), env.claudeElapsed);
    if revised.Failure? then Run(Retried(revised.error), w, kv)
    else PostRevision(env, w, kv[ScriptKey(cardId) := Entry(Text(revised.value.script), ScriptTtl)], cardId, revised.value)
  }

  /** After the revised script is stored: attach it, then comment; neither touches a label or the store. */
  function PostRevision(env: ReviseEnv, w: World, kv: Entries, cardId: string, revised: Claude.Revised): (run: Run)
    ensures run.kv == kv
    ensures run.outcome == Finished(revised.script) || run.outcome.Retried?
    ensures run.world.card.labels == w.card.labels && run.world.card.listId == w.card.listId && run.world.catalogue == w.catalogue
  {
    var a := AttachTextFile(w, cardId, "script.txt", revised.script);
    if a.result.Failure? then Run(Retried(a.result.error), a.world, kv)
    else
      var c := AddComment(a.world, cardId, RevisedComment(env, cardId, revised));
      if c.result.Failure? then Run(Retried(c.result.error), c.world, kv)
      else Run(Finished(revised.script), c.world, kv)
  }

  /** Without a non-empty stored script the revision is retried and nothing changes. */
  lemma ReviseNeedsStoredScript(env: ReviseEnv, w: World, kv: Entries, cardId: string, channelLabel: string, cardName: string, feedback: string)
    requires !Truthy(Lookup(kv, ScriptKey(cardId)))
    ensures ReviseScriptSpec(env, w, kv, cardId, channelLabel, cardName, feedback) == Run(Retried(ScriptMissing), w, kv)
  {
  }

  /**
   * Any non-empty stored text passes the check: it is sent to the model
   * client as the current script, and a revision that is not refused and
   * reaches the card finishes.
   */
  lemma StoredTextRevised(env: ReviseEnv, w: World, kv: Entries, cardId: string, channelLabel: string, cardName: string, feedback: string, current: string)
    requires Lookup(kv, ScriptKey(cardId)) == Some(Text(current)) && current != []
    requires GetChannel(env.config, channelLabel).Some?
    requires w.link == Up && cardId == w.card.id
    requires Claude.ReviseSpec(env.claude(RevisionRequest(SystemPrompt(GetChannel(env.config, channelLabel).value.prompt, cardName), current, feedback)), env.claudeElapsed).Success?
    ensures ReviseScriptSpec(env, w, kv, cardId, channelLabel, cardName, feedback).outcome.Finished?
  {
    var req := RevisionRequest(SystemPrompt(GetChannel(env.config, channelLabel).value.prompt, cardName), current, feedback);
    var revised := Claude.ReviseSpec(env.claude(req), env.claudeElapsed).value;
    var kv1 := kv[ScriptKey(cardId) := Entry(Text(revised.script), ScriptTtl)];
    var a := AttachTextFile(w, cardId, "script.txt", revised.script);
    assert a.result.Success? && a.world.link == Up && a.world.card.id == cardId;
    var c := AddComment(a.world, cardId, RevisedComment(env, cardId, revised));
    assert c.result.Success?;
    assert PostRevision(env, w, kv1, cardId, revised).outcome.Finished?;
    assert ReviseWith(env, w, kv, cardId, req) == PostRevision(env, w, kv1, cardId, revised);
    assert Truthy(Lookup(kv, ScriptKey(cardId)));
    assert StoredText(Lookup(kv, ScriptKey(cardId)).value, env.decode, env.dumps) == Success(current);
    assert ReviseScriptSpec(env, w, kv, cardId, channelLabel, cardName, feedback).outcome == ReviseWith(env, w, kv, cardId, req).outcome;
  }

  /** The router's "1" placeholder is such a text: a revision queued before the script exists revises "1". */
  lemma SentinelAccepted(env: ReviseEnv, w: World, kv: Entries, cardId: string, channelLabel: string, cardName: string, feedback: string)
    requires Lookup(kv, ScriptKey(cardId)) == Some(Text(Sentinel))
    requires GetChannel(env.config, channelLabel).Some?
    requires w.link == Up && cardId == w.card.id
    requires Claude.ReviseSpec(env.claude(RevisionRequest(SystemPrompt(GetChannel(env.config, channelLabel).value.prompt, cardName), Sentinel, feedback)), env.claudeElapsed).Success?
    ensures ReviseScriptSpec(env, w, kv, cardId, channelLabel, cardName, feedback).outcome.Finished?
  {
    StoredTextRevised(env, w, kv, cardId, channelLabel, cardName, feedback, Sentinel);
  }

  /**
   * A revision changes no label, no list and no stats: the only key it may
   * write is the script key, and only with an accepted revision, for seven days.
   */
  lemma ReviseTouchesOnlyScript(env: ReviseEnv, w: World, kv: Entries, cardId: string, channelLabel: string, cardName: string, feedback: string)
    ensures var run := ReviseScriptSpec(env, w, kv, cardId, channelLabel, cardName, feedback);
            && run.world.card.labels == w.card.labels && run.world.card.listId == w.card.listId
            && run.world.catalogue == w.catalogue
            && SameExcept(kv, run.kv, {ScriptKey(cardId)})
            && (run.kv == kv || (ScriptKey(cardId) in run.kv && run.kv == kv[ScriptKey(cardId) := run.kv[ScriptKey(cardId)]]
                                 && run.kv[ScriptKey(cardId)].ttl == ScriptTtl && run.kv[ScriptKey(cardId)].value.Text?
                                 && !Claude.IsRefusal(run.kv[ScriptKey(cardId)].value.text)))
    ensures var run := ReviseScriptSpec(env, w, kv, cardId, channelLabel, cardName, feedback);
            run.outcome.Finished? ==> run.kv == kv[ScriptKey(cardId) := Entry(Text(run.outcome.value), ScriptTtl)]
  {
    var run := ReviseScriptSpec(env, w, kv, cardId, channelLabel, cardName, feedback);
    if run.kv != kv {
      var channel := GetChannel(env.config, channelLabel).value;
      var current := StoredText(Lookup(kv, ScriptKey(cardId)).value, env.decode, env.dumps).value;
      var req := RevisionRequest(SystemPrompt(channel.prompt, cardName), current, feedback);
      assert run == ReviseWith(env, w, kv, cardId, req);
      var revised := Claude.ReviseSpec(env.claude(req), env.claudeElapsed).value;
      assert run.kv == kv[ScriptKey(cardId) := Entry(Text(revised.script), ScriptTtl)];
    }
  }

  method ReviseScript(env: ReviseEnv, board: TrelloClient.Board, store: Store, cardId: string, channelLabel: string, cardName: string, feedback: string)
    returns (outcome: Outcome)
    modifies board, store
    ensures Run(outcome, board.State(), store.entries) == ReviseScriptSpec(env, old(board.State()), old(store.entries), cardId, channelLabel, cardName, feedback)
  {
    var v := store.Get(ScriptKey(cardId));
    if !Truthy(v) {
      return Retried(ScriptMissing);
    }
    var current := StoredText(v.value, env.decode, env.dumps);
    if current.Failure? {
      return Retried(current.error);
    }
    var channel := GetChannel(env.config, channelLabel);
    if channel.None? {
      return Retried(NoAttribute("load_prompt"));
    }
    var req := RevisionRequest(SystemPrompt(channel.value.prompt, cardName), current.value, feedback);
    var revised, _ := Claude.Revise(env.claude(req), env.claudeElapsed);
    if revised.Failure? {
      return Retried(revised.error);
    }
    store.Set(ScriptKey(cardId), Text(revised.value.script), ScriptTtl);
    var r := board.AttachTextFile(cardId, "script.txt", revised.value.script);
    if r.Failure? {
      return Retried(r.error);
    }
    r := board.AddComment(cardId, RevisedComment(env, cardId, revised.value));
    if r.Failure? {
      return Retried(r.error);
    }
    return Finished(revised.value.script);
  }
}
