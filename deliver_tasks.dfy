/**
 * The voice and delivery stages of `workers/tasks/deliver.py`:
 * `generate_voice` turns the approved script into audio and stores it, and
 * `deliver` attaches the audio and the script to the card, announces the
 * delivery, moves the card to the ready list, swaps the stage labels for the
 * done label and drops the stored audio.
 *
 * The checks that read the store run before each task's `try`, so their
 * failures raise at once; everything after them goes through the retry.
 * The speech service, the decoding of stored bytes and the rendering of the
 * audio size in megabytes are parameters.
 */
module DeliverTasks {
  import opened Results
  import opened PyStr
  import opened KeyValue
  import opened Trello
  import opened Settings
  import opened Tasks
  import TrelloClient

  /** The decorators' retry settings of the two tasks. */
  const VoiceMaxRetries: nat := 2
  const VoiceRetryDelay: nat := 60
  const DeliverMaxRetries: nat := 3
  const DeliverRetryDelay: nat := 30

  const AudioMime: string := "audio/mpeg"

  function NoScript(cardId: string): string { "Script not found in Redis for card " + cardId }
  function NoAudio(cardId: string): string { "Audio not found in Redis for card " + cardId }

  /** What the speech service returns: the audio and the seconds it took. */
  datatype Voice = Voice(audio: seq<bv8>, durationS: real)

  /**
   * What `generate_voice` depends on besides the board and the store: the
   * pipeline config, the speech service (from the text and the voice id),
   * and how stored values that are not text read as text.
   */
  datatype VoiceEnv = VoiceEnv(
    config: PipelineConfig,
    tts: (string, string) -> Result<Voice, string>,
    decode: seq<bv8> -> Result<string, string>,
    dumps: Stats -> string)

  // ---------------------------------------------------------------------
  // generate_voice

  /** The update `generate_voice` merges into the card's stats. */
  function VoiceStats(v: Voice): (s: Stats)
    ensures s.Keys == {"voice_duration", "audio_size_bytes"}
    ensures s["audio_size_bytes"] == Count(|v.audio|)
  {
    map["voice_duration" := Measure(v.durationS), "audio_size_bytes" := Count(|v.audio|)]
  }

  /** Store the audio for a day, then merge the stats; a stats value that does not load fails after the audio is stored. */
  function StoreVoice(kv: Entries, cardId: string, v: Voice): (r: (Outcome, Entries))
    ensures r.0 == Finished("voice_generated") || r.0.Retried?
    ensures AudioKey(cardId) in r.1 && r.1[AudioKey(cardId)] == Entry(Blob(v.audio), AudioTtl)
    ensures r.0.Retried? <==> ReadStats(Lookup(kv, StatsKey(cardId))).Failure?
    ensures r.0.Retried? ==> r.1 == kv[AudioKey(cardId) := Entry(Blob(v.audio), AudioTtl)]
    ensures r.0.Finished? ==>
              && StatsKey(cardId) in r.1
              && r.1[StatsKey(cardId)] == Entry(Json(Merge(ReadStats(Lookup(kv, StatsKey(cardId))).value, VoiceStats(v))), ScriptTtl)
              && r.1 == kv[AudioKey(cardId) := r.1[AudioKey(cardId)]][StatsKey(cardId) := r.1[StatsKey(cardId)]]
  {
    KeyFamiliesDisjoint(cardId, cardId);
    var kv1 := kv[AudioKey(cardId) := Entry(Blob(v.audio), AudioTtl)];
    var prev := ReadStats(Lookup(kv1, StatsKey(cardId)));
    if prev.Failure? then (Retried(prev.error), kv1)
    else (Finished("voice_generated"), kv1[StatsKey(cardId) := Entry(Json(Merge(prev.value, VoiceStats(v))), ScriptTtl)])
  }

  /** The body inside the `try`: the label, then the speech service, then the store. */
  function VoiceBody(env: VoiceEnv, w: World, kv: Entries, cardId: string, channelLabel: string, script: string): (run: Run)
    ensures run.outcome.Finished? || run.outcome.Retried?
    ensures run.world == AddLabelByName(w, cardId, env.config.labels.generatingVoice).world
  {
    var added := AddLabelByName(w, cardId, env.config.labels.generatingVoice);
    if added.result.Failure? then Run(Retried(added.result.error), added.world, kv)
    else
      var channel := GetChannel(env.config, channelLabel);
      if channel.None? then Run(Retried(NoAttribute("elevenlabs_voice_id")), added.world, kv)
      else
        var voice := env.tts(script, channel.value.voiceId);
        if voice.Failure? then Run(Retried(voice.error), added.world, kv)
        else
          var (outcome, kv1) := StoreVoice(kv, cardId, voice.value);
          Run(outcome, added.world, kv1)
  }

  /** `generate_voice` */
  function GenerateVoiceSpec(env: VoiceEnv, w: World, kv: Entries, cardId: string, channelLabel: string): (run: Run)
    ensures run.outcome.Raised? || run.outcome.Finished? || run.outcome.Retried?
    ensures run.outcome.Raised? ==> run.world == w && run.kv == kv
  {
    var stored := Lookup(kv, ScriptKey(cardId));
    if !Truthy(stored) then Run(Raised(NoScript(cardId)), w, kv)
    else
      var script := StoredText(stored.value, env.decode, env.dumps);
      if script.Failure? then Run(Raised(script.error), w, kv)
      else VoiceBody(env, w, kv, cardId, channelLabel, script.value)
  }

  /** A non-empty stored script is read back as it was written and voiced. */
  lemma VoiceOfStoredText(env: VoiceEnv, w: World, kv: Entries, cardId: string, channelLabel: string, script: string)
    requires Lookup(kv, ScriptKey(cardId)) == Some(Text(script)) && script != []
    ensures GenerateVoiceSpec(env, w, kv, cardId, channelLabel) == VoiceBody(env, w, kv, cardId, channelLabel, script)
  {
  }

  /** Without a non-empty stored script `generate_voice` raises before touching the card or the store. */
  lemma VoiceNeedsScript(env: VoiceEnv, w: World, kv: Entries, cardId: string, channelLabel: string)
    requires !Truthy(Lookup(kv, ScriptKey(cardId)))
    ensures GenerateVoiceSpec(env, w, kv, cardId, channelLabel) == Run(Raised(NoScript(cardId)), w, kv)
  {
  }

  /**
   * The only change to the board is the generating-voice label, added before
   * the speech service is called: a run that reached the service, and every
   * finished run, had the label added.
   */
  lemma VoiceLabelFirst(env: VoiceEnv, w: World, kv: Entries, cardId: string, channelLabel: string)
    ensures var run := GenerateVoiceSpec(env, w, kv, cardId, channelLabel);
            run.outcome.Raised? ==> run.world == w && run.kv == kv
    ensures var run := GenerateVoiceSpec(env, w, kv, cardId, channelLabel);
            !run.outcome.Raised? ==> run.world == AddLabelByName(w, cardId, env.config.labels.generatingVoice).world
    ensures var run := GenerateVoiceSpec(env, w, kv, cardId, channelLabel);
            run.outcome.Finished? ==> AddLabelByName(w, cardId, env.config.labels.generatingVoice).result.Success?
  {
  }

  /**
   * A finished run stored, for a day, the audio the speech service made from
   * the stored script with the channel's voice, and merged its size and
   * duration into the stats, keeping every other stats key and every other
   * key of the store.
   */
  lemma VoiceFinishedStores(env: VoiceEnv, w: World, kv: Entries, cardId: string, channelLabel: string)
    requires GenerateVoiceSpec(env, w, kv, cardId, channelLabel).outcome.Finished?
    ensures var run := GenerateVoiceSpec(env, w, kv, cardId, channelLabel);
            var script := StoredText(Lookup(kv, ScriptKey(cardId)).value, env.decode, env.dumps).value;
            var channel := GetChannel(env.config, channelLabel).value;
            var voice := env.tts(script, channel.voiceId).value;
            && run.outcome == Finished("voice_generated")
            && run.kv[AudioKey(cardId)] == Entry(Blob(voice.audio), AudioTtl)
            && StatsKey(cardId) in run.kv
            && run.kv[StatsKey(cardId)].value.Json?
            && (var merged := run.kv[StatsKey(cardId)].value.stats;
                var prev := ReadStats(Lookup(kv, StatsKey(cardId))).value;
                && merged["audio_size_bytes"] == Count(|voice.audio|)
                && (forall k :: k in prev && k != "voice_duration" && k != "audio_size_bytes" ==> merged[k] == prev[k]))
            && SameExcept(kv, run.kv, {AudioKey(cardId), StatsKey(cardId)})
  {
    var script := StoredText(Lookup(kv, ScriptKey(cardId)).value, env.decode, env.dumps).value;
    var channel := GetChannel(env.config, channelLabel).value;
    var voice := env.tts(script, channel.voiceId).value;
    assert GenerateVoiceSpec(env, w, kv, cardId, channelLabel) == VoiceBody(env, w, kv, cardId, channelLabel, script);
    assert VoiceBody(env, w, kv, cardId, channelLabel, script).kv == StoreVoice(kv, cardId, voice).1;
  }

  /** A run that does not finish leaves the script and the stats as they were. */
  lemma VoiceUnfinishedKeepsStats(env: VoiceEnv, w: World, kv: Entries, cardId: string, channelLabel: string)
    requires !GenerateVoiceSpec(env, w, kv, cardId, channelLabel).outcome.Finished?
    ensures var run := GenerateVoiceSpec(env, w, kv, cardId, channelLabel);
            SameExcept(kv, run.kv, {AudioKey(cardId)})
  {
    KeyFamiliesDisjoint(cardId, cardId);
  }

  method StoreVoiceResult(store: Store, cardId: string, v: Voice) returns (outcome: Outcome)
    modifies store
    ensures (outcome, store.entries) == StoreVoice(old(store.entries), cardId, v)
  {
    store.Set(AudioKey(cardId), Blob(v.audio), AudioTtl);
    var raw := store.Get(StatsKey(cardId));
    var prev := ReadStats(raw);
    if prev.Failure? {
      return Retried(prev.error);
    }
    store.Set(StatsKey(cardId), Json(prev.value + VoiceStats(v)), ScriptTtl);
    return Finished("voice_generated");
  }

  /** `generate_voice` as the worker runs it. */
  method GenerateVoice(env: VoiceEnv, board: TrelloClient.Board, store: Store, cardId: string, channelLabel: string)
    returns (outcome: Outcome)
    modifies board, store
    ensures Run(outcome, board.State(), store.entries) == GenerateVoiceSpec(env, old(board.State()), old(store.entries), cardId, channelLabel)
  {
    var stored := store.Get(ScriptKey(cardId));
    if !Truthy(stored) {
      return Raised(NoScript(cardId));
    }
    var script := StoredText(stored.value, env.decode, env.dumps);
    if script.Failure? {
      return Raised(script.error);
    }
    var added := board.AddLabelByName(cardId, env.config.labels.generatingVoice);
    if added.Failure? {
      return Retried(added.error);
    }
    var channel := GetChannel(env.config, channelLabel);
    if channel.None? {
      return Retried(NoAttribute("elevenlabs_voice_id"));
    }
    var voice := env.tts(script.value, channel.value.voiceId);
    if voice.Failure? {
      return Retried(voice.error);
    }
    outcome := StoreVoiceResult(store, cardId, voice.value);
  }

  // ---------------------------------------------------------------------
  // deliver

  /**
   * What `deliver` depends on besides the board and the store: the pipeline
   * config, the bytes a stored value reads as, how stored bytes read as text,
   * the rendering of a byte count in megabytes, and the measured duration.
   */
  datatype DeliverEnv = DeliverEnv(
    config: PipelineConfig,
    bytesOf: Value -> seq<bv8>,
    decode: seq<bv8> -> Result<string, string>,
    dumps: Stats -> string,
    megabytes: nat -> string,
    duration: real)

  /** The audio a stored value holds: stored bytes as they are, anything else as the bytes the store returns for it. */
  function AudioBytes(env: DeliverEnv, v: Value): seq<bv8>
  {
    if v.Blob? then v.bytes else env.bytesOf(v)
  }

  const DeliveredHeading: string := "**Snap Delivered**\n\nVoice: "

  /** The delivery comment: the heading, the audio size and the script's word count. */
  function DeliveredComment(env: DeliverEnv, audioSize: nat, words: nat): string {
    DeliveredHeading + DeliveredDetails(env, audioSize, words)
  }

  function DeliveredDetails(env: DeliverEnv, audioSize: nat, words: nat): string {
    env.megabytes(audioSize) + " MB | Script: " + NatToString(words) + " words\nReady for video editing."
  }

  /** The delivery comment carries the bot marker, so the webhook ignores it. */
  lemma DeliveredCommentIsBotComment(env: DeliverEnv, audioSize: nat, words: nat)
    ensures StartsWith(DeliveredComment(env, audioSize, words), "**")
  {
    var rest := DeliveredDetails(env, audioSize, words);
    assert (DeliveredHeading + rest)[..2] == DeliveredHeading[..2];
  }

  /** What steps 1 to 3 log: the audio, the script only when there is one, then the comment. */
  function DeliveryLog(script: string, comment: string): (log: seq<Action>)
    ensures |log| == if script != [] then 3 else 2
    ensures log[0] == Attached("voice.mp3") && log[|log| - 1] == Commented(comment)
  {
    [Attached("voice.mp3")] + (if script != [] then [Attached("script.txt")] else []) + [Commented(comment)]
  }

  /** Steps 1 to 3: attach the audio, attach the script when there is one, then comment. */
  function PostDelivery(w: World, cardId: string, audio: seq<bv8>, script: string, comment: string): (c: Call<()>)
    ensures c.world.card.labels == w.card.labels && c.world.card.listId == w.card.listId
    ensures c.world.catalogue == w.catalogue && c.world.nextId == w.nextId && c.world.lists == w.lists
    ensures c.result.Success? ==> c.world.log == w.log + DeliveryLog(script, comment)
  {
    var v := AttachBinaryFile(w, cardId, "voice.mp3", audio, AudioMime);
    if v.result.Failure? then v
    else
      var s := if script != [] then AttachTextFile(v.world, cardId, "script.txt", script) else Call(Success(()), v.world);
      if s.result.Failure? then s
      else AddComment(s.world, cardId, comment)
  }

  /** Steps 1 to 4: the files and the comment, then the move to the ready list. */
  function Announce(env: DeliverEnv, w: World, cardId: string, audio: seq<bv8>, script: string): (c: Call<()>)
    ensures c.result.Success? ==> FindList(w.lists, env.config.labels.readyList).Some?
    ensures c.world.lists == w.lists
  {
    var p := PostDelivery(w, cardId, audio, script, DeliveredComment(env, |audio|, WordCount(script)));
    if p.result.Failure? then p
    else MoveCardToList(p.world, cardId, env.config.labels.readyList)
  }

  /** The announcement leaves the card's labels alone. */
  lemma AnnounceKeepsLabels(env: DeliverEnv, w: World, cardId: string, audio: seq<bv8>, script: string)
    ensures Announce(env, w, cardId, audio, script).world.card.labels == w.card.labels
    ensures Announce(env, w, cardId, audio, script).world.catalogue == w.catalogue
    ensures Announce(env, w, cardId, audio, script).world.nextId == w.nextId
  {
    var p := PostDelivery(w, cardId, audio, script, DeliveredComment(env, |audio|, WordCount(script)));
    MoveKeepsLabels(p.world, cardId, env.config.labels.readyList);
  }

  /**
   * A successful announcement logs, in order, the audio, the script only
   * when there is one, the comment with the script's word count, and the
   * move to the first list named like the ready list.
   */
  lemma AnnounceOrder(env: DeliverEnv, w: World, cardId: string, audio: seq<bv8>, script: string)
    requires Announce(env, w, cardId, audio, script).result.Success?
    ensures var ready := FindList(w.lists, env.config.labels.readyList);
            && ready.Some?
            && Announce(env, w, cardId, audio, script).world.log
               == w.log + DeliveryLog(script, DeliveredComment(env, |audio|, WordCount(script))) + [Moved(w.lists[ready.value].id)]
            && Announce(env, w, cardId, audio, script).world.card.listId == w.lists[ready.value].id
  {
    var p := PostDelivery(w, cardId, audio, script, DeliveredComment(env, |audio|, WordCount(script)));
    MoveToFirstMatch(p.world, cardId, env.config.labels.readyList);
  }

  /** Step 5: remove the trigger, review, approved and generating-voice labels, then add the done label. */
  function Cleanup(l: Labels, w: World, cardId: string): Call<()> {
    var a := RemoveLabelByName(w, cardId, l.trigger);
    if a.result.Failure? then a
    else
      var b := RemoveLabelByName(a.world, cardId, l.review);
      if b.result.Failure? then b
      else
        var c := RemoveLabelByName(b.world, cardId, l.approved);
        if c.result.Failure? then c
        else
          var d := RemoveLabelByName(c.world, cardId, l.generatingVoice);
          if d.result.Failure? then d
          else AddLabelByName(d.world, cardId, l.done)
  }

  /** The cleanup leaves the card in the list the announcement moved it to. */
  lemma CleanupKeepsPlace(l: Labels, w: World, cardId: string)
    ensures Cleanup(l, w, cardId).world.card.listId == w.card.listId
    ensures Cleanup(l, w, cardId).world.lists == w.lists
  {
    var a := RemoveLabelByName(w, cardId, l.trigger);
    var b := RemoveLabelByName(a.world, cardId, l.review);
    var c := RemoveLabelByName(b.world, cardId, l.approved);
    var d := RemoveLabelByName(c.world, cardId, l.generatingVoice);
    LabelChangesKeepPlace(w, cardId, l.trigger);
    LabelChangesKeepPlace(a.world, cardId, l.review);
    LabelChangesKeepPlace(b.world, cardId, l.approved);
    LabelChangesKeepPlace(c.world, cardId, l.generatingVoice);
    LabelChangesKeepPlace(d.world, cardId, l.done);
  }

  /** The cleanup records label changes only. */
  lemma CleanupLogsLabels(l: Labels, w: World, cardId: string)
    ensures ExtendsWithLabelActions(w.log, Cleanup(l, w, cardId).world.log)
  {
    var a := RemoveLabelByName(w, cardId, l.trigger);
    var b := RemoveLabelByName(a.world, cardId, l.review);
    var c := RemoveLabelByName(b.world, cardId, l.approved);
    var d := RemoveLabelByName(c.world, cardId, l.generatingVoice);
    var e := AddLabelByName(d.world, cardId, l.done);
    RemoveLabelLogsLabels(w, cardId, l.trigger);
    RemoveLabelLogsLabels(a.world, cardId, l.review);
    RemoveLabelLogsLabels(b.world, cardId, l.approved);
    RemoveLabelLogsLabels(c.world, cardId, l.generatingVoice);
    AddLabelLogsLabels(d.world, cardId, l.done);
    ExtendsWithLabelActionsTrans(w.log, a.world.log, b.world.log);
    ExtendsWithLabelActionsTrans(w.log, b.world.log, c.world.log);
    ExtendsWithLabelActionsTrans(w.log, c.world.log, d.world.log);
    ExtendsWithLabelActionsTrans(w.log, d.world.log, e.world.log);
  }

  /** The cleanup keeps every card label not named like one of the four it removes. */
  lemma CleanupKeepsOthers(l: Labels, w: World, cardId: string, lab: Label)
    requires lab in w.card.labels
    requires !SameName(lab.name, l.trigger) && !SameName(lab.name, l.review)
    requires !SameName(lab.name, l.approved) && !SameName(lab.name, l.generatingVoice)
    ensures lab in Cleanup(l, w, cardId).world.card.labels
  {
    var a := RemoveLabelByName(w, cardId, l.trigger);
    var b := RemoveLabelByName(a.world, cardId, l.review);
    var c := RemoveLabelByName(b.world, cardId, l.approved);
    var d := RemoveLabelByName(c.world, cardId, l.generatingVoice);
    RemoveLabelKeepsOthers(w, cardId, l.trigger, lab);
    RemoveLabelKeepsOthers(a.world, cardId, l.review, lab);
    RemoveLabelKeepsOthers(b.world, cardId, l.approved, lab);
    RemoveLabelKeepsOthers(c.world, cardId, l.generatingVoice, lab);
    AddLabelKeepsCardLabels(d.world, cardId, l.done);
  }

  /** With distinct label names the cleanup never takes off the writing or the error label. */
  lemma CleanupKeepsWritingAndError(l: Labels, w: World, cardId: string, lab: Label)
    requires DistinctLabels(l)
    requires lab in w.card.labels && (SameName(lab.name, l.writing) || SameName(lab.name, l.error))
    ensures lab in Cleanup(l, w, cardId).world.card.labels
  {
    var names := [l.trigger, l.writing, l.review, l.approved, l.generatingVoice, l.done, l.error];
    assert Lower(names[0]) != Lower(names[1]) && Lower(names[0]) != Lower(names[6]);
    assert Lower(names[1]) != Lower(names[2]) && Lower(names[2]) != Lower(names[6]);
    assert Lower(names[1]) != Lower(names[3]) && Lower(names[3]) != Lower(names[6]);
    assert Lower(names[1]) != Lower(names[4]) && Lower(names[4]) != Lower(names[6]);
    CleanupKeepsOthers(l, w, cardId, lab);
  }

  /** On a well-formed board a successful cleanup leaves the done label on the card. */
  lemma CleanupMarksDone(l: Labels, w: World, cardId: string)
    requires WellFormed(w) && Cleanup(l, w, cardId).result.Success?
    ensures HasLabel(Cleanup(l, w, cardId).world.card, l.done)
  {
    var a := RemoveLabelByName(w, cardId, l.trigger);
    var b := RemoveLabelByName(a.world, cardId, l.review);
    var c := RemoveLabelByName(b.world, cardId, l.approved);
    var d := RemoveLabelByName(c.world, cardId, l.generatingVoice);
    RemoveLabelKeepsWellFormed(w, cardId, l.trigger);
    RemoveLabelKeepsWellFormed(a.world, cardId, l.review);
    RemoveLabelKeepsWellFormed(b.world, cardId, l.approved);
    RemoveLabelKeepsWellFormed(c.world, cardId, l.generatingVoice);
    AddLabelGivesLabel(d.world, cardId, l.done);
  }

  /** The four labels a delivery takes off the card: the trigger, review, approved and generating-voice labels. */
  predicate ClearedOfStages(l: Labels, card: Card) {
    !HasLabel(card, l.trigger) && !HasLabel(card, l.review) && !HasLabel(card, l.approved) && !HasLabel(card, l.generatingVoice)
  }

  /** The catalogue holds each of the four names a delivery removes at most once. */
  predicate StagesAtMostOnce(l: Labels, catalogue: seq<Label>) {
    && NameAtMostOnce(catalogue, l.trigger) && NameAtMostOnce(catalogue, l.review)
    && NameAtMostOnce(catalogue, l.approved) && NameAtMostOnce(catalogue, l.generatingVoice)
  }

  /** The done label's name differs from the four a delivery removes. */
  lemma DoneIsNoStage(l: Labels)
    requires DistinctLabels(l)
    ensures !SameName(l.done, l.trigger) && !SameName(l.done, l.review)
    ensures !SameName(l.done, l.approved) && !SameName(l.done, l.generatingVoice)
  {
    var names := [l.trigger, l.writing, l.review, l.approved, l.generatingVoice, l.done, l.error];
    assert Lower(names[0]) != Lower(names[5]) && Lower(names[2]) != Lower(names[5]);
    assert Lower(names[3]) != Lower(names[5]) && Lower(names[4]) != Lower(names[5]);
  }

  /**
   * On a well-formed board whose catalogue holds each removed name at most
   * once, a successful cleanup leaves none of the four stage labels on the card.
   */
  lemma CleanupClearsStages(l: Labels, w: World, cardId: string)
    requires WellFormed(w) && StagesAtMostOnce(l, w.catalogue) && DistinctLabels(l)
    requires Cleanup(l, w, cardId).result.Success?
    ensures ClearedOfStages(l, Cleanup(l, w, cardId).world.card)
  {
    var a := RemoveLabelByName(w, cardId, l.trigger);
    var b := RemoveLabelByName(a.world, cardId, l.review);
    var c := RemoveLabelByName(b.world, cardId, l.approved);
    var d := RemoveLabelByName(c.world, cardId, l.generatingVoice);
    RemoveLabelClearsOnBoard(w, cardId, l.trigger);
    RemoveLabelClearsOnBoard(a.world, cardId, l.review);
    RemoveLabelKeepsAbsent(a.world, cardId, l.review, l.trigger);
    RemoveLabelClearsOnBoard(b.world, cardId, l.approved);
    RemoveLabelKeepsAbsent(b.world, cardId, l.approved, l.trigger);
    RemoveLabelKeepsAbsent(b.world, cardId, l.approved, l.review);
    RemoveLabelClearsOnBoard(c.world, cardId, l.generatingVoice);
    RemoveLabelKeepsAbsent(c.world, cardId, l.generatingVoice, l.trigger);
    RemoveLabelKeepsAbsent(c.world, cardId, l.generatingVoice, l.review);
    RemoveLabelKeepsAbsent(c.world, cardId, l.generatingVoice, l.approved);
    DoneIsNoStage(l);
    AddLabelKeepsAbsent(d.world, cardId, l.done, l.trigger);
    AddLabelKeepsAbsent(d.world, cardId, l.done, l.review);
    AddLabelKeepsAbsent(d.world, cardId, l.done, l.approved);
    AddLabelKeepsAbsent(d.world, cardId, l.done, l.generatingVoice);
  }

  /** The store after a delivery: the stats gain the delivery duration and are kept for seven days, the audio is dropped. */
  function Delivered(kv: Entries, cardId: string, stats: Stats, duration: real): (kv1: Entries)
    ensures AudioKey(cardId) !in kv1
    ensures StatsKey(cardId) in kv1 && kv1[StatsKey(cardId)] == Entry(Json(stats["step_deliver_duration" := Measure(duration)]), ScriptTtl)
    ensures forall k :: k != AudioKey(cardId) && k != StatsKey(cardId) ==> Lookup(kv1, k) == Lookup(kv, k)
  {
    KeyFamiliesDisjoint(cardId, cardId);
    kv[StatsKey(cardId) := Entry(Json(stats["step_deliver_duration" := Measure(duration)]), ScriptTtl)] - {AudioKey(cardId)}
  }

  /** The body inside the `try`: announce, clean up the labels, then update the store. */
  function DeliverBody(env: DeliverEnv, w: World, kv: Entries, cardId: string, audio: seq<bv8>, script: string, stats: Stats): (run: Run)
    ensures run.outcome.Done? || run.outcome.Retried?
    ensures run.outcome.Retried? ==> run.kv == kv
    ensures run.outcome.Done? ==> run.kv == Delivered(kv, cardId, stats, env.duration)
  {
    var a := Announce(env, w, cardId, audio, script);
    if a.result.Failure? then Run(Retried(a.result.error), a.world, kv)
    else
      var c := Cleanup(env.config.labels, a.world, cardId);
      if c.result.Failure? then Run(Retried(c.result.error), c.world, kv)
      else Run(Done, c.world, Delivered(kv, cardId, stats, env.duration))
  }

  /** The optional script: absent reads as empty; stored bytes that do not decode fail. */
  function ScriptOrEmpty(env: DeliverEnv, v: Option<Value>): Result<string, string>
  {
    if v.None? then Success([]) else StoredText(v.value, env.decode, env.dumps)
  }

  /** `deliver` */
  function DeliverSpec(env: DeliverEnv, w: World, kv: Entries, cardId: string): (run: Run)
    ensures run.outcome.Raised? || run.outcome.Done? || run.outcome.Retried?
    ensures run.outcome.Raised? ==> run.world == w && run.kv == kv
  {
    var stored := Lookup(kv, AudioKey(cardId));
    if !Truthy(stored) then Run(Raised(NoAudio(cardId)), w, kv)
    else
      var script := ScriptOrEmpty(env, Lookup(kv, ScriptKey(cardId)));
      if script.Failure? then Run(Raised(script.error), w, kv)
      else
        var stats := ReadStats(Lookup(kv, StatsKey(cardId)));
        if stats.Failure? then Run(Raised(stats.error), w, kv)
        else
          var body := DeliverBody(env, w, kv, cardId, AudioBytes(env, stored.value), script.value, stats.value);
          assert body.outcome.Done? || body.outcome.Retried?;
          body
  }

  /** Without non-empty stored audio `deliver` raises before touching the card or the store. */
  lemma DeliverNeedsAudio(env: DeliverEnv, w: World, kv: Entries, cardId: string)
    requires !Truthy(Lookup(kv, AudioKey(cardId)))
    ensures DeliverSpec(env, w, kv, cardId) == Run(Raised(NoAudio(cardId)), w, kv)
  {
  }

  /** A delivery that got past the checks is the body run on what the store held. */
  lemma DeliveredByBody(env: DeliverEnv, w: World, kv: Entries, cardId: string)
    requires DeliverSpec(env, w, kv, cardId).outcome.Done?
    ensures Truthy(Lookup(kv, AudioKey(cardId)))
    ensures ScriptOrEmpty(env, Lookup(kv, ScriptKey(cardId))).Success?
    ensures ReadStats(Lookup(kv, StatsKey(cardId))).Success?
    ensures DeliverSpec(env, w, kv, cardId)
            == DeliverBody(env, w, kv, cardId, AudioBytes(env, Lookup(kv, AudioKey(cardId)).value),
                           ScriptOrEmpty(env, Lookup(kv, ScriptKey(cardId))).value, ReadStats(Lookup(kv, StatsKey(cardId))).value)
    ensures DeliverSpec(env, w, kv, cardId).kv == Delivered(kv, cardId, ReadStats(Lookup(kv, StatsKey(cardId))).value, env.duration)
  {
  }

  /** A finished body: the announcement's log and list, then label actions only. */
  lemma DeliverBodyOrder(env: DeliverEnv, w: World, kv: Entries, cardId: string, audio: seq<bv8>, script: string, stats: Stats)
    requires DeliverBody(env, w, kv, cardId, audio, script, stats).outcome.Done?
    ensures var ready := FindList(w.lists, env.config.labels.readyList);
            && ready.Some?
            && ExtendsWithLabelActions(
                 w.log + DeliveryLog(script, DeliveredComment(env, |audio|, WordCount(script))) + [Moved(w.lists[ready.value].id)],
                 DeliverBody(env, w, kv, cardId, audio, script, stats).world.log)
            && DeliverBody(env, w, kv, cardId, audio, script, stats).world.card.listId == w.lists[ready.value].id
  {
    var a := Announce(env, w, cardId, audio, script);
    AnnounceOrder(env, w, cardId, audio, script);
    CleanupLogsLabels(env.config.labels, a.world, cardId);
    CleanupKeepsPlace(env.config.labels, a.world, cardId);
  }

  /**
   * A delivered card got, in order: the audio, the script only when one is
   * stored (the comment then counts its words, 0 otherwise), the comment, the
   * move to the ready list, then label changes only.
   */
  lemma DeliveredOrder(env: DeliverEnv, w: World, kv: Entries, cardId: string)
    requires DeliverSpec(env, w, kv, cardId).outcome.Done?
    ensures var run := DeliverSpec(env, w, kv, cardId);
            var script := ScriptOrEmpty(env, Lookup(kv, ScriptKey(cardId))).value;
            var audio := AudioBytes(env, Lookup(kv, AudioKey(cardId)).value);
            var ready := FindList(w.lists, env.config.labels.readyList);
            && ready.Some?
            && ExtendsWithLabelActions(
                 w.log + DeliveryLog(script, DeliveredComment(env, |audio|, WordCount(script))) + [Moved(w.lists[ready.value].id)],
                 run.world.log)
            && run.world.card.listId == w.lists[ready.value].id
  {
    DeliveredByBody(env, w, kv, cardId);
    DeliverBodyOrder(env, w, kv, cardId, AudioBytes(env, Lookup(kv, AudioKey(cardId)).value),
                     ScriptOrEmpty(env, Lookup(kv, ScriptKey(cardId))).value, ReadStats(Lookup(kv, StatsKey(cardId))).value);
  }

  /** A delivery drops the stored audio, keeps the script, and adds its duration to the stats, which are kept for seven days. */
  lemma DeliveredStore(env: DeliverEnv, w: World, kv: Entries, cardId: string)
    requires DeliverSpec(env, w, kv, cardId).outcome.Done?
    ensures var run := DeliverSpec(env, w, kv, cardId);
            && AudioKey(cardId) !in run.kv
            && Lookup(run.kv, ScriptKey(cardId)) == Lookup(kv, ScriptKey(cardId))
            && StatsKey(cardId) in run.kv
            && run.kv[StatsKey(cardId)] == Entry(Json(ReadStats(Lookup(kv, StatsKey(cardId))).value["step_deliver_duration" := Measure(env.duration)]), ScriptTtl)
            && SameExcept(kv, run.kv, {AudioKey(cardId), StatsKey(cardId)})
  {
    DeliveredByBody(env, w, kv, cardId);
    DeliveredKeepsScript(kv, cardId, ReadStats(Lookup(kv, StatsKey(cardId))).value, env.duration);
  }

  lemma DeliveredKeepsScript(kv: Entries, cardId: string, stats: Stats, duration: real)
    ensures Lookup(Delivered(kv, cardId, stats, duration), ScriptKey(cardId)) == Lookup(kv, ScriptKey(cardId))
    ensures SameExcept(kv, Delivered(kv, cardId, stats, duration), {AudioKey(cardId), StatsKey(cardId)})
  {
    KeyFamiliesDisjoint(cardId, cardId);
  }

  /** A delivery that stops after the checks changes nothing in the store. */
  lemma UndeliveredKeepsStore(env: DeliverEnv, w: World, kv: Entries, cardId: string)
    requires !DeliverSpec(env, w, kv, cardId).outcome.Done?
    ensures DeliverSpec(env, w, kv, cardId).kv == kv
  {
  }

  /** A finished body on a well-formed board marks the card done and keeps its writing and error labels. */
  lemma DeliverBodyLabels(env: DeliverEnv, w: World, kv: Entries, cardId: string, audio: seq<bv8>, script: string, stats: Stats, lab: Label)
    requires WellFormed(w) && DistinctLabels(env.config.labels)
    requires DeliverBody(env, w, kv, cardId, audio, script, stats).outcome.Done?
    ensures HasLabel(DeliverBody(env, w, kv, cardId, audio, script, stats).world.card, env.config.labels.done)
    ensures lab in w.card.labels && (SameName(lab.name, env.config.labels.writing) || SameName(lab.name, env.config.labels.error))
            ==> lab in DeliverBody(env, w, kv, cardId, audio, script, stats).world.card.labels
  {
    var a := Announce(env, w, cardId, audio, script);
    AnnounceKeepsLabels(env, w, cardId, audio, script);
    assert WellFormed(a.world);
    CleanupMarksDone(env.config.labels, a.world, cardId);
    if lab in w.card.labels && (SameName(lab.name, env.config.labels.writing) || SameName(lab.name, env.config.labels.error)) {
      CleanupKeepsWritingAndError(env.config.labels, a.world, cardId, lab);
    }
  }

  /** On a well-formed board with distinct label names, a delivered card is done and keeps its writing and error labels. */
  lemma DeliveredLabels(env: DeliverEnv, w: World, kv: Entries, cardId: string, lab: Label)
    requires WellFormed(w) && DistinctLabels(env.config.labels)
    requires DeliverSpec(env, w, kv, cardId).outcome.Done?
    ensures HasLabel(DeliverSpec(env, w, kv, cardId).world.card, env.config.labels.done)
    ensures lab in w.card.labels && (SameName(lab.name, env.config.labels.writing) || SameName(lab.name, env.config.labels.error))
            ==> lab in DeliverSpec(env, w, kv, cardId).world.card.labels
  {
    DeliveredByBody(env, w, kv, cardId);
    DeliverBodyLabels(env, w, kv, cardId, AudioBytes(env, Lookup(kv, AudioKey(cardId)).value),
                      ScriptOrEmpty(env, Lookup(kv, ScriptKey(cardId))).value, ReadStats(Lookup(kv, StatsKey(cardId))).value, lab);
  }

  lemma DeliverBodyClearsStages(env: DeliverEnv, w: World, kv: Entries, cardId: string, audio: seq<bv8>, script: string, stats: Stats)
    requires WellFormed(w) && StagesAtMostOnce(env.config.labels, w.catalogue) && DistinctLabels(env.config.labels)
    requires DeliverBody(env, w, kv, cardId, audio, script, stats).outcome.Done?
    ensures ClearedOfStages(env.config.labels, DeliverBody(env, w, kv, cardId, audio, script, stats).world.card)
  {
    var a := Announce(env, w, cardId, audio, script);
    AnnounceKeepsLabels(env, w, cardId, audio, script);
    assert WellFormed(a.world);
    CleanupClearsStages(env.config.labels, a.world, cardId);
  }

  /**
   * On a well-formed board whose catalogue holds each removed name at most
   * once, and with label names that differ in lower case, a delivered card
   * carries the done label and none of the trigger, review, approved and
   * generating-voice labels.
   */
  lemma DeliveredClearsStages(env: DeliverEnv, w: World, kv: Entries, cardId: string)
    requires WellFormed(w) && StagesAtMostOnce(env.config.labels, w.catalogue) && DistinctLabels(env.config.labels)
    requires DeliverSpec(env, w, kv, cardId).outcome.Done?
    ensures ClearedOfStages(env.config.labels, DeliverSpec(env, w, kv, cardId).world.card)
    ensures HasLabel(DeliverSpec(env, w, kv, cardId).world.card, env.config.labels.done)
  {
    DeliveredByBody(env, w, kv, cardId);
    var audio := AudioBytes(env, Lookup(kv, AudioKey(cardId)).value);
    var script := ScriptOrEmpty(env, Lookup(kv, ScriptKey(cardId))).value;
    var stats := ReadStats(Lookup(kv, StatsKey(cardId))).value;
    DeliverBodyClearsStages(env, w, kv, cardId, audio, script, stats);
    DeliverBodyLabels(env, w, kv, cardId, audio, script, stats, Label(0, []));
  }

  method AnnounceDelivery(env: DeliverEnv, board: TrelloClient.Board, cardId: string, audio: seq<bv8>, script: string)
    returns (r: Result<(), string>)
    modifies board
    ensures Call(r, board.State()) == Announce(env, old(board.State()), cardId, audio, script)
  {
    r := PostDeliveryFiles(board, cardId, audio, script, DeliveredComment(env, |audio|, WordCount(script)));
    if r.Failure? {
      return;
    }
    r := board.MoveCardToList(cardId, env.config.labels.readyList);
  }

  method PostDeliveryFiles(board: TrelloClient.Board, cardId: string, audio: seq<bv8>, script: string, comment: string)
    returns (r: Result<(), string>)
    modifies board
    ensures Call(r, board.State()) == PostDelivery(old(board.State()), cardId, audio, script, comment)
  {
    r := board.AttachBinaryFile(cardId, "voice.mp3", audio, AudioMime);
    if r.Failure? {
      return;
    }
    if script != [] {
      r := board.AttachTextFile(cardId, "script.txt", script);
      if r.Failure? {
        return;
      }
    }
    r := board.AddComment(cardId, comment);
  }

  method CleanupLabels(l: Labels, board: TrelloClient.Board, cardId: string) returns (r: Result<(), string>)
    modifies board
    ensures Call(r, board.State()) == Cleanup(l, old(board.State()), cardId)
  {
    r := board.RemoveLabelByName(cardId, l.trigger);
    if r.Failure? {
      return;
    }
    r := board.RemoveLabelByName(cardId, l.review);
    if r.Failure? {
      return;
    }
    r := board.RemoveLabelByName(cardId, l.approved);
    if r.Failure? {
      return;
    }
    r := board.RemoveLabelByName(cardId, l.generatingVoice);
    if r.Failure? {
      return;
    }
    r := board.AddLabelByName(cardId, l.done);
  }

  /** `deliver` as the worker runs it. */
  method Deliver(env: DeliverEnv, board: TrelloClient.Board, store: Store, cardId: string) returns (outcome: Outcome)
    modifies board, store
    ensures Run(outcome, board.State(), store.entries) == DeliverSpec(env, old(board.State()), old(store.entries), cardId)
  {
    var stored := store.Get(AudioKey(cardId));
    if !Truthy(stored) {
      return Raised(NoAudio(cardId));
    }
    var audio := AudioBytes(env, stored.value);
    var raw := store.Get(ScriptKey(cardId));
    var script := ScriptOrEmpty(env, raw);
    if script.Failure? {
      return Raised(script.error);
    }
    var rawStats := store.Get(StatsKey(cardId));
    var stats := ReadStats(rawStats);
    if stats.Failure? {
      return Raised(stats.error);
    }
    outcome := DeliverFiles(env, board, store, cardId, audio, script.value, stats.value);
  }

  /** The body of `deliver` inside its `try`. */
  method DeliverFiles(env: DeliverEnv, board: TrelloClient.Board, store: Store, cardId: string, audio: seq<bv8>, script: string, stats: Stats)
    returns (outcome: Outcome)
    modifies board, store
    ensures Run(outcome, board.State(), store.entries) == DeliverBody(env, old(board.State()), old(store.entries), cardId, audio, script, stats)
  {
    var r := AnnounceDelivery(env, board, cardId, audio, script);
    if r.Failure? {
      return Retried(r.error);
    }
    r := CleanupLabels(env.config.labels, board, cardId);
    if r.Failure? {
      return Retried(r.error);
    }
    store.Set(StatsKey(cardId), Json(stats["step_deliver_duration" := Measure(env.duration)]), ScriptTtl);
    var _ := store.Delete(AudioKey(cardId));
    return Done;
  }
}
