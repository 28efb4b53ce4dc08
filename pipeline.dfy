/**
 * `workers/tasks/pipeline.py`: the two chains the webhook dispatches and the
 * error callback bound to them, plus how the stages of a chain hand their
 * results to one another through the store.
 *
 * Celery's scheduling is not modelled: a chain is the list of immutable task
 * signatures it runs in order, together with the callback it links on error.
 */
module Pipeline {
  import opened Results
  import opened PyStr
  import opened KeyValue
  import opened Trello
  import opened Settings
  import opened Tasks
  import Claude
  import ScriptTasks
  import DeliverTasks
  import TrelloClient

  datatype TaskName = WriteScriptTask | GenerateVoiceTask | DeliverTask | OnErrorTask

  /** An immutable signature (`task.si(...)`): the worker and its three arguments. */
  datatype Signature = Signature(task: TaskName, cardId: string, channelLabel: string, cardName: string)

  /** A dispatched chain: its stages in order and the callback linked on error. */
  datatype Dispatch = Dispatch(chain: seq<Signature>, linkError: Signature)

  function TasksOf(sigs: seq<Signature>): (ts: seq<TaskName>)
    ensures |ts| == |sigs| && forall i :: 0 <= i < |sigs| ==> ts[i] == sigs[i].task
  {
    if sigs == [] then [] else [sigs[0].task] + TasksOf(sigs[1..])
  }

  /** Every stage and the error callback get the same card, channel and card name. */
  predicate BoundTo(d: Dispatch, cardId: string, channelLabel: string, cardName: string) {
    && (forall s :: s in d.chain ==> s.cardId == cardId && s.channelLabel == channelLabel && s.cardName == cardName)
    && d.linkError == Signature(OnErrorTask, cardId, channelLabel, cardName)
  }

  function Bind(tasks: seq<TaskName>, cardId: string, channelLabel: string, cardName: string): (d: Dispatch)
    ensures TasksOf(d.chain) == tasks && BoundTo(d, cardId, channelLabel, cardName)
  {
    var chain := seq(|tasks|, i requires 0 <= i < |tasks| => Signature(tasks[i], cardId, channelLabel, cardName));
    Dispatch(chain, Signature(OnErrorTask, cardId, channelLabel, cardName))
  }

  /** `start_script_pipeline`: write the script, then wait for review. */
  function ScriptPipeline(cardId: string, channelLabel: string, cardName: string): (d: Dispatch)
    ensures TasksOf(d.chain) == [WriteScriptTask]
    ensures BoundTo(d, cardId, channelLabel, cardName)
  {
    Bind([WriteScriptTask], cardId, channelLabel, cardName)
  }

  /** `start_voice_pipeline`: generate the voice, then deliver. */
  function VoicePipeline(cardId: string, channelLabel: string, cardName: string): (d: Dispatch)
    ensures TasksOf(d.chain) == [GenerateVoiceTask, DeliverTask]
    ensures BoundTo(d, cardId, channelLabel, cardName)
  {
    Bind([GenerateVoiceTask, DeliverTask], cardId, channelLabel, cardName)
  }

  /** The two chains share no stage: a script chain never voices and a voice chain never writes. */
  lemma PipelinesDisjoint(c1: string, l1: string, n1: string, c2: string, l2: string, n2: string)
    ensures forall s, t :: s in ScriptPipeline(c1, l1, n1).chain && t in VoicePipeline(c2, l2, n2).chain ==> s.task != t.task
  {
    var sp, vp := ScriptPipeline(c1, l1, n1), VoicePipeline(c2, l2, n2);
    assert |sp.chain| == 1 && sp.chain[0].task == WriteScriptTask;
    assert |vp.chain| == 2 && vp.chain[0].task == GenerateVoiceTask && vp.chain[1].task == DeliverTask;
  }

  // ---------------------------------------------------------------------
  // on_pipeline_error

  const ErrorHeading: string := "**Snap Pipeline Error**\n\n"

  /** An f-string renders a missing parent task id as `None`. */
  function ParentText(parentId: Option<string>): string {
    if parentId.Some? then parentId.value else "None"
  }

  function ErrorMessage(parentId: Option<string>): string {
    "Snap pipeline failed (task: " + ParentText(parentId) + "). Check worker logs for details."
  }

  function ErrorComment(parentId: Option<string>): string {
    ErrorHeading + ErrorMessage(parentId)
  }

  /** The escalation comment carries the bot marker. */
  lemma ErrorCommentIsBotComment(parentId: Option<string>)
    ensures StartsWith(ErrorComment(parentId), "**")
  {
    var rest := ErrorMessage(parentId);
    assert (ErrorHeading + rest)[..2] == ErrorHeading[..2];
  }

  /** The escalation names the failed parent task. */
  lemma ErrorCommentNamesParent(id: string)
    ensures Contains(ErrorComment(Some(id)), id)
  {
    var pre := ErrorHeading + "Snap pipeline failed (task: ";
    var post := "). Check worker logs for details.";
    assert ErrorComment(Some(id)) == pre + id + post;
    assert (pre + id + post)[|pre|..|pre| + |id|] == id;
    ContainsAt(ErrorComment(Some(id)), id, |pre|);
  }

  /**
   * `on_pipeline_error`: add the error label, then post the comment; a
   * failure of either is logged and swallowed, so the callback only leaves
   * a board behind.
   */
  function OnPipelineErrorSpec(l: Labels, w: World, cardId: string, parentId: Option<string>): (r: World)
    ensures w.card.labels <= r.card.labels
    ensures r.card.attachments == w.card.attachments && r.card.listId == w.card.listId
  {
    AddLabelKeepsCardLabels(w, cardId, l.error);
    var added := AddLabelByName(w, cardId, l.error);
    if added.result.Failure? then added.world
    else AddComment(added.world, cardId, ErrorComment(parentId)).world
  }

  /**
   * The escalation logs label actions and then at most the one comment; the
   * comment is posted exactly when the label was added and the comment
   * request went through.
   */
  lemma EscalationLog(l: Labels, w: World, cardId: string, parentId: Option<string>)
    ensures var added := AddLabelByName(w, cardId, l.error);
            var after := OnPipelineErrorSpec(l, w, cardId, parentId);
            && ExtendsWithLabelActions(w.log, added.world.log)
            && (after.log == added.world.log || after.log == added.world.log + [Commented(ErrorComment(parentId))])
            && (after.log == added.world.log + [Commented(ErrorComment(parentId))]
                <==> added.result.Success? && AddComment(added.world, cardId, ErrorComment(parentId)).result.Success?)
  {
    AddLabelLogsLabels(w, cardId, l.error);
  }

  /** On a well-formed board a successful label request leaves the error label on the card, whatever happens to the comment. */
  lemma EscalationMarksCard(l: Labels, w: World, cardId: string, parentId: Option<string>)
    requires WellFormed(w) && AddLabelByName(w, cardId, l.error).result.Success?
    ensures HasLabel(OnPipelineErrorSpec(l, w, cardId, parentId).card, l.error)
  {
    AddLabelGivesLabel(w, cardId, l.error);
  }

  /** `on_pipeline_error` as the worker runs it. */
  method OnPipelineError(config: PipelineConfig, board: TrelloClient.Board, cardId: string, parentId: Option<string>)
    modifies board
    ensures board.State() == OnPipelineErrorSpec(config.labels, old(board.State()), cardId, parentId)
  {
    var r := board.AddLabelByName(cardId, config.labels.error);
    if r.Success? {
      r := board.AddComment(cardId, ErrorComment(parentId));
    }
  }

  // ---------------------------------------------------------------------
  // Hand-offs between the stages

  /**
   * A finished `write_script` leaves a script that `generate_voice` accepts:
   * the voice step does not raise for a missing script and voices exactly
   * the written text.
   */
  lemma ScriptReachesVoice(wenv: ScriptTasks.WriteEnv, venv: DeliverTasks.VoiceEnv, w: World, kv: Entries,
                           cardId: string, channelLabel: string, cardName: string)
    requires ScriptTasks.WriteScriptSpec(wenv, w, kv, cardId, channelLabel, cardName).outcome.Finished?
    ensures var run := ScriptTasks.WriteScriptSpec(wenv, w, kv, cardId, channelLabel, cardName);
            var next := DeliverTasks.GenerateVoiceSpec(venv, run.world, run.kv, cardId, channelLabel);
            && Truthy(Lookup(run.kv, ScriptKey(cardId)))
            && !next.outcome.Raised?
            && next == DeliverTasks.VoiceBody(venv, run.world, run.kv, cardId, channelLabel, run.outcome.value)
  {
    var run := ScriptTasks.WriteScriptSpec(wenv, w, kv, cardId, channelLabel, cardName);
    var script := run.outcome.value;
    ScriptTasks.WriteFinishedStores(wenv, w, kv, cardId, channelLabel, cardName);
    assert Lookup(run.kv, ScriptKey(cardId)) == Some(Text(script));
    DeliverTasks.VoiceOfStoredText(venv, run.world, run.kv, cardId, channelLabel, script);
  }

  /**
   * A finished `generate_voice` whose audio is not empty leaves what
   * `deliver` needs: the audio check passes and the audio delivered is the
   * audio the speech service produced.
   */
  lemma VoiceReachesDelivery(venv: DeliverTasks.VoiceEnv, denv: DeliverTasks.DeliverEnv, w: World, kv: Entries,
                             cardId: string, channelLabel: string)
    requires DeliverTasks.GenerateVoiceSpec(venv, w, kv, cardId, channelLabel).outcome.Finished?
    requires var run := DeliverTasks.GenerateVoiceSpec(venv, w, kv, cardId, channelLabel);
             run.kv[AudioKey(cardId)].value.bytes != []
    ensures var run := DeliverTasks.GenerateVoiceSpec(venv, w, kv, cardId, channelLabel);
            && Truthy(Lookup(run.kv, AudioKey(cardId)))
            && DeliverTasks.AudioBytes(denv, Lookup(run.kv, AudioKey(cardId)).value) == run.kv[AudioKey(cardId)].value.bytes
  {
    DeliverTasks.VoiceFinishedStores(venv, w, kv, cardId, channelLabel);
  }

  /**
   * When the speech service returns no bytes, `generate_voice` still
   * finishes, and the `deliver` that follows raises: stored empty audio
   * reads as missing.
   */
  lemma EmptyAudioStopsDelivery(venv: DeliverTasks.VoiceEnv, denv: DeliverTasks.DeliverEnv, w: World, kv: Entries,
                                cardId: string, channelLabel: string)
    requires DeliverTasks.GenerateVoiceSpec(venv, w, kv, cardId, channelLabel).outcome.Finished?
    requires var run := DeliverTasks.GenerateVoiceSpec(venv, w, kv, cardId, channelLabel);
             run.kv[AudioKey(cardId)].value.bytes == []
    ensures var run := DeliverTasks.GenerateVoiceSpec(venv, w, kv, cardId, channelLabel);
            DeliverTasks.DeliverSpec(denv, run.world, run.kv, cardId) == Run(Raised(DeliverTasks.NoAudio(cardId)), run.world, run.kv)
  {
    DeliverTasks.VoiceFinishedStores(venv, w, kv, cardId, channelLabel);
  }

  /**
   * The voice step does not tell the webhook's lock value from a script:
   * with the sentinel still stored (the script was never written) the
   * speech service is asked to voice "1".
   */
  lemma SentinelReachesSpeech(venv: DeliverTasks.VoiceEnv, w: World, kv: Entries, cardId: string, channelLabel: string)
    requires Lookup(kv, ScriptKey(cardId)) == Some(Text(Sentinel))
    ensures DeliverTasks.GenerateVoiceSpec(venv, w, kv, cardId, channelLabel)
            == DeliverTasks.VoiceBody(venv, w, kv, cardId, channelLabel, Sentinel)
  {
    assert Truthy(Lookup(kv, ScriptKey(cardId)));
  }
}
