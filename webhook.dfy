/**
 * `api/main.py`: the Trello webhook, which routes an event to at most one
 * piece of work, gated by set-if-absent locks in the store, and the admin
 * endpoint that clears a card's locks.
 *
 * The signature check, the JSON parsing of the body and the request that
 * reads the card's labels are parameters. The work a route enqueues is
 * returned as data instead of being sent to the broker.
 */
module Webhook {
  import opened Results
  import opened PyStr
  import opened KeyValue
  import opened Settings
  import Pipeline

  // ---------------------------------------------------------------------
  // The request

  datatype Request = Request(body: seq<bv8>, headers: map<string, string>, path: string)

  /** `headers.get(name, default)` */
  function Header(h: map<string, string>, name: string, default: string): string
  {
    if name in h then h[name] else default
  }

  /** The host Trello signed: the forwarded host, else the `Host` header, else empty. */
  function CallbackHost(h: map<string, string>): string {
    Header(h, "x-forwarded-host", Header(h, "host", ""))
  }

  /** The callback URL the signature is checked against: scheme, host and the request path. */
  function CallbackUrl(h: map<string, string>, path: string): string {
    Header(h, "x-forwarded-proto", "https") + "://" + CallbackHost(h) + path
  }

  /** Without proxy headers the callback URL is `https://` with the request's own host. */
  lemma CallbackUrlDefaults(h: map<string, string>, path: string)
    requires "x-forwarded-proto" !in h && "x-forwarded-host" !in h && "host" in h
    ensures CallbackUrl(h, path) == "https://" + h["host"] + path
  {
  }

  /** Behind a proxy the forwarded scheme and host win over the request's own. */
  lemma CallbackUrlForwarded(h: map<string, string>, path: string)
    requires "x-forwarded-proto" in h && "x-forwarded-host" in h
    ensures CallbackUrl(h, path) == h["x-forwarded-proto"] + "://" + h["x-forwarded-host"] + path
  {
  }

  /** With a forwarded host, the request's own `Host` header does not matter. */
  lemma ForwardedHostWins(h: map<string, string>, path: string, host: string)
    requires "x-forwarded-host" in h
    ensures CallbackUrl(h["host" := host], path) == CallbackUrl(h, path)
  {
  }

  /** The fields of the event the router reads; an absent field is `None`. */
  datatype Event = Event(
    actionType: Option<string>,
    cardId: Option<string>,
    cardName: Option<string>,
    text: Option<string>,
    labelName: Option<string>)

  /** What the card request returns: each label's name (when present) and the card's name. */
  datatype FullCard = FullCard(labels: seq<Option<string>>, name: Option<string>)

  /**
   * What the handler depends on besides the store: the pipeline config, the
   * signature check on (body, signature, callback URL), the parsed body and
   * the card request (which fails on an HTTP error).
   */
  datatype WebhookEnv = WebhookEnv(
    config: PipelineConfig,
    verify: (seq<bv8>, string, string) -> bool,
    parse: seq<bv8> -> Event,
    fetchCard: string -> Result<FullCard, string>)

  function OrEmpty(v: Option<string>): string {
    if v.Some? then v.value else []
  }

  // ---------------------------------------------------------------------
  // Replies and work

  /** The HTTP answer: 401, a JSON status with its fields, or the 500 of an unhandled error. */
  datatype Reply =
    | Unauthorized
    | Ignored(reason: string)
    | RevisionQueued(cardId: string)
    | VoiceEnqueued(cardId: string)
    | ScriptEnqueued(cardId: string, channel: string)
    | Failed(error: string)

  /** Work handed to the workers: a revision task, or a dispatched chain. */
  datatype Job =
    | Revise(cardId: string, channelLabel: string, cardName: string, comment: string)
    | Start(dispatch: Pipeline.Dispatch)

  /** One handled request: the reply, the work enqueued, and the store left behind. */
  datatype Handled = Handled(reply: Reply, jobs: seq<Job>, kv: Entries)

  const AddLabelAction: string := "addLabelToCard"
  const CommentAction: string := "commentCard"
  const BotMarker: string := "**"

  // ---------------------------------------------------------------------
  // Label names

  /** The card's label names, lower-cased, with absent and empty names dropped. */
  function LabelNames(raw: seq<Option<string>>): (names: seq<string>)
    ensures forall n :: n in names ==> n != [] && Lower(n) == n
    ensures forall i :: 0 <= i < |raw| && raw[i].Some? && raw[i].value != [] ==> Lower(raw[i].value) in names
    ensures forall n :: n in names ==> exists i :: 0 <= i < |raw| && raw[i].Some? && n == Lower(raw[i].value)
  {
    if raw == [] then []
    else
      var rest := LabelNames(raw[1..]);
      assert forall n :: n in rest ==> exists i :: 0 <= i < |raw| && raw[i].Some? && n == Lower(raw[i].value) by {
        forall n | n in rest ensures exists i :: 0 <= i < |raw| && raw[i].Some? && n == Lower(raw[i].value) {
          var j :| 0 <= j < |raw[1..]| && raw[1..][j].Some? && n == Lower(raw[1..][j].value);
          assert raw[j + 1] == raw[1..][j];
        }
      }
      assert forall i :: 1 <= i < |raw| ==> raw[i] == raw[1..][i - 1];
      if raw[0].Some? && raw[0].value != [] then
        LowerIdempotent(raw[0].value);
        [Lower(raw[0].value)] + rest
      else rest
  }

  // ---------------------------------------------------------------------
  // The routes

  /** `SET key "1" NX EX 86400` on a store value: whether it was created, and the store after. */
  function Lock(kv: Entries, key: string): (bool, Entries)
  {
    if key in kv then (false, kv) else (true, kv[key := Entry(Text(Sentinel), LockTtl)])
  }

  /** Route A: a comment on a card under review asks for a revision. */
  function CommentRoute(cfg: PipelineConfig, cardId: string, cardName: string, names: seq<string>, text: string): (r: (Reply, seq<Job>))
    ensures r.0.RevisionQueued? || r.0.Ignored?
    ensures r.0.Ignored? ==> r.1 == []
  {
    if StartsWith(text, BotMarker) then (Ignored("bot comment"), [])
    else if Lower(cfg.labels.review) !in names then (Ignored("card not in review"), [])
    else
      var snap := GetSnapChannel(cfg, names);
      if snap.None? then (Ignored("no snap channel label"), [])
      else (RevisionQueued(cardId), [Revise(cardId, GetChannel(cfg, snap.value).value.name, cardName, text)])
  }

  /** Route B: the approved label starts the voice chain once per lock. */
  function ApprovedRoute(cfg: PipelineConfig, kv: Entries, cardId: string, cardName: string, names: seq<string>): (h: Handled)
    ensures h.reply.VoiceEnqueued? || h.reply.Ignored?
    ensures h.reply.Ignored? ==> h.jobs == [] && h.kv == kv
  {
    var snap := GetSnapChannel(cfg, names);
    if snap.None? then Handled(Ignored("no snap channel label"), [], kv)
    else
      var (created, kv1) := Lock(kv, VoiceKey(cardId));
      if !created then Handled(Ignored("voice already processing"), [], kv)
      else
        var channel := GetChannel(cfg, snap.value).value;
        Handled(VoiceEnqueued(cardId), [Start(Pipeline.VoicePipeline(cardId, channel.name, cardName))], kv1)
  }

  /** Route C: the trigger label with a channel starts the script chain once per lock. */
  function TriggerRoute(cfg: PipelineConfig, kv: Entries, cardId: string, cardName: string, names: seq<string>): (h: Handled)
    ensures h.reply.ScriptEnqueued? || h.reply.Ignored?
    ensures h.reply.Ignored? ==> h.jobs == [] && h.kv == kv
  {
    if Lower(cfg.labels.trigger) !in names then Handled(Ignored("no trigger label"), [], kv)
    else
      var snap := GetSnapChannel(cfg, names);
      if snap.None? then Handled(Ignored("no snap channel label"), [], kv)
      else
        var (created, kv1) := Lock(kv, ScriptKey(cardId));
        if !created then Handled(Ignored("already processing"), [], kv)
        else
          var channel := GetChannel(cfg, snap.value).value;
          Handled(ScriptEnqueued(cardId, channel.name), [Start(Pipeline.ScriptPipeline(cardId, channel.name, cardName))], kv1)
  }

  /** Steps after the card was read: comments go to route A; label additions to B when the approved label was added, else to C. */
  function Route(cfg: PipelineConfig, kv: Entries, ev: Event, actionType: string, cardId: string, cardName: string, names: seq<string>): (h: Handled)
    requires actionType == AddLabelAction || actionType == CommentAction
    ensures |h.jobs| <= 1
    ensures h.reply.Ignored? <==> h.jobs == []
    ensures h.jobs == [] || actionType == CommentAction ==> h.kv == kv
  {
    if actionType == CommentAction then
      var (reply, jobs) := CommentRoute(cfg, cardId, cardName, names, OrEmpty(ev.text));
      Handled(reply, jobs, kv)
    else if Lower(OrEmpty(ev.labelName)) == Lower(cfg.labels.approved) then ApprovedRoute(cfg, kv, cardId, cardName, names)
    else TriggerRoute(cfg, kv, cardId, cardName, names)
  }

  /** `trello_webhook`: one request enqueues at most one job, and changes the store only when it does. */
  function WebhookSpec(env: WebhookEnv, req: Request, kv: Entries): (h: Handled)
    ensures |h.jobs| <= 1
    ensures h.jobs == [] ==> h.kv == kv
  {
    var signature := Header(req.headers, "x-trello-webhook", "");
    if !env.verify(req.body, signature, CallbackUrl(req.headers, req.path)) then Handled(Unauthorized, [], kv)
    else
      var ev := env.parse(req.body);
      var actionType := OrEmpty(ev.actionType);
      if actionType != AddLabelAction && actionType != CommentAction then
        Handled(Ignored("action_type=" + actionType), [], kv)
      else if ev.cardId.None? || ev.cardId.value == [] then Handled(Ignored("no card_id"), [], kv)
      else
        var cardId := ev.cardId.value;
        var card := env.fetchCard(cardId);
        if card.Failure? then Handled(Failed(card.error), [], kv)
        else
          var cardName := if card.value.name.Some? then card.value.name.value else OrEmpty(ev.cardName);
          Route(env.config, kv, ev, actionType, cardId, cardName, LabelNames(card.value.labels))
  }

  // ---------------------------------------------------------------------
  // Properties of the router

  /** A request whose signature does not check out is refused before anything else. */
  lemma BadSignatureRejected(env: WebhookEnv, req: Request, kv: Entries)
    requires !env.verify(req.body, Header(req.headers, "x-trello-webhook", ""), CallbackUrl(req.headers, req.path))
    ensures WebhookSpec(env, req, kv) == Handled(Unauthorized, [], kv)
  {
  }

  /** Any other action type is ignored with its name, before the card is read: nothing is enqueued and the store is untouched. */
  lemma OtherActionsIgnored(env: WebhookEnv, req: Request, kv: Entries, fetch: string -> Result<FullCard, string>)
    requires env.verify(req.body, Header(req.headers, "x-trello-webhook", ""), CallbackUrl(req.headers, req.path))
    requires var t := OrEmpty(env.parse(req.body).actionType); t != AddLabelAction && t != CommentAction
    ensures WebhookSpec(env, req, kv) == Handled(Ignored("action_type=" + OrEmpty(env.parse(req.body).actionType)), [], kv)
    ensures WebhookSpec(env.(fetchCard := fetch), req, kv) == WebhookSpec(env, req, kv)
  {
  }

  /** A relevant event without a card id is ignored before the card is read. */
  lemma MissingCardIgnored(env: WebhookEnv, req: Request, kv: Entries, fetch: string -> Result<FullCard, string>)
    requires env.verify(req.body, Header(req.headers, "x-trello-webhook", ""), CallbackUrl(req.headers, req.path))
    requires var ev := env.parse(req.body);
             (OrEmpty(ev.actionType) == AddLabelAction || OrEmpty(ev.actionType) == CommentAction)
             && (ev.cardId.None? || ev.cardId.value == [])
    ensures WebhookSpec(env, req, kv) == Handled(Ignored("no card_id"), [], kv)
    ensures WebhookSpec(env.(fetchCard := fetch), req, kv) == WebhookSpec(env, req, kv)
  {
  }

  /** A card that cannot be read fails the request, and nothing is enqueued or locked. */
  lemma UnreadableCardFails(env: WebhookEnv, req: Request, kv: Entries)
    requires env.verify(req.body, Header(req.headers, "x-trello-webhook", ""), CallbackUrl(req.headers, req.path))
    requires var ev := env.parse(req.body);
             (OrEmpty(ev.actionType) == AddLabelAction || OrEmpty(ev.actionType) == CommentAction)
             && ev.cardId.Some? && ev.cardId.value != [] && env.fetchCard(ev.cardId.value).Failure?
    ensures WebhookSpec(env, req, kv).reply.Failed? && WebhookSpec(env, req, kv).jobs == [] && WebhookSpec(env, req, kv).kv == kv
  {
  }

  /**
   * A comment never reaches the voice or script routes: it never touches
   * the store, and it enqueues at most a revision for that card.
   */
  lemma CommentsOnlyRevise(cfg: PipelineConfig, kv: Entries, ev: Event, cardId: string, cardName: string, names: seq<string>)
    ensures var h := Route(cfg, kv, ev, CommentAction, cardId, cardName, names);
            && h.kv == kv
            && (h.reply.Ignored? || h.reply == RevisionQueued(cardId))
            && (forall j :: j in h.jobs ==> j.Revise? && j.cardId == cardId && j.comment == OrEmpty(ev.text))
  {
  }

  /**
   * A revision is queued exactly when the comment does not start with the
   * bot marker, the card carries the review label and a snap channel; the
   * revision gets that channel's name and the comment.
   */
  lemma RevisionQueuedExactly(cfg: PipelineConfig, kv: Entries, ev: Event, cardId: string, cardName: string, names: seq<string>)
    ensures var h := Route(cfg, kv, ev, CommentAction, cardId, cardName, names);
            var text := OrEmpty(ev.text);
            h.reply.RevisionQueued?
            <==> (!StartsWith(text, BotMarker) && Lower(cfg.labels.review) in names && GetSnapChannel(cfg, names).Some?)
    ensures var h := Route(cfg, kv, ev, CommentAction, cardId, cardName, names);
            h.reply.RevisionQueued? ==>
              h.jobs == [Revise(cardId, GetChannel(cfg, GetSnapChannel(cfg, names).value).value.name, cardName, OrEmpty(ev.text))]
  {
  }

  /** A comment that starts with the bot marker is ignored as the bot's own. */
  lemma BotCommentIgnored(cfg: PipelineConfig, kv: Entries, ev: Event, cardId: string, cardName: string, names: seq<string>)
    requires StartsWith(OrEmpty(ev.text), BotMarker)
    ensures Route(cfg, kv, ev, CommentAction, cardId, cardName, names) == Handled(Ignored("bot comment"), [], kv)
  {
  }

  /** The pipeline's own error comment, coming back as a webhook event, never asks for a revision. */
  lemma EscalationNotRevised(cfg: PipelineConfig, kv: Entries, ev: Event, cardId: string, cardName: string, names: seq<string>,
                             parentId: Option<string>)
    requires ev.text == Some(Pipeline.ErrorComment(parentId))
    ensures Route(cfg, kv, ev, CommentAction, cardId, cardName, names) == Handled(Ignored("bot comment"), [], kv)
  {
    Pipeline.ErrorCommentIsBotComment(parentId);
  }

  /**
   * The script route fires on any label addition other than the approved
   * label, not only on the trigger: it starts the script chain exactly when
   * the card carries the trigger label and a snap channel, and no script key
   * exists yet; it then holds the script key for 24 hours.
   */
  lemma ScriptStartsExactly(cfg: PipelineConfig, kv: Entries, ev: Event, cardId: string, cardName: string, names: seq<string>)
    ensures var h := Route(cfg, kv, ev, AddLabelAction, cardId, cardName, names);
            h.reply.ScriptEnqueued?
            <==> (&& Lower(OrEmpty(ev.labelName)) != Lower(cfg.labels.approved)
                  && Lower(cfg.labels.trigger) in names
                  && GetSnapChannel(cfg, names).Some?
                  && ScriptKey(cardId) !in kv)
    ensures var h := Route(cfg, kv, ev, AddLabelAction, cardId, cardName, names);
            h.reply.ScriptEnqueued? ==>
              var channel := GetChannel(cfg, GetSnapChannel(cfg, names).value).value;
              && h.reply == ScriptEnqueued(cardId, channel.name)
              && h.jobs == [Start(Pipeline.ScriptPipeline(cardId, channel.name, cardName))]
              && h.kv == kv[ScriptKey(cardId) := Entry(Text(Sentinel), LockTtl)]
  {
  }

  /**
   * Adding the approved label (in any case) starts the voice chain exactly
   * when the card carries a snap channel and no voice key exists yet; it
   * then holds the voice key for 24 hours.
   */
  lemma VoiceStartsExactly(cfg: PipelineConfig, kv: Entries, ev: Event, cardId: string, cardName: string, names: seq<string>)
    ensures var h := Route(cfg, kv, ev, AddLabelAction, cardId, cardName, names);
            h.reply.VoiceEnqueued?
            <==> (&& Lower(OrEmpty(ev.labelName)) == Lower(cfg.labels.approved)
                  && GetSnapChannel(cfg, names).Some?
                  && VoiceKey(cardId) !in kv)
    ensures var h := Route(cfg, kv, ev, AddLabelAction, cardId, cardName, names);
            h.reply.VoiceEnqueued? ==>
              var channel := GetChannel(cfg, GetSnapChannel(cfg, names).value).value;
              && h.jobs == [Start(Pipeline.VoicePipeline(cardId, channel.name, cardName))]
              && h.kv == kv[VoiceKey(cardId) := Entry(Text(Sentinel), LockTtl)]
  {
  }

  /** Once the approved label is seen, the trigger route is not consulted: an approval never starts the script chain. */
  lemma ApprovalNeverWrites(cfg: PipelineConfig, kv: Entries, ev: Event, cardId: string, cardName: string, names: seq<string>)
    requires Lower(OrEmpty(ev.labelName)) == Lower(cfg.labels.approved)
    ensures var h := Route(cfg, kv, ev, AddLabelAction, cardId, cardName, names);
            !h.reply.ScriptEnqueued? && ScriptKey(cardId) !in h.kv - kv.Keys
  {
  }

  /** The store changes only by the one lock the route took, for the card of the event. */
  lemma RouteStoreChange(cfg: PipelineConfig, kv: Entries, ev: Event, actionType: string, cardId: string, cardName: string, names: seq<string>)
    requires actionType == AddLabelAction || actionType == CommentAction
    ensures var h := Route(cfg, kv, ev, actionType, cardId, cardName, names);
            || (h.kv == kv && h.jobs == [] && h.reply.Ignored?)
            || (h.kv == kv && h.reply.RevisionQueued?)
            || (h.reply.VoiceEnqueued? && VoiceKey(cardId) !in kv && h.kv == kv[VoiceKey(cardId) := Entry(Text(Sentinel), LockTtl)])
            || (h.reply.ScriptEnqueued? && ScriptKey(cardId) !in kv && h.kv == kv[ScriptKey(cardId) := Entry(Text(Sentinel), LockTtl)])
  {
  }

  /** Past the checks, the handler is the route on the card's lower-cased label names. */
  lemma WebhookRoutes(env: WebhookEnv, req: Request, kv: Entries)
    requires env.verify(req.body, Header(req.headers, "x-trello-webhook", ""), CallbackUrl(req.headers, req.path))
    requires var ev := env.parse(req.body);
             (OrEmpty(ev.actionType) == AddLabelAction || OrEmpty(ev.actionType) == CommentAction)
             && ev.cardId.Some? && ev.cardId.value != [] && env.fetchCard(ev.cardId.value).Success?
    ensures var ev := env.parse(req.body);
            var card := env.fetchCard(ev.cardId.value).value;
            var cardName := if card.name.Some? then card.name.value else OrEmpty(ev.cardName);
            WebhookSpec(env, req, kv)
            == Route(env.config, kv, ev, OrEmpty(ev.actionType), ev.cardId.value, cardName, LabelNames(card.labels))
  {
  }

  /**
   * At most one voice chain per voice key: after a request started the voice
   * chain for a card, no request for that card starts another while the key
   * is held, whatever its event.
   */
  lemma VoiceOncePerLock(cfg: PipelineConfig, kv: Entries, ev1: Event, ev2: Event, t2: string, cardId: string,
                         n1: string, n2: string, names1: seq<string>, names2: seq<string>)
    requires t2 == AddLabelAction || t2 == CommentAction
    requires Route(cfg, kv, ev1, AddLabelAction, cardId, n1, names1).reply.VoiceEnqueued?
    ensures var h1 := Route(cfg, kv, ev1, AddLabelAction, cardId, n1, names1);
            !Route(cfg, h1.kv, ev2, t2, cardId, n2, names2).reply.VoiceEnqueued?
  {
    VoiceStartsExactly(cfg, kv, ev1, cardId, n1, names1);
    if t2 == AddLabelAction {
      VoiceStartsExactly(cfg, Route(cfg, kv, ev1, AddLabelAction, cardId, n1, names1).kv, ev2, cardId, n2, names2);
    }
  }

  /** At most one script chain per script key, in the same way. */
  lemma ScriptOncePerLock(cfg: PipelineConfig, kv: Entries, ev1: Event, ev2: Event, t2: string, cardId: string,
                          n1: string, n2: string, names1: seq<string>, names2: seq<string>)
    requires t2 == AddLabelAction || t2 == CommentAction
    requires Route(cfg, kv, ev1, AddLabelAction, cardId, n1, names1).reply.ScriptEnqueued?
    ensures var h1 := Route(cfg, kv, ev1, AddLabelAction, cardId, n1, names1);
            !Route(cfg, h1.kv, ev2, t2, cardId, n2, names2).reply.ScriptEnqueued?
  {
    ScriptStartsExactly(cfg, kv, ev1, cardId, n1, names1);
    if t2 == AddLabelAction {
      ScriptStartsExactly(cfg, Route(cfg, kv, ev1, AddLabelAction, cardId, n1, names1).kv, ev2, cardId, n2, names2);
    }
  }

  /** `trello_webhook` as the server runs it, with the store as Redis. */
  method TrelloWebhook(env: WebhookEnv, store: Store, req: Request) returns (reply: Reply, jobs: seq<Job>)
    modifies store
    ensures Handled(reply, jobs, store.entries) == WebhookSpec(env, req, old(store.entries))
  {
    var signature := Header(req.headers, "x-trello-webhook", "");
    if !env.verify(req.body, signature, CallbackUrl(req.headers, req.path)) {
      return Unauthorized, [];
    }
    var ev := env.parse(req.body);
    var actionType := OrEmpty(ev.actionType);
    if actionType != AddLabelAction && actionType != CommentAction {
      return Ignored("action_type=" + actionType), [];
    }
    if ev.cardId.None? || ev.cardId.value == [] {
      return Ignored("no card_id"), [];
    }
    var cardId := ev.cardId.value;
    var card := env.fetchCard(cardId);
    if card.Failure? {
      return Failed(card.error), [];
    }
    var cardName := if card.value.name.Some? then card.value.name.value else OrEmpty(ev.cardName);
    var names := LabelNames(card.value.labels);
    reply, jobs := RouteEvent(env.config, store, ev, actionType, cardId, cardName, names);
  }

  /** The routes, taking the lock with `SET NX` on the store. */
  method RouteEvent(cfg: PipelineConfig, store: Store, ev: Event, actionType: string, cardId: string, cardName: string, names: seq<string>)
    returns (reply: Reply, jobs: seq<Job>)
    requires actionType == AddLabelAction || actionType == CommentAction
    modifies store
    ensures Handled(reply, jobs, store.entries) == Route(cfg, old(store.entries), ev, actionType, cardId, cardName, names)
  {
    if actionType == CommentAction {
      reply, jobs := CommentRoute(cfg, cardId, cardName, names, OrEmpty(ev.text)).0, CommentRoute(cfg, cardId, cardName, names, OrEmpty(ev.text)).1;
      return;
    }
    var approving := Lower(OrEmpty(ev.labelName)) == Lower(cfg.labels.approved);
    if !approving && Lower(cfg.labels.trigger) !in names {
      return Ignored("no trigger label"), [];
    }
    var snap := GetSnapChannel(cfg, names);
    if snap.None? {
      return Ignored("no snap channel label"), [];
    }
    var key := if approving then VoiceKey(cardId) else ScriptKey(cardId);
    var created := store.SetIfAbsent(key, Text(Sentinel), LockTtl);
    if !created {
      return Ignored(if approving then "voice already processing" else "already processing"), [];
    }
    var channel := GetChannel(cfg, snap.value).value;
    if approving {
      return VoiceEnqueued(cardId), [Start(Pipeline.VoicePipeline(cardId, channel.name, cardName))];
    }
    return ScriptEnqueued(cardId, channel.name), [Start(Pipeline.ScriptPipeline(cardId, channel.name, cardName))];
  }

  // ---------------------------------------------------------------------
  // reset_card

  /** The keys the admin endpoint clears: the two locks and the audio, not the stats. */
  function ResetKeys(cardId: string): (keys: set<string>)
    ensures |keys| == 3
    ensures StatsKey(cardId) !in keys
  {
    KeyFamiliesDisjoint(cardId, cardId);
    {ScriptKey(cardId), VoiceKey(cardId), AudioKey(cardId)}
  }

  /** `reset_card`: the store without the three keys, and how many of them existed. */
  function ResetCardSpec(kv: Entries, cardId: string): (r: (Entries, nat))
    ensures r.0.Keys == kv.Keys - ResetKeys(cardId)
    ensures forall k :: k in r.0 ==> r.0[k] == kv[k]
    ensures r.1 == |kv.Keys * ResetKeys(cardId)| && r.1 <= 3
  {
    var keys := ResetKeys(cardId);
    assert kv.Keys * keys <= keys;
    SubsetCard(kv.Keys * keys, keys);
    (kv - keys, |kv.Keys * keys|)
  }

  lemma SubsetCard<T>(a: set<T>, b: set<T>)
    requires a <= b
    ensures |a| <= |b|
  {
    assert b == a + (b - a);
  }

  /** Clearing a card keeps its stats and every other card's keys, and a second clear deletes nothing. */
  lemma ResetKeepsStats(kv: Entries, cardId: string)
    ensures Lookup(ResetCardSpec(kv, cardId).0, StatsKey(cardId)) == Lookup(kv, StatsKey(cardId))
    ensures forall k :: k !in ResetKeys(cardId) ==> Lookup(ResetCardSpec(kv, cardId).0, k) == Lookup(kv, k)
    ensures ResetCardSpec(ResetCardSpec(kv, cardId).0, cardId).1 == 0
  {
    var kv1 := ResetCardSpec(kv, cardId).0;
    assert kv1.Keys * ResetKeys(cardId) == {};
  }

  /** After a reset the webhook can take both locks again. */
  lemma ResetReopensLocks(kv: Entries, cardId: string)
    ensures Lock(ResetCardSpec(kv, cardId).0, ScriptKey(cardId)).0
    ensures Lock(ResetCardSpec(kv, cardId).0, VoiceKey(cardId)).0
  {
  }

  method ResetCard(store: Store, cardId: string) returns (deleted: nat)
    modifies store
    ensures store.entries == ResetCardSpec(old(store.entries), cardId).0
    ensures deleted == ResetCardSpec(old(store.entries), cardId).1
  {
    ghost var before := store.entries;
    var script, voice, audio := ScriptKey(cardId), VoiceKey(cardId), AudioKey(cardId);
    var d1 := store.Delete(script);
    var d2 := store.Delete(voice);
    var d3 := store.Delete(audio);
    deleted := d1 + d2 + d3;
    KeyFamiliesDisjoint(cardId, cardId);
    RemoveThree(before, script, voice, audio);
    CountPresent(before.Keys, script, voice, audio);
    assert ResetKeys(cardId) == {script, voice, audio};
    assert ResetCardSpec(before, cardId) == (before - {script, voice, audio}, |before.Keys * {script, voice, audio}|);
  }

  lemma RemoveThree<K, V>(m: map<K, V>, a: K, b: K, c: K)
    ensures m - {a} - {b} - {c} == m - {a, b, c}
  {
  }

  /** How many of three distinct keys a key set holds, counted one by one. */
  lemma CountPresent(ks: set<string>, a: string, b: string, c: string)
    requires a != b && a != c && b != c
    ensures |ks * {a, b, c}| == (if a in ks then 1 else 0) + (if b in ks then 1 else 0) + (if c in ks then 1 else 0)
  {
    var s := ks * {a, b, c};
    var sa := if a in ks then {a} else {};
    var sb := if b in ks then {b} else {};
    var sc := if c in ks then {c} else {};
    assert s == sa + sb + sc;
    assert sa !! sb && (sa + sb) !! sc;
  }
}
