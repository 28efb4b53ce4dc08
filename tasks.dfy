/**
 * What the worker tasks share: how an invocation ends, the state it leaves
 * (the board with its card, and the store), the stats merge and the link
 * to the script editor that the comments carry.
 *
 * A task body that raises inside its `try` is handed to `self.retry`;
 * one that raises before it fails at once. Celery's rescheduling itself is
 * not modelled: a retried run ends here, with the state it left.
 */
module Tasks {
  import opened Results
  import opened PyStr
  import opened KeyValue
  import opened Trello

  /** How one invocation of a task ends: returned a value, returned `None`, skipped as stale, handed to the retry, or raised outright. */
  datatype Outcome =
    | Finished(value: string)
    | Done
    | Skipped
    | Retried(error: string)
    | Raised(error: string)

  /** The outcome of an invocation and the board and store it leaves. */
  datatype Run = Run(outcome: Outcome, world: World, kv: Entries)

  /** The error Python raises when an attribute is read from `None` (a channel the config does not know). */
  function NoAttribute(attr: string): string {
    "'NoneType' object has no attribute '" + attr + "'"
  }

  /** `stats.update(upd)`: the updated keys take their new values, every other key is kept. */
  function Merge(prev: Stats, upd: Stats): (m: Stats)
    ensures m.Keys == prev.Keys + upd.Keys
    ensures forall k :: k in upd ==> m[k] == upd[k]
    ensures forall k :: k in prev && k !in upd ==> m[k] == prev[k]
  {
    prev + upd
  }

  /** A stats value read by key; the tasks only read keys the model client always writes. */
  function Stat(s: Stats, key: string): StatValue {
    if key in s then s[key] else Count(0)
  }

  /** `s.rstrip("/")` */
  function RStripSlashes(s: string): (r: string)
    ensures |r| <= |s| && r == s[..|r|]
    ensures r == [] || r[|r| - 1] != '/'
    ensures forall i :: |r| <= i < |s| ==> s[i] == '/'
  {
    if s == [] || s[|s| - 1] != '/' then s else RStripSlashes(s[..|s| - 1])
  }

  /** The editor link appended to a script comment; none when no web URL is configured. */
  function EditLink(webUrl: string, cardId: string): (link: string)
    ensures link == [] <==> RStripSlashes(webUrl) == []
  {
    var base := RStripSlashes(webUrl);
    if base == [] then [] else "\n\n[Edit script](" + base + "/script/edit/" + cardId + ")"
  }

  /** A configured web URL with or without trailing slashes gives the same link. */
  lemma EditLinkIgnoresTrailingSlash(webUrl: string, cardId: string)
    ensures EditLink(webUrl + "/", cardId) == EditLink(webUrl, cardId)
  {
    assert (webUrl + "/")[..|webUrl|] == webUrl;
  }

  /** The store agrees with another on every key but the given ones. */
  ghost predicate SameExcept(a: Entries, b: Entries, keys: set<string>) {
    forall k :: k !in keys ==> Lookup(a, k) == Lookup(b, k)
  }

  /**
   * The text of a stored value as `r.get(...)` followed by `.decode()` gives
   * it: stored text as is, stored bytes through UTF-8 decoding (which may
   * fail), a stats object as its JSON text.
   */
  function StoredText(v: Value, decode: seq<bv8> -> Result<string, string>, dumps: Stats -> string): Result<string, string>
  {
    match v
    case Text(s) => Success(s)
    case Blob(b) => decode(b)
    case Json(st) => Success(dumps(st))
  }
}
