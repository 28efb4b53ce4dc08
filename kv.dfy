/**
 * The Redis store shared by the web process and the workers: the four
 * per-card key families, the values they hold, and the four atomic
 * operations used (GET, SET with an expiry, SET NX with an expiry, DEL).
 * Expiry is not clocked: every entry carries its TTL as a tag, and the
 * lapse of a TTL is the environment's `Expire` step.
 */
module KeyValue {
  import opened Results

  /** A pipeline stats value: a count, or a measured quantity (seconds, dollars). */
  datatype StatValue = Count(n: int) | Measure(r: real)

  /** The JSON object kept under `snap:stats:{card}`. */
  type Stats = map<string, StatValue>

  /** What a key holds: text (a script, or the "1" lock), raw bytes (audio) or a stats object. */
  datatype Value = Text(text: string) | Blob(bytes: seq<bv8>) | Json(stats: Stats)

  datatype Entry = Entry(value: Value, ttl: nat)

  type Entries = map<string, Entry>

  /** Seven days: scripts and stats. */
  const ScriptTtl: nat := 604800
  /** One day: audio and the idempotency locks. */
  const AudioTtl: nat := 86400
  const LockTtl: nat := 86400

  /** The value the router stores as a lock under the script and voice keys. */
  const Sentinel: string := "1"

  function ScriptKey(card: string): string { "snap:script:" + card }
  function VoiceKey(card: string): string { "snap:voice:" + card }
  function AudioKey(card: string): string { "snap:audio:" + card }
  function StatsKey(card: string): string { "snap:stats:" + card }

  /** The four key families never collide, whatever the two card ids. */
  lemma KeyFamiliesDisjoint(a: string, b: string)
    ensures ScriptKey(a) != VoiceKey(b) && ScriptKey(a) != AudioKey(b) && ScriptKey(a) != StatsKey(b)
    ensures VoiceKey(a) != AudioKey(b) && VoiceKey(a) != StatsKey(b) && AudioKey(a) != StatsKey(b)
  {
    assert ScriptKey(a)[5] == 's' && VoiceKey(b)[5] == 'v' && AudioKey(b)[5] == 'a';
    assert ScriptKey(a)[6] == 'c' && StatsKey(b)[6] == 't';
    assert VoiceKey(a)[5] == 'v' && AudioKey(b)[5] == 'a' && StatsKey(b)[5] == 's';
    assert AudioKey(a)[5] == 'a';
  }

  /** Within a family, different cards have different keys. */
  lemma KeysInjective(a: string, b: string)
    requires a != b
    ensures ScriptKey(a) != ScriptKey(b) && VoiceKey(a) != VoiceKey(b)
    ensures AudioKey(a) != AudioKey(b) && StatsKey(a) != StatsKey(b)
  {
    assert ScriptKey(a)[12..] == a && ScriptKey(b)[12..] == b;
    assert VoiceKey(a)[11..] == a && VoiceKey(b)[11..] == b;
    assert AudioKey(a)[11..] == a && AudioKey(b)[11..] == b;
    assert StatsKey(a)[11..] == a && StatsKey(b)[11..] == b;
  }

  /** GET */
  function Lookup(kv: Entries, key: string): Option<Value> {
    if key in kv then Some(kv[key].value) else None
  }

  /** Python truthiness of what GET returned: `None`, `""` and `b""` are false. */
  predicate Truthy(v: Option<Value>) {
    match v
    case None => false
    case Some(Text(s)) => s != []
    case Some(Blob(b)) => b != []
    case Some(Json(_)) => true
  }

  /** `json.loads(raw) if raw else {}`; a truthy value that is not a stats object fails to load. */
  function ReadStats(v: Option<Value>): Result<Stats, string>
  {
    if !Truthy(v) then Success(map[])
    else if v.value.Json? then Success(v.value.stats)
    else Failure("stats value is not a JSON object")
  }

  /** The text a GET returned, if it returned text. */
  function TextOf(v: Option<Value>): Option<string> {
    if v.Some? && v.value.Text? then Some(v.value.text) else None
  }

  class Store {
    var entries: Entries

    constructor ()
      ensures entries == map[]
    {
      entries := map[];
    }

    method Get(key: string) returns (v: Option<Value>)
      ensures v == Lookup(entries, key)
      ensures v.Some? <==> key in entries
    {
      v := if key in entries then Some(entries[key].value) else None;
    }

    /** SET key value EX ttl */
    method Set(key: string, v: Value, ttl: nat)
      modifies this
      ensures entries == old(entries)[key := Entry(v, ttl)]
    {
      entries := entries[key := Entry(v, ttl)];
    }

    /** SET key value NX EX ttl: true exactly when this call created the key. */
    method SetIfAbsent(key: string, v: Value, ttl: nat) returns (created: bool)
      modifies this
      ensures created <==> key !in old(entries)
      ensures entries == if created then old(entries)[key := Entry(v, ttl)] else old(entries)
    {
      created := key !in entries;
      if created {
        entries := entries[key := Entry(v, ttl)];
      }
    }

    /** DEL key: the number of keys removed. */
    method Delete(key: string) returns (n: nat)
      modifies this
      ensures n == if key in old(entries) then 1 else 0
      ensures entries == old(entries) - {key}
    {
      n := if key in entries then 1 else 0;
      entries := entries - {key};
    }

    /** The key's TTL lapses. */
    method Expire(key: string)
      modifies this
      ensures entries == old(entries) - {key}
    {
      entries := entries - {key};
    }
  }
}
