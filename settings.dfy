/**
 * Pipeline configuration: the fixed label vocabulary, the channel registry
 * with its case-insensitive lookups, the loader that folds the published
 * channel sheet into that registry, and the five-minute cache around it.
 */
module Settings {
  import opened Results
  import opened PyStr

  /** The marker that ends every channel label, compared in lower case. */
  const SnapSuffix: string := "(snap)"

  /** Seconds for which a loaded sheet is served without refetching. */
  const SheetCacheTtl: int := 300

  datatype Channel = Channel(name: string, prompt: string, voiceId: string, category: string, discordRoleId: string)

  /** The trigger label, the list finished cards go to, and the stage labels. */
  datatype Labels = Labels(
    trigger: string,
    readyList: string,
    writing: string,
    review: string,
    approved: string,
    generatingVoice: string,
    done: string,
    error: string)

  /** The names every config is built with. */
  const DefaultLabels: Labels := Labels(
    "snap script", "Videos in Edit", "Snap: Writing Script", "Snap: Script Ready",
    "Snap Approved", "Snap: Generating Voice", "Snap: Done", "Snap: Error")

  /** The channel registry, keyed by lower-cased channel label, and the label names. */
  datatype PipelineConfig = PipelineConfig(channels: map<string, Channel>, labels: Labels)

  /** `PipelineConfig(channels)` */
  function NewConfig(channels: map<string, Channel>): PipelineConfig
  {
    PipelineConfig(channels, DefaultLabels)
  }

  const EmptyConfig: PipelineConfig := NewConfig(map[])

  /** No two of the stage labels, the trigger label among them, compare equal after lower-casing. */
  predicate DistinctLabels(l: Labels) {
    var names := [l.trigger, l.writing, l.review, l.approved, l.generatingVoice, l.done, l.error];
    forall i, j :: 0 <= i < j < |names| ==> Lower(names[i]) != Lower(names[j])
  }

  /** Names of pairwise different lengths, except two that differ at index 4 in characters that are not letters, stay apart in lower case. */
  lemma ApartByShape(l: Labels)
    requires |l.trigger| == 11 && |l.writing| == 20 && |l.review| == 18 && |l.approved| == 13
    requires |l.generatingVoice| == 22 && |l.done| == 10 && |l.error| == 11
    requires l.trigger[4] == ' ' && l.error[4] == ':'
    ensures DistinctLabels(l)
  {
    var names := [l.trigger, l.writing, l.review, l.approved, l.generatingVoice, l.done, l.error];
    assert Lower(l.trigger)[4] != Lower(l.error)[4];
    forall i, j | 0 <= i < j < |names|
      ensures Lower(names[i]) != Lower(names[j])
    {
      if |names[i]| == |names[j]| {
        assert i == 0 && j == 6;
      }
    }
  }

  /** The default names are told apart by the case-insensitive lookups. */
  lemma DefaultLabelsDistinct()
    ensures DistinctLabels(DefaultLabels)
  {
    ApartByShape(DefaultLabels);
  }

  /** `get_channel`: look the label up under its lower-case form. */
  function GetChannel(cfg: PipelineConfig, labelName: string): Option<Channel> {
    var key := Lower(labelName);
    if key in cfg.channels then Some(cfg.channels[key]) else None
  }

  lemma GetChannelIgnoresCase(cfg: PipelineConfig, a: string, b: string)
    requires Lower(a) == Lower(b)
    ensures GetChannel(cfg, a) == GetChannel(cfg, b)
  {
  }

  /** A label that `get_snap_channel` accepts. */
  predicate IsSnapChannel(cfg: PipelineConfig, name: string) {
    EndsWith(Lower(name), SnapSuffix) && GetChannel(cfg, name).Some?
  }

  /**
   * `get_snap_channel`: the first label, in iteration order, that ends with
   * "(snap)" in any case and names a registered channel.
   */
  function GetSnapChannel(cfg: PipelineConfig, names: seq<string>): (r: Option<string>)
    ensures r.Some? ==> r.value in names && IsSnapChannel(cfg, r.value)
    ensures r.None? <==> forall n :: n in names ==> !IsSnapChannel(cfg, n)
    ensures r.Some? ==> exists k :: 0 <= k < |names| && names[k] == r.value
                          && forall j :: 0 <= j < k ==> !IsSnapChannel(cfg, names[j])
  {
    if names == [] then None
    else if IsSnapChannel(cfg, names[0]) then Some(names[0])
    else
      var r := GetSnapChannel(cfg, names[1..]);
      assert r.Some? ==> exists k :: 0 <= k < |names| && names[k] == r.value
                          && forall j :: 0 <= j < k ==> !IsSnapChannel(cfg, names[j]) by {
        if r.Some? {
          var k :| 0 <= k < |names[1..]| && names[1..][k] == r.value
                   && forall j :: 0 <= j < k ==> !IsSnapChannel(cfg, names[1..][j]);
          assert names[k + 1] == r.value;
          assert forall j :: 0 <= j < k + 1 ==> !IsSnapChannel(cfg, names[j]) by {
            forall j | 0 <= j < k + 1 ensures !IsSnapChannel(cfg, names[j]) {
              if j > 0 { assert names[j] == names[1..][j - 1]; }
            }
          }
        }
      }
      r
  }

  /**
   * The label set is iterated in an order the code does not control; when
   * at most one label qualifies, every order of the same labels gives the
   * same channel.
   */
  lemma {:induction false} SnapChannelOrderIrrelevant(cfg: PipelineConfig, xs: seq<string>, ys: seq<string>)
    requires forall n :: n in xs <==> n in ys
    requires forall a, b :: a in xs && b in xs && IsSnapChannel(cfg, a) && IsSnapChannel(cfg, b) ==> a == b
    ensures GetSnapChannel(cfg, xs) == GetSnapChannel(cfg, ys)
  {
    var rx, ry := GetSnapChannel(cfg, xs), GetSnapChannel(cfg, ys);
    if rx.Some? {
      assert rx.value in ys;
    }
    if ry.Some? {
      assert ry.value in xs;
    }
  }

  /** `channel_labels`: the registered (lower-case) channel labels. */
  function ChannelLabels(cfg: PipelineConfig): set<string> {
    cfg.channels.Keys
  }

  // ---------------------------------------------------------------------
  // Loading the channel sheet

  /** One parsed CSV row: its cells. */
  type Row = seq<string>

  datatype Column = VoiceColumn | PromptColumn

  /** A header cell, as the loader compares it: `strip().lower()`. */
  function HeaderKey(h: string): string {
    Lower(Strip(h))
  }

  /** The normalised header row. */
  function HeaderKeys(headers: seq<string>): seq<string>
  {
    seq(|headers|, j requires 0 <= j < |headers| => HeaderKey(headers[j]))
  }

  /** A normalised header names the column. */
  predicate IsColumnKey(k: string, c: Column) {
    match c
    case VoiceColumn => k == "voices id" || k == "voice id"
    case PromptColumn => k == "prompt"
  }

  /** The last header naming the column (the scan overwrites earlier matches). */
  function LastColumn(keys: seq<string>, c: Column): (r: Option<nat>)
    ensures r.Some? ==> r.value < |keys| && IsColumnKey(keys[r.value], c)
    ensures r.Some? ==> forall j :: r.value < j < |keys| ==> !IsColumnKey(keys[j], c)
    ensures r.None? <==> forall j :: 0 <= j < |keys| ==> !IsColumnKey(keys[j], c)
  {
    if keys == [] then None
    else if IsColumnKey(keys[|keys| - 1], c) then Some(|keys| - 1)
    else
      var r := LastColumn(keys[..|keys| - 1], c);
      assert forall j :: 0 <= j < |keys| - 1 ==> keys[..|keys| - 1][j] == keys[j];
      r
  }

  /** The registry being built and the channel that continuation rows extend. */
  datatype FoldState = FoldState(channels: map<string, Channel>, last: Option<string>)

  predicate FoldInv(st: FoldState) {
    st.last.Some? ==> st.last.value in st.channels
  }

  /** The stripped name, voice-id and prompt cells of a row that reaches the voice column. */
  datatype Cells = Cells(name: string, voiceId: string, promptLine: string)

  function RowCells(row: Row, voiceIdx: nat, promptIdx: Option<nat>): Cells
    requires voiceIdx < |row|
  {
    Cells(Strip(row[0]), Strip(row[voiceIdx]),
          if promptIdx.Some? && |row| > promptIdx.value then Strip(row[promptIdx.value]) else "")
  }

  predicate IsSnapName(name: string) {
    EndsWith(Lower(name), SnapSuffix)
  }

  /** One row, by its cells: a continuation, a non-"(snap)" show, or a "(snap)" channel. */
  function FoldCells(st: FoldState, cells: Cells): (r: FoldState)
    requires FoldInv(st)
    ensures FoldInv(r)
  {
    if cells.name == [] then
      if st.last.Some? && cells.promptLine != [] then
        var ch := st.channels[st.last.value];
        FoldState(st.channels[st.last.value := ch.(prompt := ch.prompt + "\n" + cells.promptLine)], st.last)
      else st
    else if !IsSnapName(cells.name) then FoldState(st.channels, None)
    else
      var key := Lower(cells.name);
      FoldState(st.channels[key := Channel(cells.name, cells.promptLine, cells.voiceId, "", "")], Some(key))
  }

  /** One data row of the sheet. */
  function FoldRow(st: FoldState, row: Row, voiceIdx: nat, promptIdx: Option<nat>): (r: FoldState)
    requires FoldInv(st)
    ensures FoldInv(r)
  {
    if row == [] || |row| <= voiceIdx then st
    else FoldCells(st, RowCells(row, voiceIdx, promptIdx))
  }

  function FoldRows(rows: seq<Row>, voiceIdx: nat, promptIdx: Option<nat>, st: FoldState): (r: FoldState)
    requires FoldInv(st)
    ensures FoldInv(r)
  {
    if rows == [] then st else FoldRows(rows[1..], voiceIdx, promptIdx, FoldRow(st, rows[0], voiceIdx, promptIdx))
  }

  /** What `_fetch_channels_from_sheet` returns for the parsed rows of the sheet (header first). */
  function SheetChannels(rows: seq<Row>): map<string, Channel> {
    var headers := if rows == [] then [] else rows[0];
    var voiceIdx := LastColumn(HeaderKeys(headers), VoiceColumn);
    if voiceIdx.None? then map[]
    else FoldRows(rows[1..], voiceIdx.value, LastColumn(HeaderKeys(headers), PromptColumn), FoldState(map[], None)).channels
  }

  /** Every registered key is a lower-cased channel label ending in "(snap)", and the channel keeps a name that lower-cases to it. */
  predicate SnapRegistry(channels: map<string, Channel>) {
    forall k :: k in channels ==>
      && Lower(k) == k
      && EndsWith(k, SnapSuffix)
      && Lower(channels[k].name) == k
      && channels[k].name != []
  }

  lemma FoldCellsKeepsRegistry(st: FoldState, cells: Cells)
    requires FoldInv(st) && SnapRegistry(st.channels)
    ensures SnapRegistry(FoldCells(st, cells).channels)
  {
    var r := FoldCells(st, cells);
    if cells.name == [] {
      if st.last.Some? && cells.promptLine != [] {
        forall k | k in r.channels
          ensures r.channels[k].name == st.channels[k].name
        {
        }
      }
    } else if IsSnapName(cells.name) {
      var key := Lower(cells.name);
      LowerIdempotent(cells.name);
      assert r.channels == st.channels[key := Channel(cells.name, cells.promptLine, cells.voiceId, "", "")];
    }
  }

  lemma {:induction false} FoldRowsKeepRegistry(rows: seq<Row>, voiceIdx: nat, promptIdx: Option<nat>, st: FoldState)
    requires FoldInv(st) && SnapRegistry(st.channels)
    ensures SnapRegistry(FoldRows(rows, voiceIdx, promptIdx, st).channels)
    decreases |rows|
  {
    if rows != [] {
      if rows[0] != [] && |rows[0]| > voiceIdx {
        FoldCellsKeepsRegistry(st, RowCells(rows[0], voiceIdx, promptIdx));
      }
      FoldRowsKeepRegistry(rows[1..], voiceIdx, promptIdx, FoldRow(st, rows[0], voiceIdx, promptIdx));
    }
  }

  /** Only "(snap)" rows are loaded, under their lower-cased names. */
  lemma SheetChannelsAreSnap(rows: seq<Row>)
    ensures SnapRegistry(SheetChannels(rows))
  {
    var headers := if rows == [] then [] else rows[0];
    var voiceIdx := LastColumn(HeaderKeys(headers), VoiceColumn);
    if voiceIdx.Some? {
      FoldRowsKeepRegistry(rows[1..], voiceIdx.value, LastColumn(HeaderKeys(headers), PromptColumn), FoldState(map[], None));
    }
  }

  /** Every label of a loaded registry is a channel label that `get_snap_channel` accepts. */
  lemma LoadedLabelsAreSnapChannels(rows: seq<Row>, lbl: string)
    requires lbl in ChannelLabels(NewConfig(SheetChannels(rows)))
    ensures IsSnapChannel(NewConfig(SheetChannels(rows)), lbl)
  {
    SheetChannelsAreSnap(rows);
  }

  /** Without a voice-id header the loader registers nothing. */
  lemma NoVoiceHeaderNoChannels(rows: seq<Row>)
    requires rows != [] ==> forall j :: 0 <= j < |rows[0]| ==> !IsColumnKey(HeaderKey(rows[0][j]), VoiceColumn)
    ensures SheetChannels(rows) == map[]
  {
  }

  /** Empty rows and rows that stop at or before the voice column are skipped. */
  lemma ShortRowSkipped(st: FoldState, row: Row, voiceIdx: nat, promptIdx: Option<nat>)
    requires FoldInv(st) && |row| <= voiceIdx
    ensures FoldRow(st, row, voiceIdx, promptIdx) == st
  {
  }

  /**
   * A row with an empty name extends the previous channel's prompt with a
   * newline and its prompt cell, when there is such a channel and the cell
   * is not empty; otherwise it changes nothing.
   */
  lemma ContinuationRow(st: FoldState, cells: Cells)
    requires FoldInv(st) && cells.name == []
    ensures var r := FoldCells(st, cells);
            && r.last == st.last
            && r.channels.Keys == st.channels.Keys
            && (st.last.Some? && cells.promptLine != [] ==>
                  r.channels[st.last.value].prompt == st.channels[st.last.value].prompt + "\n" + cells.promptLine)
            && (st.last.None? || cells.promptLine == [] ==> r == st)
  {
  }

  /** A row naming a non-"(snap)" show drops the pointer, so the continuation rows after it are discarded. */
  lemma NonSnapRowDropsContinuations(st: FoldState, show: Cells, cont: Cells)
    requires FoldInv(st) && show.name != [] && !IsSnapName(show.name) && cont.name == []
    ensures var mid := FoldCells(st, show);
            && mid.channels == st.channels
            && FoldCells(mid, cont) == mid
  {
  }

  /** A later "(snap)" row whose name lower-cases to the same key replaces the earlier entry. */
  lemma LaterDuplicateReplaces(st: FoldState, first: Cells, second: Cells)
    requires FoldInv(st) && first.name != [] && IsSnapName(first.name)
    requires second.name != [] && Lower(second.name) == Lower(first.name)
    ensures var r := FoldCells(FoldCells(st, first), second);
            var key := Lower(first.name);
            && key in r.channels
            && r.channels[key] == Channel(second.name, second.promptLine, second.voiceId, "", "")
            && r.last == Some(key)
  {
  }

  /** The header scan of `_fetch_channels_from_sheet`, over the normalised header row. */
  method HeaderColumns(keys: seq<string>) returns (voiceIdx: Option<nat>, promptIdx: Option<nat>)
    ensures voiceIdx == LastColumn(keys, VoiceColumn)
    ensures promptIdx == LastColumn(keys, PromptColumn)
  {
    voiceIdx, promptIdx := None, None;
    for i := 0 to |keys|
      invariant voiceIdx == LastColumn(keys[..i], VoiceColumn)
      invariant promptIdx == LastColumn(keys[..i], PromptColumn)
    {
      assert keys[..i + 1][..i] == keys[..i];
      if IsColumnKey(keys[i], VoiceColumn) {
        voiceIdx := Some(i);
      } else if IsColumnKey(keys[i], PromptColumn) {
        promptIdx := Some(i);
      }
    }
    assert keys[..|keys|] == keys;
  }

  /** `_fetch_channels_from_sheet`, given the sheet already split into rows. */
  method FetchChannelsFromSheet(rows: seq<Row>) returns (channels: map<string, Channel>)
    ensures channels == SheetChannels(rows)
    ensures SnapRegistry(channels)
  {
    SheetChannelsAreSnap(rows);
    var headers := if rows == [] then [] else rows[0];
    var voiceIdx, promptIdx := HeaderColumns(HeaderKeys(headers));
    if voiceIdx.None? {
      return map[];
    }
    var v := voiceIdx.value;
    var body := rows[1..];
    channels := map[];
    var last: Option<string> := None;
    var i := 0;
    while i < |body|
      invariant 0 <= i <= |body|
      invariant FoldInv(FoldState(channels, last))
      invariant FoldRows(body[i..], v, promptIdx, FoldState(channels, last))
                == FoldRows(body, v, promptIdx, FoldState(map[], None))
    {
      assert body[i..][1..] == body[i + 1..];
      channels, last := FoldRowStep(channels, last, body[i], v, promptIdx);
      i := i + 1;
    }
  }

  /** One pass of the row loop of `_fetch_channels_from_sheet`. */
  method FoldRowStep(channels: map<string, Channel>, last: Option<string>, row: Row, v: nat, promptIdx: Option<nat>)
    returns (channels': map<string, Channel>, last': Option<string>)
    requires FoldInv(FoldState(channels, last))
    ensures FoldState(channels', last') == FoldRow(FoldState(channels, last), row, v, promptIdx)
  {
    channels', last' := channels, last;
    if row == [] || |row| <= v {
      return;
    }
    var cells := RowCells(row, v, promptIdx);
    if cells.name == [] {
      if last.Some? && cells.promptLine != [] {
        var ch := channels[last.value];
        channels' := channels[last.value := ch.(prompt := ch.prompt + "\n" + cells.promptLine)];
      }
      return;
    }
    if !IsSnapName(cells.name) {
      last' := None;
      return;
    }
    last' := Some(Lower(cells.name));
    channels' := channels[Lower(cells.name) := Channel(cells.name, cells.promptLine, cells.voiceId, "", "")];
  }

  // ---------------------------------------------------------------------
  // The five-minute cache of `get_pipeline_config`

  datatype CacheState = CacheState(cache: Option<PipelineConfig>, time: int)

  /**
   * `get_pipeline_config`: the config it returns and the cache it leaves.
   * `fetched` is what fetching the sheet would yield now (`None`: the fetch raises).
   */
  function CachedConfig(st: CacheState, sheetId: string, now: int, fetched: Option<seq<Row>>): (PipelineConfig, CacheState) {
    if sheetId == [] then (EmptyConfig, st)
    else if st.cache.Some? && now - st.time < SheetCacheTtl then (st.cache.value, st)
    else if fetched.Some? then
      var cfg := NewConfig(SheetChannels(fetched.value));
      (cfg, CacheState(Some(cfg), now))
    else if st.cache.Some? then (st.cache.value, st)
    else (EmptyConfig, st)
  }

  /** Without a sheet id the config is empty and the cache is not touched. */
  lemma NoSheetEmptyConfig(st: CacheState, now: int, fetched: Option<seq<Row>>)
    ensures CachedConfig(st, "", now, fetched) == (EmptyConfig, st)
  {
  }

  /** A cache younger than the TTL is served as is, whatever a fetch would return. */
  lemma FreshCacheServed(st: CacheState, sheetId: string, now: int, f1: Option<seq<Row>>, f2: Option<seq<Row>>)
    requires sheetId != [] && st.cache.Some? && now - st.time < SheetCacheTtl
    ensures CachedConfig(st, sheetId, now, f1) == CachedConfig(st, sheetId, now, f2) == (st.cache.value, st)
  {
  }

  /** A failed fetch falls back to the stale cache, or to the empty config when there is none. */
  lemma FailedFetchFallsBack(st: CacheState, sheetId: string, now: int)
    requires sheetId != []
    ensures CachedConfig(st, sheetId, now, None).1 == st
    ensures CachedConfig(st, sheetId, now, None).0 == if st.cache.Some? then st.cache.value else EmptyConfig
  {
  }

  /** After a successful refresh, calls within the next 300 seconds return the same config without fetching. */
  lemma RefreshThenServe(st: CacheState, sheetId: string, t1: int, t2: int, rows: seq<Row>, later: Option<seq<Row>>)
    requires sheetId != [] && !(st.cache.Some? && t1 - st.time < SheetCacheTtl)
    requires t1 <= t2 < t1 + SheetCacheTtl
    ensures var (c1, st1) := CachedConfig(st, sheetId, t1, Some(rows));
            CachedConfig(st1, sheetId, t2, later) == (c1, st1)
  {
  }

  /** The module-level cache of `config/settings.py`. */
  class ConfigCache {
    var cache: Option<PipelineConfig>
    var cacheTime: int

    constructor ()
      ensures cache == None && cacheTime == 0
    {
      cache := None;
      cacheTime := 0;
    }

    method GetPipelineConfig(sheetId: string, now: int, fetched: Option<seq<Row>>) returns (cfg: PipelineConfig)
      modifies this
      ensures (cfg, CacheState(cache, cacheTime)) == CachedConfig(CacheState(old(cache), old(cacheTime)), sheetId, now, fetched)
    {
      if sheetId == [] {
        return EmptyConfig;
      }
      if cache.Some? && now - cacheTime < SheetCacheTtl {
        return cache.value;
      }
      if fetched.Some? {
        var channels := FetchChannelsFromSheet(fetched.value);
        cache := Some(NewConfig(channels));
        cacheTime := now;
        return cache.value;
      }
      if cache.Some? {
        return cache.value;
      }
      return EmptyConfig;
    }
  }
}
