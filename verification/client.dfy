/**
 * The bot's bookkeeping in `main.py`: the per-channel buffer of live
 * messages, the per-channel export with its "skip an empty export" rule,
 * the weekly full export behind its busy flag and watermark, the channel
 * filter, and the live merge of buffered messages into stored exports.
 * The clock, the guild's channel list, each channel's history and the
 * export files on disk are parameters.
 */
module Bot {
  import opened Wrappers
  import opened Discord
  import Models
  import opened EntityCache
  import opened Transformer

  /** Seven days, in seconds. */
  const FullExportInterval: int := 60 * 60 * 24 * 7

  // ----- channel filter -----

  /**
   * A text, voice or thread channel that is not excluded, whose history
   * the bot may read, and, for a voice channel, which it may join.
   */
  predicate Eligible(c: SourceChannel, excluded: set<nat>) {
    && c.cls != OtherClass
    && c.id !in excluded
    && c.perms.readMessageHistory
    && c.perms.readMessages
    && !(c.cls == VoiceClass && !c.perms.connect)
  }

  /** The channels of a full export, in guild order. */
  function EligibleChannels(cs: seq<SourceChannel>, excluded: set<nat>): (r: seq<SourceChannel>)
    ensures |r| <= |cs|
    ensures forall c :: c in r <==> c in cs && Eligible(c, excluded)
  {
    if cs == [] then []
    else
      var init, c := cs[..|cs| - 1], cs[|cs| - 1];
      assert cs == init + [c];
      var r := EligibleChannels(init, excluded);
      if Eligible(c, excluded) then r + [c] else r
  }

  /**
   * The filter keeps every eligible channel as often as the guild lists it,
   * drops every other one, and keeps the guild's order.
   */
  lemma {:induction false} EligibleChannelsOrder(cs: seq<SourceChannel>, excluded: set<nat>)
    ensures var r := EligibleChannels(cs, excluded);
      && (forall c :: multiset(r)[c] == if Eligible(c, excluded) then multiset(cs)[c] else 0)
      && SubsequenceOf(r, cs)
  {
    if cs == [] {
      SubsequenceEmpty(cs);
    } else {
      var init, c := cs[..|cs| - 1], cs[|cs| - 1];
      assert cs == init + [c];
      EligibleChannelsOrder(init, excluded);
      var r := EligibleChannels(init, excluded);
      if Eligible(c, excluded) {
        SubsequenceSnoc(r, init, c);
      } else {
        SubsequenceExtend(r, init, c);
      }
    }
  }

  /** `r` is `cs` with some elements left out, the others in their order. */
  ghost predicate SubsequenceOf<T>(r: seq<T>, cs: seq<T>) {
    exists idx: seq<nat> :: Indexes(idx, r, cs)
  }

  /** `idx` lists, in increasing order, the positions in `cs` that `r` is made of. */
  ghost predicate Indexes<T>(idx: seq<nat>, r: seq<T>, cs: seq<T>) {
    && |idx| == |r|
    && (forall k :: 0 <= k < |r| ==> idx[k] < |cs| && cs[idx[k]] == r[k])
    && (forall k, l :: 0 <= k < l < |r| ==> idx[k] < idx[l])
  }

  lemma SubsequenceEmpty<T>(cs: seq<T>)
    ensures SubsequenceOf([], cs)
  {
    assert Indexes([], [], cs);
  }

  /** Keeping one more element at the end keeps the order. */
  lemma SubsequenceSnoc<T>(r: seq<T>, cs: seq<T>, c: T)
    requires SubsequenceOf(r, cs)
    ensures SubsequenceOf(r + [c], cs + [c])
  {
    var idx: seq<nat> :| Indexes(idx, r, cs);
    var idx2 := idx + [|cs|];
    assert Indexes(idx2, r + [c], cs + [c]);
  }

  /** Leaving out one more element at the end keeps the order. */
  lemma SubsequenceExtend<T>(r: seq<T>, cs: seq<T>, c: T)
    requires SubsequenceOf(r, cs)
    ensures SubsequenceOf(r, cs + [c])
  {
    var idx: seq<nat> :| Indexes(idx, r, cs);
    assert Indexes(idx, r, cs + [c]);
  }

  // ----- full-export gate -----

  /** `full_export_loop` goes past its two early returns. */
  predicate GateOpen(busy: bool, now: real, lastFullExport: int) {
    !busy && now - lastFullExport as real >= FullExportInterval as real
  }

  /** Python's `int(x)` on a float: truncation toward zero. */
  function Trunc(x: real): (r: int)
    ensures x >= 0.0 ==> r as real <= x < r as real + 1.0
    ensures x < 0.0 ==> r as real - 1.0 < x <= r as real
  {
    if x >= 0.0 then x.Floor else -((-x).Floor)
  }

  // ----- buffering -----

  /** The buffer of a channel; a channel never seen has none. */
  function Buffer(pending: map<nat, seq<Models.Message>>, id: nat): seq<Models.Message> {
    if id in pending then pending[id] else []
  }

  /** A stream of live messages, each with the id of its channel. */
  datatype Arrival = Arrival(channelId: nat, message: Models.Message)

  /** What `on_message` leaves in the buffers after a stream of arrivals. */
  function BufferAll(pending: map<nat, seq<Models.Message>>, arrivals: seq<Arrival>): map<nat, seq<Models.Message>> {
    if arrivals == [] then pending
    else
      var p := BufferAll(pending, arrivals[..|arrivals| - 1]);
      var a := arrivals[|arrivals| - 1];
      p[a.channelId := Buffer(p, a.channelId) + [a.message]]
  }

  /** The messages of one channel in a stream, in arrival order. */
  function ChannelMessages(arrivals: seq<Arrival>, id: nat): seq<Models.Message> {
    if arrivals == [] then []
    else
      var a := arrivals[|arrivals| - 1];
      ChannelMessages(arrivals[..|arrivals| - 1], id) + (if a.channelId == id then [a.message] else [])
  }

  // ----- per-channel export -----

  /** The state `export_channel` calls leave behind, one channel after another. */
  datatype Progress = Progress(
    cache: CacheState, save: map<nat, Models.Export>, done: int, failure: Option<ExportError>)

  function History(histories: map<nat, seq<SourceMessage>>, id: nat): seq<SourceMessage> {
    if id in histories then histories[id] else []
  }

  /**
   * What `export_channel` keeps of one run of the exporter, which left the
   * cache `c` and the outcome `r`: an export with no messages is dropped;
   * any other is stored under the channel's id and counted. A failure is
   * recorded unless an earlier one already is.
   */
  function Kept(p: Progress, id: nat, c: CacheState, r: Result<Models.Export, ExportError>): Progress {
    if r.Err? then Progress(c, p.save, p.done, if p.failure.Some? then p.failure else Some(r.error))
    else if r.value.messageCount == 0 then Progress(c, p.save, p.done, p.failure)
    else Progress(c, p.save[id := r.value], p.done + 1, p.failure)
  }

  /** `export_channel`: the channel's export with display names, then what is kept of it. */
  function ChannelStep(p: Progress, ch: SourceChannel, h: seq<SourceMessage>, clock: DateTime,
                       index: map<string, string>): Progress
  {
    var step := ExportStep(p.cache, ch, ch.guild, h, clock, true, index);
    Kept(p, ch.id, step.0, step.1)
  }

  /**
   * The channels of a full export taken one after another. A failure does
   * not stop the others; the first one is what the run reports.
   */
  function ExportAll(p: Progress, chs: seq<SourceChannel>, histories: map<nat, seq<SourceMessage>>,
                     clock: DateTime, index: map<string, string>): Progress
  {
    if chs == [] then p
    else
      var q := ExportAll(p, chs[..|chs| - 1], histories, clock, index);
      var ch := chs[|chs| - 1];
      ChannelStep(q, ch, History(histories, ch.id), clock, index)
  }

  // ----- live merge -----

  /** The export a buffered channel is merged into: the one in memory, else the file on disk. */
  function Base(save: map<nat, Models.Export>, disk: map<nat, Models.Export>, id: nat): Option<Models.Export> {
    if id in save then Some(save[id]) else if id in disk then Some(disk[id]) else None
  }

  /** The buffered messages appended as they are; `messageCount` is left as it was. */
  function Appended(e: Models.Export, buffer: seq<Models.Message>): Models.Export {
    e.(messages := e.messages + buffer)
  }

  /** `export_save` after `live_export_loop` has gone through the buffers `pending`. */
  function LiveMerged(save: map<nat, Models.Export>, disk: map<nat, Models.Export>,
                      pending: map<nat, seq<Models.Message>>): map<nat, Models.Export>
  {
    map id | id in save.Keys + (pending.Keys * disk.Keys) ::
      if id in pending then Appended(Base(save, disk, id).value, pending[id]) else save[id]
  }

  function Restrict(pending: map<nat, seq<Models.Message>>, ids: set<nat>): map<nat, seq<Models.Message>> {
    map id | id in pending.Keys * ids :: pending[id]
  }

  /**
   * Not what the bot does: the merge that the skip test at the head of the
   * append loop evidently aims at, which drops a buffered message whose id
   * is among the last 1000 messages of the export as it grows.
   */
  function IdDedupMerge(messages: seq<Models.Message>, buffer: seq<Models.Message>): seq<Models.Message> {
    if buffer == [] then messages
    else
      var prev := IdDedupMerge(messages, buffer[..|buffer| - 1]);
      var m := buffer[|buffer| - 1];
      if IdInWindow(m.id, prev) then prev else prev + [m]
  }

  /** `messages[-1000:]`. */
  function Window(messages: seq<Models.Message>): (w: seq<Models.Message>)
    ensures forall x :: x in w ==> x in messages
  {
    if |messages| <= 1000 then messages else messages[|messages| - 1000..]
  }

  predicate IdInWindow(id: string, messages: seq<Models.Message>) {
    exists x :: x in Window(messages) && x.id == id
  }

  // ----- the client object -----

  class Client {
    const cache: Cache
    const excluded: set<nat>
    const emojiIndex: map<string, string>
    const baseExporter: Exporter
    var pendingExports: map<nat, seq<Models.Message>>
    var exportSave: map<nat, Models.Export>
    var currentlyExporting: bool
    var lastFullExport: int
    var progressDone: int
    var progressTotal: int

    /** The live exporter works on the shared cache, in the export guild, with display names. */
    predicate Valid()
      reads this
    {
      baseExporter.cache == cache && baseExporter.channel.None? && !baseExporter.alwaysUseUsername
    }

    /** `__init__` and `on_ready`; `lastFullExport` is the watermark read from the save file. */
    constructor (lastFullExport: int, excluded: set<nat>, exportGuild: SourceGuild, emojiIndex: map<string, string>)
      ensures Valid() && fresh(cache)
      ensures cache.State() == CacheState(map[], map[], map[])
      ensures baseExporter.guild == exportGuild && baseExporter.emojiIndex == emojiIndex
      ensures this.excluded == excluded && this.emojiIndex == emojiIndex
      ensures pendingExports == map[] && exportSave == map[] && !currentlyExporting
      ensures this.lastFullExport == lastFullExport && progressDone == 0 && progressTotal == 0
    {
      var c := new Cache();
      cache := c;
      this.excluded := excluded;
      this.emojiIndex := emojiIndex;
      baseExporter := new Exporter(c, None, false, exportGuild, emojiIndex);
      pendingExports := map[];
      exportSave := map[];
      currentlyExporting := false;
      this.lastFullExport := lastFullExport;
      progressDone, progressTotal := 0, 0;
    }

    /** `on_message`: the message goes through the live exporter and to the end of its channel's buffer. */
    method OnMessage(m: SourceMessage) returns (msg: Models.Message)
      requires Valid()
      modifies this, cache
      ensures (cache.State(), msg) == MessageStep(old(cache.State()), baseExporter.guild.directory, m, false, baseExporter.emojiIndex)
      ensures pendingExports == old(pendingExports)[m.channelId := Buffer(old(pendingExports), m.channelId) + [msg]]
      ensures exportSave == old(exportSave) && currentlyExporting == old(currentlyExporting)
      ensures lastFullExport == old(lastFullExport) && progressDone == old(progressDone) && progressTotal == old(progressTotal)
    {
      msg := baseExporter.GetMessage(m);
      Enqueue(m.channelId, msg);
    }

    /** The buffering half of `on_message`: a channel seen for the first time starts an empty buffer. */
    method Enqueue(channelId: nat, msg: Models.Message)
      modifies this
      ensures pendingExports == old(pendingExports)[channelId := Buffer(old(pendingExports), channelId) + [msg]]
      ensures exportSave == old(exportSave) && currentlyExporting == old(currentlyExporting)
      ensures lastFullExport == old(lastFullExport) && progressDone == old(progressDone) && progressTotal == old(progressTotal)
    {
      if channelId !in pendingExports {
        pendingExports := pendingExports[channelId := []];
      }
      pendingExports := pendingExports[channelId := pendingExports[channelId] + [msg]];
    }

    /** `export_channel`; `clock` is the UTC time the export is stamped with. */
    method ExportChannel(ch: SourceChannel, h: seq<SourceMessage>, clock: DateTime) returns (r: Result<(), ExportError>)
      modifies this, cache
      ensures ChannelStep(Progress(old(cache.State()), old(exportSave), old(progressDone), None), ch, h, clock, emojiIndex)
        == Progress(cache.State(), exportSave, progressDone, if r.Err? then Some(r.error) else None)
      ensures pendingExports == old(pendingExports) && currentlyExporting == old(currentlyExporting)
      ensures lastFullExport == old(lastFullExport) && progressTotal == old(progressTotal)
    {
      ghost var p := Progress(cache.State(), exportSave, progressDone, None);
      var exporter := new Exporter(cache, Some(ch), true, ch.guild, emojiIndex);
      var e := exporter.Export(h, clock);
      ChannelStepOf(p, ch, h, clock, emojiIndex, cache.State(), e);
      if e.Err? {
        KeptOutcome(p, ch.id, cache.State(), e, exportSave, progressDone);
        return Err(e.error);
      }
      KeepExport(ch.id, e.value);
      KeptOutcome(p, ch.id, cache.State(), e, exportSave, progressDone);
      r := Ok(());
    }

    /** The bookkeeping half of `export_channel`: an export with messages is kept and counted. */
    method KeepExport(id: nat, e: Models.Export)
      modifies this
      ensures e.messageCount == 0 ==> exportSave == old(exportSave) && progressDone == old(progressDone)
      ensures e.messageCount != 0 ==> exportSave == old(exportSave)[id := e] && progressDone == old(progressDone) + 1
      ensures pendingExports == old(pendingExports) && currentlyExporting == old(currentlyExporting)
      ensures lastFullExport == old(lastFullExport) && progressTotal == old(progressTotal)
    {
      if e.messageCount == 0 {
        return;
      }
      exportSave := exportSave[id := e];
      progressDone := progressDone + 1;
    }

    /**
     * One tick of `full_export_loop`. `now` is the clock in seconds, `clock`
     * the same instant in UTC fields, and `finished` the clock in seconds
     * read again once every channel is done. A failed channel export ends
     * the tick with the busy flag still set.
     */
    method FullExportLoop(guildChannels: seq<SourceChannel>, histories: map<nat, seq<SourceMessage>>, now: real,
                          clock: DateTime, finished: real) returns (r: Result<(), ExportError>)
      modifies this, cache
      ensures !GateOpen(old(currentlyExporting), now, old(lastFullExport)) ==>
        r == Ok(()) && unchanged(this) && cache.State() == old(cache.State())
      ensures GateOpen(old(currentlyExporting), now, old(lastFullExport)) ==>
        var chs := EligibleChannels(guildChannels, excluded);
        var p := ExportAll(Progress(old(cache.State()), old(exportSave), 0, None), chs, histories, clock, emojiIndex);
        && cache.State() == p.cache && exportSave == p.save && progressDone == p.done
        && progressTotal == |chs| && pendingExports == old(pendingExports)
        && r == (if p.failure.Some? then Err(p.failure.value) else Ok(()))
        && (r.Ok? ==> !currentlyExporting && lastFullExport == Trunc(finished))
        && (r.Err? ==> currentlyExporting && lastFullExport == old(lastFullExport))
    {
      if currentlyExporting {
        return Ok(());
      }
      if now - lastFullExport as real < FullExportInterval as real {
        return Ok(());
      }
      currentlyExporting := true;
      var chs := EligibleChannels(guildChannels, excluded);
      progressDone, progressTotal := 0, |chs|;
      r := ExportChannels(chs, histories, clock);
      if r.Ok? {
        lastFullExport := Trunc(finished);
        currentlyExporting := false;
      }
    }

    /**
     * The channel loop of `full_export_loop`: every channel in turn. The
     * first failure is kept and reported once all channels are done.
     */
    method ExportChannels(chs: seq<SourceChannel>, histories: map<nat, seq<SourceMessage>>, clock: DateTime)
      returns (r: Result<(), ExportError>)
      requires progressDone == 0
      modifies this, cache
      ensures var p := ExportAll(Progress(old(cache.State()), old(exportSave), 0, None), chs, histories, clock, emojiIndex);
        && cache.State() == p.cache && exportSave == p.save && progressDone == p.done
        && r == (if p.failure.Some? then Err(p.failure.value) else Ok(()))
      ensures pendingExports == old(pendingExports) && currentlyExporting == old(currentlyExporting)
      ensures lastFullExport == old(lastFullExport) && progressTotal == old(progressTotal)
    {
      ghost var p0 := Progress(cache.State(), exportSave, 0, None);
      var failure: Option<ExportError> := None;
      for i := 0 to |chs|
        invariant ExportAll(p0, chs[..i], histories, clock, emojiIndex) == Progress(cache.State(), exportSave, progressDone, failure)
        invariant pendingExports == old(pendingExports) && currentlyExporting == old(currentlyExporting)
        invariant lastFullExport == old(lastFullExport) && progressTotal == old(progressTotal)
      {
        var res := ExportNext(p0, chs, i, histories, clock, failure);
        if failure.None? && res.Err? {
          failure := Some(res.error);
        }
      }
      WholePrefix(chs);
      r := if failure.Some? then Err(failure.value) else Ok(());
    }

    /**
     * The body of the channel loop in `full_export_loop`: the `i`th channel
     * is exported; its failure becomes the run's when none came before.
     */
    method ExportNext(ghost p0: Progress, chs: seq<SourceChannel>, i: nat, histories: map<nat, seq<SourceMessage>>,
                      clock: DateTime, failure: Option<ExportError>) returns (r: Result<(), ExportError>)
      requires i < |chs|
      requires ExportAll(p0, chs[..i], histories, clock, emojiIndex) == Progress(cache.State(), exportSave, progressDone, failure)
      modifies this, cache
      ensures ExportAll(p0, chs[..i + 1], histories, clock, emojiIndex)
        == Progress(cache.State(), exportSave, progressDone,
                    if failure.Some? then failure else if r.Err? then Some(r.error) else None)
      ensures pendingExports == old(pendingExports) && currentlyExporting == old(currentlyExporting)
      ensures lastFullExport == old(lastFullExport) && progressTotal == old(progressTotal)
    {
      ghost var q := Progress(cache.State(), exportSave, progressDone, None);
      r := ExportChannel(chs[i], History(histories, chs[i].id), clock);
      ExportAllSnoc(p0, chs, i, histories, clock, emojiIndex);
      ChannelStepIgnoresFailure(q, chs[i], History(histories, chs[i].id), clock, emojiIndex, failure);
    }

    /** One tick of `live_export_loop`; `disk` holds the exports saved as files. */
    method LiveExportLoop(disk: map<nat, Models.Export>)
      modifies this
      ensures old(currentlyExporting) || old(pendingExports) == map[] ==> unchanged(this)
      ensures !old(currentlyExporting) && old(pendingExports) != map[] ==>
        && pendingExports == map[]
        && exportSave == LiveMerged(old(exportSave), disk, old(pendingExports))
        && currentlyExporting == old(currentlyExporting) && lastFullExport == old(lastFullExport)
        && progressDone == old(progressDone) && progressTotal == old(progressTotal)
    {
      if currentlyExporting || pendingExports == map[] {
        return;
      }
      var ids := pendingExports.Keys;
      ghost var done: set<nat> := {};
      while ids != {}
        invariant ids !! done && ids + done == pendingExports.Keys
        invariant pendingExports == old(pendingExports)
        invariant exportSave == LiveMerged(old(exportSave), disk, Restrict(pendingExports, done))
        invariant currentlyExporting == old(currentlyExporting) && lastFullExport == old(lastFullExport)
        invariant progressDone == old(progressDone) && progressTotal == old(progressTotal)
        decreases ids
      {
        var id :| id in ids;
        ids := ids - {id};
        MergeStep(old(exportSave), disk, pendingExports, done, id);
        MergeChannel(id, disk);
        done := done + {id};
      }
      pendingExports := map[];
    }

    /**
     * One buffered channel of `live_export_loop`: its export is found in
     * memory or loaded from disk, and the buffer is appended to it.
     */
    method MergeChannel(id: nat, disk: map<nat, Models.Export>)
      requires id in pendingExports
      modifies this
      ensures Base(old(exportSave), disk, id).None? ==> exportSave == old(exportSave)
      ensures Base(old(exportSave), disk, id).Some? ==>
        exportSave == old(exportSave)[id := Appended(Base(old(exportSave), disk, id).value, old(pendingExports)[id])]
      ensures pendingExports == old(pendingExports) && currentlyExporting == old(currentlyExporting)
      ensures lastFullExport == old(lastFullExport) && progressDone == old(progressDone) && progressTotal == old(progressTotal)
    {
      var existing: Models.Export;
      if id in exportSave {
        existing := exportSave[id];
      } else if id in disk {
        existing := disk[id];
        exportSave := exportSave[id := existing];
      } else {
        return;
      }
      // the source skips a message whose id string is "in" the last 1000
      // message records; a string never equals a record, so nothing is skipped
      var buffer := pendingExports[id];
      var messages := existing.messages;
      for j := 0 to |buffer|
        invariant messages == existing.messages + buffer[..j]
      {
        messages := messages + [buffer[j]];
      }
      WholePrefix(buffer);
      exportSave := exportSave[id := existing.(messages := messages)];
    }
  }

  // ----- lemmas -----

  /** One more channel extends a run by that channel's step. */
  lemma ExportAllSnoc(p: Progress, chs: seq<SourceChannel>, i: nat, histories: map<nat, seq<SourceMessage>>,
                      clock: DateTime, index: map<string, string>)
    requires i < |chs|
    ensures ExportAll(p, chs[..i + 1], histories, clock, index)
      == ChannelStep(ExportAll(p, chs[..i], histories, clock, index), chs[i], History(histories, chs[i].id), clock, index)
  {
    PrefixSnoc(chs, i);
  }

  /** What `Kept` records, read off the new entries and count. */
  lemma KeptOutcome(p: Progress, id: nat, c: CacheState, e: Result<Models.Export, ExportError>,
                    save: map<nat, Models.Export>, done: int)
    requires p.failure.None?
    requires e.Err? || e.value.messageCount == 0 ==> save == p.save && done == p.done
    requires e.Ok? && e.value.messageCount != 0 ==> save == p.save[id := e.value] && done == p.done + 1
    ensures Kept(p, id, c, e) == Progress(c, save, done, if e.Err? then Some(e.error) else None)
  {
  }

  /** A channel's step, given the cache and the outcome that `export` leaves behind. */
  lemma ChannelStepOf(p: Progress, ch: SourceChannel, h: seq<SourceMessage>, clock: DateTime,
                      index: map<string, string>, c: CacheState, e: Result<Models.Export, ExportError>)
    requires (c, e) == ExportStep(p.cache, ch, ch.guild, h, clock, true, index)
    ensures ChannelStep(p, ch, h, clock, index) == Kept(p, ch.id, c, e)
  {
  }

  /**
   * An earlier failure `f` changes nothing a channel's step stores, counts
   * or caches, and stays the recorded failure.
   */
  lemma KeptIgnoresFailure(p: Progress, id: nat, c: CacheState, r: Result<Models.Export, ExportError>,
                           f: Option<ExportError>)
    requires p.failure.None? || f.Some?
    ensures Kept(p.(failure := f), id, c, r)
         == Kept(p, id, c, r).(failure := if f.Some? then f else Kept(p, id, c, r).failure)
  {
  }

  /** The same for a channel's whole step. */
  lemma ChannelStepIgnoresFailure(p: Progress, ch: SourceChannel, h: seq<SourceMessage>, clock: DateTime,
                                  index: map<string, string>, f: Option<ExportError>)
    requires p.failure.None? || f.Some?
    ensures ChannelStep(p.(failure := f), ch, h, clock, index)
         == ChannelStep(p, ch, h, clock, index).(failure := if f.Some? then f else ChannelStep(p, ch, h, clock, index).failure)
  {
    var step := ExportStep(p.cache, ch, ch.guild, h, clock, true, index);
    ChannelStepOf(p, ch, h, clock, index, step.0, step.1);
    ChannelStepOf(p.(failure := f), ch, h, clock, index, step.0, step.1);
    KeptIgnoresFailure(p, ch.id, step.0, step.1, f);
  }

  /**
   * A failure does not stop a full export: a run that starts with the
   * failure `f` already recorded exports, stores and counts every channel
   * exactly as one that starts with none, and reports `f`.
   */
  lemma {:induction false} ExportAllIgnoresFailure(p: Progress, chs: seq<SourceChannel>,
                                                   histories: map<nat, seq<SourceMessage>>, clock: DateTime,
                                                   index: map<string, string>, f: Option<ExportError>)
    requires p.failure.None?
    ensures var a := ExportAll(p, chs, histories, clock, index);
      ExportAll(p.(failure := f), chs, histories, clock, index) == a.(failure := if f.Some? then f else a.failure)
  {
    if chs != [] && f.Some? {
      var init, ch := chs[..|chs| - 1], chs[|chs| - 1];
      ExportAllIgnoresFailure(p, init, histories, clock, index, f);
      var a := ExportAll(p, init, histories, clock, index);
      ChannelStepIgnoresFailure(a, ch, History(histories, ch.id), clock, index, f);
    }
  }

  /** Once a failure is recorded, it is the one the whole run reports. */
  lemma {:induction false} ExportAllFirstFailure(p: Progress, chs: seq<SourceChannel>, n: nat,
                                                 histories: map<nat, seq<SourceMessage>>, clock: DateTime,
                                                 index: map<string, string>)
    requires n <= |chs|
    requires ExportAll(p, chs[..n], histories, clock, index).failure.Some?
    ensures ExportAll(p, chs, histories, clock, index).failure == ExportAll(p, chs[..n], histories, clock, index).failure
    decreases |chs|
  {
    if n < |chs| {
      PrefixOfInit(chs, n);
      ExportAllFirstFailure(p, chs[..|chs| - 1], n, histories, clock, index);
      var q := ExportAll(p, chs[..|chs| - 1], histories, clock, index);
      var ch := chs[|chs| - 1];
      var step := ExportStep(q.cache, ch, ch.guild, History(histories, ch.id), clock, true, index);
      ChannelStepOf(q, ch, History(histories, ch.id), clock, index, step.0, step.1);
    } else {
      WholePrefix(chs);
    }
  }

  /** Processing one more buffered channel changes only that channel's entry. */
  lemma MergeStep(save: map<nat, Models.Export>, disk: map<nat, Models.Export>,
                  pending: map<nat, seq<Models.Message>>, done: set<nat>, id: nat)
    requires id in pending && id !in done
    ensures var before := LiveMerged(save, disk, Restrict(pending, done));
      var after := LiveMerged(save, disk, Restrict(pending, done + {id}));
      && (id in save ==> id in before && before[id] == save[id])
      && (id !in save ==> id !in before)
      && (Base(save, disk, id).None? ==> after == before)
      && (Base(save, disk, id).Some? ==> after == before[id := Appended(Base(save, disk, id).value, pending[id])])
  {
    var r0, r1 := Restrict(pending, done), Restrict(pending, done + {id});
    var before, after := LiveMerged(save, disk, r0), LiveMerged(save, disk, r1);
    var next := if Base(save, disk, id).Some? then before[id := Appended(Base(save, disk, id).value, pending[id])] else before;
    forall k ensures (k in after <==> k in next) && (k in after ==> after[k] == next[k]) {
      LiveMergedAt(save, disk, r0, k);
      LiveMergedAt(save, disk, r1, k);
    }
    LiveMergedAt(save, disk, r0, id);
    assert after == next;
  }

  /** One key of a live merge: present when the export has one, with the buffer appended when there is one. */
  lemma LiveMergedAt(save: map<nat, Models.Export>, disk: map<nat, Models.Export>,
                     pending: map<nat, seq<Models.Message>>, k: nat)
    ensures k in LiveMerged(save, disk, pending) <==> k in save || (k in pending && k in disk)
    ensures k in LiveMerged(save, disk, pending) && k in pending ==>
      LiveMerged(save, disk, pending)[k] == Appended(Base(save, disk, k).value, pending[k])
    ensures k in LiveMerged(save, disk, pending) && k !in pending ==> LiveMerged(save, disk, pending)[k] == save[k]
  {
  }

  /**
   * After a live merge, each buffered channel with an export ends with its
   * old messages followed by the whole buffer and keeps its old count; a
   * buffered channel without one gets no entry; other entries are untouched.
   */
  lemma LiveMergeFacts(save: map<nat, Models.Export>, disk: map<nat, Models.Export>,
                       pending: map<nat, seq<Models.Message>>, id: nat)
    ensures var s := LiveMerged(save, disk, pending);
      && (id in pending && Base(save, disk, id).Some? ==>
            var b := Base(save, disk, id).value;
            && id in s && s[id].messages == b.messages + pending[id]
            && s[id].messageCount == b.messageCount
            && s[id].guild == b.guild && s[id].channel == b.channel && s[id].exportedAt == b.exportedAt)
      && (id in pending && Base(save, disk, id).None? ==> id !in s)
      && (id !in pending && id in save ==> id in s && s[id] == save[id])
      && (id !in pending && id !in save ==> id !in s)
      && (id in save ==> id in s && save[id].messages <= s[id].messages)
  {
  }

  /** The buffers hold, per channel, exactly that channel's messages in arrival order. */
  lemma {:induction false} BufferAllOrder(pending: map<nat, seq<Models.Message>>, arrivals: seq<Arrival>, id: nat)
    ensures Buffer(BufferAll(pending, arrivals), id) == Buffer(pending, id) + ChannelMessages(arrivals, id)
  {
    if arrivals != [] {
      BufferAllOrder(pending, arrivals[..|arrivals| - 1], id);
    }
  }

  /** A full export runs exactly when the busy flag is clear and a week has passed since the watermark. */
  lemma GateAfterAWeek(last: int, now: real)
    ensures GateOpen(false, now, last) <==> now >= last as real + 604800.0
    ensures !GateOpen(true, now, last)
  {
  }

  /** A channel with no messages is neither stored nor counted. */
  lemma EmptyChannelSkipped(p: Progress, ch: SourceChannel, clock: DateTime, index: map<string, string>)
    requires ch.parent.Some? || ch.category.Some?
    ensures var q := ChannelStep(p, ch, [], clock, index);
      q.save == p.save && q.done == p.done && q.failure == p.failure
  {
    ExportShape(p.cache, ch, ch.guild, [], clock, true, index);
  }

  /** A channel with messages and a place in the guild is stored under its id and counted once. */
  lemma NonEmptyChannelSaved(p: Progress, ch: SourceChannel, h: seq<SourceMessage>, clock: DateTime,
                             index: map<string, string>)
    requires h != [] && (ch.parent.Some? || ch.category.Some?)
    ensures var q := ChannelStep(p, ch, h, clock, index);
      && q.failure == p.failure && q.done == p.done + 1
      && ch.id in q.save && |q.save[ch.id].messages| == |h| == q.save[ch.id].messageCount
      && (forall k :: k in p.save && k != ch.id ==> k in q.save && q.save[k] == p.save[k])
  {
    var step := ExportStep(p.cache, ch, ch.guild, h, clock, true, index);
    ExportShape(p.cache, ch, ch.guild, h, clock, true, index);
    ChannelStepOf(p, ch, h, clock, index, step.0, step.1);
    KeptStored(p, ch.id, step.0, step.1);
  }

  /** A non-empty export is stored under its channel's id; the other entries stay. */
  lemma KeptStored(p: Progress, id: nat, c: CacheState, r: Result<Models.Export, ExportError>)
    requires r.Ok? && r.value.messageCount != 0
    ensures var q := Kept(p, id, c, r);
      && q.failure == p.failure && q.done == p.done + 1 && id in q.save && q.save[id] == r.value
      && (forall k :: k in p.save && k != id ==> k in q.save && q.save[k] == p.save[k])
  {
  }

  /** A full export counts at most one per channel and stores only exports of the channels it went through. */
  lemma {:induction false} ExportAllBounds(p: Progress, chs: seq<SourceChannel>, histories: map<nat, seq<SourceMessage>>,
                                           clock: DateTime, index: map<string, string>)
    ensures var q := ExportAll(p, chs, histories, clock, index);
      && p.done <= q.done <= p.done + |chs|
      && (forall k :: k in q.save ==> k in p.save || exists i :: 0 <= i < |chs| && chs[i].id == k)
  {
    if chs != [] {
      var init := chs[..|chs| - 1];
      ExportAllBounds(p, init, histories, clock, index);
      var q := ExportAll(p, init, histories, clock, index);
      var last := chs[|chs| - 1];
      var r := ExportAll(p, chs, histories, clock, index);
      forall k | k in r.save ensures k in p.save || exists i :: 0 <= i < |chs| && chs[i].id == k {
        if k !in q.save {
          assert k == last.id && chs[|chs| - 1].id == k;
        } else if !(k in p.save) {
          var i :| 0 <= i < |init| && init[i].id == k;
          assert chs[i].id == k;
        }
      }
    }
  }

  /** With ids that repeat nowhere, the intended dedup merge and the bot's plain append agree. */
  lemma {:induction false} DedupAgreesOnFreshIds(messages: seq<Models.Message>, buffer: seq<Models.Message>)
    requires forall x, y :: x in messages && y in buffer ==> x.id != y.id
    requires forall i, j :: 0 <= i < j < |buffer| ==> buffer[i].id != buffer[j].id
    ensures IdDedupMerge(messages, buffer) == messages + buffer
  {
    if buffer != [] {
      var init := buffer[..|buffer| - 1];
      var m := buffer[|buffer| - 1];
      DedupAgreesOnFreshIds(messages, init);
      assert buffer == init + [m];
      var prev := messages + init;
      forall x | x in Window(prev) ensures x.id != m.id {
        assert x in prev;
        if x in messages {
          assert m in buffer;
        } else {
          var i :| 0 <= i < |init| && init[i] == x;
          assert buffer[i] == x;
        }
      }
      assert !IdInWindow(m.id, prev);
    }
  }

  /** A re-delivered copy of the newest stored message: the bot appends it again, the dedup merge would not. */
  lemma LiteralMergeKeepsRepeat(e: Models.Export, m: Models.Message)
    requires e.messages != [] && m == e.messages[|e.messages| - 1]
    ensures Appended(e, [m]).messages == e.messages + [m]
    ensures IdDedupMerge(e.messages, [m]) == e.messages
  {
    var w := Window(e.messages);
    assert m == w[|w| - 1];
    assert [m][..0] == [];
  }
}
