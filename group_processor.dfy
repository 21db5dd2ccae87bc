// The group pipeline of core/group_processor.py: the group cache and its
// five-minute reload, the activity and schedule gate, text and media-group
// filtering with the footer, filter toggles, statistics, and the per-target
// recording of deliveries in the message ledger and the statistics table.
// The clock is a parameter (`now` in seconds, `clock` as a time of day, `today`
// as a day number), so is the group table read on a reload, and so is the
// outcome of each delivery.
module GroupProcessor {
  import opened Wrappers
  import opened PyStr
  import T = PyTime
  import F = Filters
  import D = Database
  import L = Listener

  /** Age in seconds after which the group cache is reloaded. */
  const CacheTtl: real := 300.0

  /** The statistics pseudo-account the pipeline counts deliveries under. */
  const SystemAccount: String := "system"

  // ---------------------------------------------------------------- groups

  /**
   * A row of `forwarding_groups` as the cache holds it. A schedule bound or
   * footer that is SQL NULL is the empty string, which Python treats as
   * falsy just like `None`.
   */
  datatype GroupConfig = GroupConfig(id: int, name: String, status: String, scheduleStart: String,
                                     scheduleEnd: String, filters: F.FilterSettings, footer: String)

  /** A cache entry: the group with its active source and target channels. */
  datatype GroupData = GroupData(config: GroupConfig, sources: seq<D.Channel>, targets: seq<D.Channel>)

  /** `group_cache.get(group_id)`: the cache is a dict, searched by key. */
  function FindGroup(cache: seq<GroupData>, id: int): (r: Option<GroupData>)
    ensures r.Some? <==> exists i :: 0 <= i < |cache| && cache[i].config.id == id
    ensures r.Some? ==> r.value in cache && r.value.config.id == id
  {
    if |cache| == 0 then None
    else if cache[0].config.id == id then Some(cache[0])
    else FindGroup(cache[1..], id)
  }

  /**
   * `group_cache[id] = g` on an insertion-ordered dict: an existing key
   * keeps its place and takes the new value, a new key goes last.
   */
  function Put(cache: seq<GroupData>, g: GroupData): (r: seq<GroupData>)
    ensures FindGroup(r, g.config.id) == Some(g)
    ensures forall id :: id != g.config.id ==> FindGroup(r, id) == FindGroup(cache, id)
    ensures |r| == |cache| + (if FindGroup(cache, g.config.id).Some? then 0 else 1)
  {
    if |cache| == 0 then [g]
    else if cache[0].config.id == g.config.id then [g] + cache[1..]
    else
      var r := [cache[0]] + Put(cache[1..], g);
      assert r[1..] == Put(cache[1..], g);
      r
  }

  /** The last group with the given id in a table read. */
  function LastWithId(groups: seq<GroupData>, id: int): Option<GroupData>
  {
    if |groups| == 0 then None
    else if groups[|groups| - 1].config.id == id then Some(groups[|groups| - 1])
    else LastWithId(groups[..|groups| - 1], id)
  }

  /** The cache after `_load_groups` stored every group read. */
  function Loaded(cache: seq<GroupData>, groups: seq<GroupData>): (r: seq<GroupData>)
  {
    if |groups| == 0 then cache
    else Put(Loaded(cache, groups[..|groups| - 1]), groups[|groups| - 1])
  }

  /**
   * A reload overwrites the groups it read and keeps every other cached
   * group: a group deleted from the table stays in the cache.
   */
  lemma {:induction false} LoadedLookup(cache: seq<GroupData>, groups: seq<GroupData>, id: int)
    ensures FindGroup(Loaded(cache, groups), id)
         == if LastWithId(groups, id).Some? then LastWithId(groups, id) else FindGroup(cache, id)
  {
    if |groups| > 0 {
      LoadedLookup(cache, groups[..|groups| - 1], id);
    }
  }

  // ---------------------------------------------------------------- the gate

  /**
   * `_is_in_schedule_time`: both bounds parse as times of day and the clock
   * is in the window, or a bound does not parse, which lets the group
   * through.
   */
  function InScheduleTime(start: String, end: String, clock: T.TimeOfDay): (r: bool)
    ensures T.FromIsoFormat(start).None? || T.FromIsoFormat(end).None? ==> r
    ensures T.FromIsoFormat(start).Some? && T.FromIsoFormat(end).Some? ==>
      (r <==> T.InWindow(clock, T.FromIsoFormat(start).value, T.FromIsoFormat(end).value))
  {
    match (T.FromIsoFormat(start), T.FromIsoFormat(end))
    case (Some(s), Some(e)) => T.InWindow(clock, s, e)
    case _ => true
  }

  /** A group whose start is written `9:00` is never held back by its schedule. */
  lemma ShortHourNeverCloses(end: String, clock: T.TimeOfDay)
    ensures InScheduleTime("9:00", end, clock)
  {
    T.FromIsoFormatRejectsShortHour();
  }

  /**
   * `_should_process_group` on the looked-up entry: an unknown group and a
   * group whose status is not `active` are refused; the schedule is
   * consulted only when both bounds are set.
   */
  function Gate(data: Option<GroupData>, clock: T.TimeOfDay): (r: bool)
    ensures r ==> data.Some? && data.value.config.status == "active"
    ensures data.Some? && data.value.config.status == "active" ==>
      (r <==> (data.value.config.scheduleStart == "" || data.value.config.scheduleEnd == ""
               || InScheduleTime(data.value.config.scheduleStart, data.value.config.scheduleEnd, clock)))
  {
    if data.None? then false
    else
      var c := data.value.config;
      if c.status != "active" then false
      else if c.scheduleStart != "" && c.scheduleEnd != "" then InScheduleTime(c.scheduleStart, c.scheduleEnd, clock)
      else true
  }

  // ---------------------------------------------------------------- filtering

  /** A media-group item after filtering: the message with its filtered text. */
  datatype MediaItem = MediaItem(message: L.Message, filteredText: String)

  /**
   * `message.text or message.caption or ""`: the text, else the caption;
   * `None` when the text is empty and reading the caption raises.
   */
  function ItemText(m: L.Message): (r: Option<String>)
    ensures r.None? <==> m.text == "" && m.caption.None?
    ensures m.text != "" ==> r == Some(m.text)
    ensures m.text == "" && m.caption.Some? ==> r == m.caption
  {
    if m.text != "" then Some(m.text) else m.caption
  }

  /** Some item of the album raises when its caption is read. */
  predicate Unreadable(entries: seq<L.Entry>)
  {
    exists i :: 0 <= i < |entries| && ItemText(entries[i].message).None?
  }

  /**
   * The filtered items of a media group, before the footer: each message
   * with the filtered form of its text or caption, or `None` when an
   * item's caption read raises.
   */
  function FilteredItems(entries: seq<L.Entry>, cfg: F.FilterSettings, keywords: seq<String>, ops: F.RegexOps): (r: Option<seq<MediaItem>>)
    ensures r.None? <==> Unreadable(entries)
    ensures r.Some? ==> |r.value| == |entries|
  {
    if |entries| == 0 then Some([])
    else
      var last := entries[|entries| - 1].message;
      var init := FilteredItems(entries[..|entries| - 1], cfg, keywords, ops);
      var t := ItemText(last);
      UnreadableSnoc(entries);
      if init.None? || t.None? then None
      else Some(init.value + [MediaItem(last, F.FilteredText(t.value, cfg, keywords, ops))])
  }

  /** Item by item: a readable album keeps each message with the filtered form of its text or caption. */
  lemma {:induction false} FilteredItemsAt(entries: seq<L.Entry>, cfg: F.FilterSettings, keywords: seq<String>, ops: F.RegexOps)
    requires !Unreadable(entries)
    ensures forall i :: 0 <= i < |entries| ==>
      ItemText(entries[i].message).Some?
      && FilteredItems(entries, cfg, keywords, ops).value[i]
         == MediaItem(entries[i].message, F.FilteredText(ItemText(entries[i].message).value, cfg, keywords, ops))
  {
    if |entries| > 0 {
      var init := entries[..|entries| - 1];
      UnreadableSnoc(entries);
      FilteredItemsAt(init, cfg, keywords, ops);
      forall i | 0 <= i < |entries| - 1
        ensures entries[i] == init[i]
      {
      }
    }
  }

  /** An album is unreadable iff its prefix is or its last item is. */
  lemma UnreadableSnoc(entries: seq<L.Entry>)
    requires |entries| > 0
    ensures Unreadable(entries) <==>
      Unreadable(entries[..|entries| - 1]) || ItemText(entries[|entries| - 1].message).None?
  {
    var init := entries[..|entries| - 1];
    if Unreadable(init) {
      var k :| 0 <= k < |init| && ItemText(init[k].message).None?;
      assert init[k] == entries[k];
    }
    if Unreadable(entries) && ItemText(entries[|entries| - 1].message).Some? {
      var k :| 0 <= k < |entries| && ItemText(entries[k].message).None?;
      assert init[k] == entries[k];
    }
  }

  /**
   * The footer goes on the first item only: after a blank line when the
   * item has text, as its whole text otherwise. No footer, no change.
   */
  function WithFooter(items: seq<MediaItem>, footer: String): (r: seq<MediaItem>)
    ensures |r| == |items|
    ensures forall i :: 0 <= i < |r| ==> r[i].message == items[i].message
    ensures forall i :: 0 < i < |r| ==> r[i] == items[i]
    ensures footer == "" ==> r == items
    ensures footer != "" && |items| > 0 ==>
      r[0].filteredText == (if items[0].filteredText == "" then footer else items[0].filteredText + "\n\n" + footer)
  {
    if footer == "" || |items| == 0 then items
    else
      var first := items[0];
      var text := if first.filteredText != "" then first.filteredText + "\n\n" + footer else footer;
      [first.(filteredText := text)] + items[1..]
  }

  /** A footed text always ends with the footer. */
  lemma FooterLast(items: seq<MediaItem>, footer: String)
    requires |items| > 0
    ensures var t := WithFooter(items, footer)[0].filteredText;
      |footer| <= |t| && t[|t| - |footer|..] == footer
  {
    var t := WithFooter(items, footer)[0].filteredText;
    if footer != "" && items[0].filteredText != "" {
      assert t == (items[0].filteredText + "\n\n") + footer;
    }
  }

  // ---------------------------------------------------------------- delivery

  /** What a send reported for one target; a delivery may carry no message id. */
  datatype Delivery = Delivered(messageId: Option<int>) | NotDelivered

  /**
   * The ledger rows written for the targets, in order: one per delivered
   * target, or, when `needId` holds, one per delivered target with a
   * message id. The source channel is recorded as 0.
   */
  function Records(targets: seq<D.Channel>, groupId: int, sourceMessageId: int, hash: String, today: int,
                   deliver: int -> Delivery, needId: bool): (r: seq<D.MessageRecord>)
    ensures |r| <= |targets|
    ensures forall i :: 0 <= i < |r| ==> r[i].contentHash == hash && r[i].groupId == groupId && r[i].sourceChannelId == 0
  {
    if |targets| == 0 then []
    else
      Records(targets[..|targets| - 1], groupId, sourceMessageId, hash, today, deliver, needId)
      + RecordOf(targets[|targets| - 1], groupId, sourceMessageId, hash, today, deliver, needId)
  }

  /** The ledger row, if any, written for one target. */
  function RecordOf(t: D.Channel, groupId: int, sourceMessageId: int, hash: String, today: int,
                    deliver: int -> Delivery, needId: bool): (r: seq<D.MessageRecord>)
    ensures |r| <= 1
    ensures |r| == 1 <==> deliver(t.channelId).Delivered? && (deliver(t.channelId).messageId.Some? || !needId)
    ensures |r| == 1 ==> r[0] == D.MessageRecord(groupId, sourceMessageId, deliver(t.channelId).messageId, 0, t.channelId, hash, today)
  {
    var d := deliver(t.channelId);
    if d.Delivered? && (d.messageId.Some? || !needId)
    then [D.MessageRecord(groupId, sourceMessageId, d.messageId, 0, t.channelId, hash, today)]
    else []
  }

  /** The statistics table after one `update_statistics` call per target, in order. */
  function Tally(stats: map<D.StatKey, D.StatRow>, key: D.StatKey, targets: seq<D.Channel>, deliver: int -> Delivery): map<D.StatKey, D.StatRow>
  {
    if |targets| == 0 then stats
    else
      CountOne(Tally(stats, key, targets[..|targets| - 1], deliver), key, deliver(targets[|targets| - 1].channelId).Delivered?)
  }

  /** One `update_statistics` call: the row gains a message and a success or an error, created if missing. */
  function CountOne(stats: map<D.StatKey, D.StatRow>, key: D.StatKey, success: bool): map<D.StatKey, D.StatRow>
  {
    stats[key := D.Counted(if key in stats then stats[key] else D.StatRow(0, 0, 0), success)]
  }

  /** The number of targets a send reached. */
  function DeliveredCount(targets: seq<D.Channel>, deliver: int -> Delivery): (n: nat)
    ensures n <= |targets|
  {
    if |targets| == 0 then 0
    else DeliveredCount(targets[..|targets| - 1], deliver) + (if deliver(targets[|targets| - 1].channelId).Delivered? then 1 else 0)
  }

  /**
   * One row counts the whole fan-out: every target adds a message, and a
   * success or an error as it went; no other row changes.
   */
  lemma {:induction false} TallyCounts(stats: map<D.StatKey, D.StatRow>, key: D.StatKey, targets: seq<D.Channel>, deliver: int -> Delivery)
    requires |targets| > 0
    ensures var after := Tally(stats, key, targets, deliver);
      var before := if key in stats then stats[key] else D.StatRow(0, 0, 0);
      key in after
      && after[key].messageCount == before.messageCount + |targets|
      && after[key].successCount == before.successCount + DeliveredCount(targets, deliver)
      && after[key].errorCount == before.errorCount + (|targets| - DeliveredCount(targets, deliver))
      && forall k :: k != key ==> (k in after <==> k in stats) && (k in stats ==> after[k] == stats[k])
  {
    if |targets| > 1 {
      TallyCounts(stats, key, targets[..|targets| - 1], deliver);
    }
  }

  /**
   * Every target that took a message leaves its fingerprint in the ledger,
   * so the same content arriving again is dropped as a duplicate.
   */
  lemma {:induction false} DeliveryRecordsHash(history: seq<D.MessageRecord>, targets: seq<D.Channel>, groupId: int,
                                               sourceMessageId: int, hash: String, today: int, deliver: int -> Delivery)
    requires exists i :: 0 <= i < |targets| && deliver(targets[i].channelId).Delivered?
    ensures D.HashRecorded(history + Records(targets, groupId, sourceMessageId, hash, today, deliver, false), hash)
  {
    var front := targets[..|targets| - 1];
    var last := targets[|targets| - 1];
    var before := Records(front, groupId, sourceMessageId, hash, today, deliver, false);
    var all := history + Records(targets, groupId, sourceMessageId, hash, today, deliver, false);
    if deliver(last.channelId).Delivered? {
      assert all[|all| - 1].contentHash == hash;
    } else {
      var i :| 0 <= i < |targets| && deliver(targets[i].channelId).Delivered?;
      assert front[i] == targets[i];
      DeliveryRecordsHash(history, front, groupId, sourceMessageId, hash, today, deliver);
      assert all == history + before;
    }
  }

  // ---------------------------------------------------------------- statistics

  /** `get_statistics`. */
  datatype GroupStats = GroupStats(totalGroups: nat, activeGroups: nat, inactiveGroups: nat,
                                   totalSourceChannels: nat, totalTargetChannels: nat, isRunning: bool)

  function CountActive(cache: seq<GroupData>): (n: nat)
    ensures n <= |cache|
  {
    if |cache| == 0 then 0
    else CountActive(cache[..|cache| - 1]) + (if cache[|cache| - 1].config.status == "active" then 1 else 0)
  }

  function SumSources(cache: seq<GroupData>): nat
  {
    if |cache| == 0 then 0 else SumSources(cache[..|cache| - 1]) + |cache[|cache| - 1].sources|
  }

  function SumTargets(cache: seq<GroupData>): nat
  {
    if |cache| == 0 then 0 else SumTargets(cache[..|cache| - 1]) + |cache[|cache| - 1].targets|
  }

  /** The channel totals add up over any split of the cache. */
  lemma {:induction false} SumsSplit(a: seq<GroupData>, b: seq<GroupData>)
    ensures SumSources(a + b) == SumSources(a) + SumSources(b)
    ensures SumTargets(a + b) == SumTargets(a) + SumTargets(b)
    ensures CountActive(a + b) == CountActive(a) + CountActive(b)
    decreases |b|
  {
    if |b| > 0 {
      assert (a + b)[..|a + b| - 1] == a + b[..|b| - 1];
      SumsSplit(a, b[..|b| - 1]);
    } else {
      assert a + b == a;
    }
  }

  // ---------------------------------------------------------------- filter toggles

  /** The filter types `set_group_filter` recognises as toggles. */
  const ToggleTypes: set<String> := {"remove_links", "remove_emojis", "remove_special_chars", "ad_detection", "smart_filter"}

  /**
   * `set_group_filter`'s update of the settings: a recognised toggle takes
   * `enabled`, `custom` with a non-empty rule list replaces `custom_rules`,
   * and anything else leaves the settings as they were.
   */
  function UpdatedFilters(filters: F.FilterSettings, filterType: String, enabled: bool, rules: seq<F.Rule>): (r: F.FilterSettings)
    ensures filterType in ToggleTypes ==> r == filters[filterType := F.Flag(enabled)]
    ensures filterType == "custom" && |rules| > 0 ==> r == filters["custom_rules" := F.Rules(rules)]
    ensures filterType !in ToggleTypes && !(filterType == "custom" && |rules| > 0) ==> r == filters
  {
    if filterType in ToggleTypes then filters[filterType := F.Flag(enabled)]
    else if filterType == "custom" && |rules| > 0 then filters["custom_rules" := F.Rules(rules)]
    else filters
  }

  /** A toggle update changes only that toggle, and setting it back restores every other setting. */
  lemma ToggleIsLocal(filters: F.FilterSettings, filterType: String, enabled: bool, rules: seq<F.Rule>)
    requires filterType in ToggleTypes
    ensures var r := UpdatedFilters(filters, filterType, enabled, rules);
      F.Enabled(r, filterType) == enabled
      && forall k :: k != filterType ==> (k in r <==> k in filters) && (k in filters ==> r[k] == filters[k])
  {
  }

  // ---------------------------------------------------------------- the processor

  /** What became of a message or media group handed to the pipeline. */
  datatype Outcome = Skipped | FilteredOut | Sent(targets: nat)

  class GroupProcessor {
    /** The group cache, a dict keyed by group id in insertion order. */
    var groupCache: seq<GroupData>
    var cacheUpdateTime: real
    var isRunning: bool
    const db: D.Database
    const filter: F.MessageFilter

    predicate Valid()
      reads this, db
    {
      db.Valid()
    }

    constructor (db: D.Database, filter: F.MessageFilter)
      requires db.Valid()
      ensures Valid() && this.db == db && this.filter == filter
      ensures groupCache == [] && cacheUpdateTime == 0.0 && !isRunning
    {
      this.db := db;
      this.filter := filter;
      groupCache := [];
      cacheUpdateTime := 0.0;
      isRunning := false;
    }

    /** `_load_groups` with `groups` the table as read: each group is stored under its id, then the time is stamped. */
    method LoadGroups(groups: seq<GroupData>, now: real)
      modifies this
      ensures groupCache == Loaded(old(groupCache), groups) && cacheUpdateTime == now
      ensures isRunning == old(isRunning)
    {
      var i := 0;
      while i < |groups|
        invariant 0 <= i <= |groups|
        invariant groupCache == Loaded(old(groupCache), groups[..i])
        invariant isRunning == old(isRunning)
      {
        assert groups[..i + 1][..i] == groups[..i];
        groupCache := Put(groupCache, groups[i]);
        i := i + 1;
      }
      assert groups[..i] == groups;
      cacheUpdateTime := now;
    }

    /** `start`: load the groups, then run. */
    method Start(groups: seq<GroupData>, now: real)
      modifies this
      ensures groupCache == Loaded(old(groupCache), groups) && cacheUpdateTime == now && isRunning
    {
      LoadGroups(groups, now);
      isRunning := true;
    }

    /** `stop`: the cache is cleared. */
    method Stop()
      modifies this
      ensures groupCache == [] && !isRunning && cacheUpdateTime == old(cacheUpdateTime)
    {
      isRunning := false;
      groupCache := [];
    }

    /**
     * `_get_group_data`: a cache older than five minutes is reloaded from
     * `groups` first; a fresher one is used as it is.
     */
    method GetGroupData(groupId: int, now: real, groups: seq<GroupData>) returns (r: Option<GroupData>)
      modifies this
      ensures now - old(cacheUpdateTime) > CacheTtl ==> groupCache == Loaded(old(groupCache), groups) && cacheUpdateTime == now
      ensures now - old(cacheUpdateTime) <= CacheTtl ==> groupCache == old(groupCache) && cacheUpdateTime == old(cacheUpdateTime)
      ensures now - cacheUpdateTime <= CacheTtl
      ensures r == FindGroup(groupCache, groupId) && isRunning == old(isRunning)
    {
      if now - cacheUpdateTime > CacheTtl {
        LoadGroups(groups, now);
      }
      r := FindGroup(groupCache, groupId);
    }

    /** `_filter_message`: `None` for a message without text or whose filtered text is blank. */
    method FilterMessage(data: GroupData, text: String) returns (r: Option<String>)
      ensures var filtered := F.FilteredText(text, data.config.filters, filter.adKeywords, filter.ops);
        (r.None? <==> filtered == "")
        && (r.Some? ==> r.value == filtered + (if data.config.footer != "" then "\n\n" + data.config.footer else ""))
    {
      if text == "" {
        return None;
      }
      var filtered := filter.FilterText(text, data.config.filters);
      F.FilteredTextIsClean(text, data.config.filters, filter.adKeywords, filter.ops);
      if Strip(filtered) == "" {
        return None;
      }
      if data.config.footer != "" {
        filtered := filtered + "\n\n" + data.config.footer;
      }
      r := Some(filtered);
    }

    /**
     * `_filter_media_group`: every item is kept with its filtered text,
     * even an empty one, and the footer goes on the first item. An empty
     * group gives `None`, and so does an item whose caption read raises,
     * which the `except` turns into `None` for the whole group.
     */
    method FilterMediaGroup(data: GroupData, entries: seq<L.Entry>) returns (r: Option<seq<MediaItem>>)
      ensures r.None? <==> |entries| == 0 || Unreadable(entries)
      ensures r.Some? ==>
        r.value == WithFooter(FilteredItems(entries, data.config.filters, filter.adKeywords, filter.ops).value, data.config.footer)
    {
      var items: seq<MediaItem> := [];
      var i := 0;
      while i < |entries|
        invariant 0 <= i <= |entries|
        invariant FilteredItems(entries[..i], data.config.filters, filter.adKeywords, filter.ops) == Some(items)
      {
        assert entries[..i + 1][..i] == entries[..i];
        var item := FilterItem(data.config.filters, entries[i].message);
        if item.None? {
          assert ItemText(entries[i].message).None?;
          return None;
        }
        items := items + [item.value];
        i := i + 1;
      }
      assert entries[..i] == entries;
      items := WithFooter(items, data.config.footer);
      if |items| == 0 {
        return None;
      }
      r := Some(items);
    }

    /**
     * One media-group item: its text, else its caption, filtered when
     * non-empty; `None` when the text is empty and the caption read raises.
     */
    method FilterItem(cfg: F.FilterSettings, m: L.Message) returns (item: Option<MediaItem>)
      ensures item.None? <==> ItemText(m).None?
      ensures item.Some? ==> item.value == MediaItem(m, F.FilteredText(ItemText(m).value, cfg, filter.adKeywords, filter.ops))
    {
      var text := m.text;
      if text == "" {
        if m.caption.None? {
          return None;
        }
        text := m.caption.value;
      }
      var filtered := "";
      if text != "" {
        filtered := filter.FilterText(text, cfg);
      }
      item := Some(MediaItem(m, filtered));
    }

    /**
     * `_send_to_targets` and `_send_media_group_to_targets` after the sends,
     * with `deliver` the outcome per target channel: each delivered target
     * gets a ledger row (a media group only when the send returned message
     * ids), and each target counts once under the `system` account.
     */
    method RecordDeliveries(data: GroupData, hash: String, sourceMessageId: int, today: int,
                            deliver: int -> Delivery, needId: bool)
      requires db.Valid()
      modifies db
      ensures db.Valid() && db.PoolUnchanged()
      ensures db.history == old(db.history) + Records(data.targets, data.config.id, sourceMessageId, hash, today, deliver, needId)
      ensures db.stats == Tally(old(db.stats), D.StatKey(data.config.id, SystemAccount, today), data.targets, deliver)
      ensures db.sources == old(db.sources) && db.targets == old(db.targets)
      ensures db.nextSourceId == old(db.nextSourceId) && db.nextTargetId == old(db.nextTargetId)
    {
      var groupId := data.config.id;
      var key := D.StatKey(groupId, SystemAccount, today);
      var targets := data.targets;
      var i := 0;
      while i < |targets|
        invariant 0 <= i <= |targets|
        invariant db.Valid()
        invariant db.apis == old(db.apis) && db.nextApiId == old(db.nextApiId)
        invariant db.accounts == old(db.accounts) && db.nextAccountId == old(db.nextAccountId)
        invariant db.history == old(db.history) + Records(targets[..i], groupId, sourceMessageId, hash, today, deliver, needId)
        invariant db.stats == Tally(old(db.stats), key, targets[..i], deliver)
        invariant db.sources == old(db.sources) && db.targets == old(db.targets)
        invariant db.nextSourceId == old(db.nextSourceId) && db.nextTargetId == old(db.nextTargetId)
      {
        assert targets[..i + 1][..i] == targets[..i];
        RecordOne(groupId, targets[i], hash, sourceMessageId, today, deliver, needId);
        i := i + 1;
      }
      assert targets[..i] == targets;
    }

    /** The loop body of the sends: one target's ledger row and statistics count. */
    method RecordOne(groupId: int, target: D.Channel, hash: String, sourceMessageId: int, today: int,
                     deliver: int -> Delivery, needId: bool)
      requires db.Valid()
      modifies db
      ensures db.Valid() && db.PoolUnchanged()
      ensures db.history == old(db.history) + RecordOf(target, groupId, sourceMessageId, hash, today, deliver, needId)
      ensures db.stats == CountOne(old(db.stats), D.StatKey(groupId, SystemAccount, today), deliver(target.channelId).Delivered?)
      ensures db.sources == old(db.sources) && db.targets == old(db.targets)
      ensures db.nextSourceId == old(db.nextSourceId) && db.nextTargetId == old(db.nextTargetId)
    {
      var d := deliver(target.channelId);
      if d.Delivered? {
        if d.messageId.Some? || !needId {
          var _ := db.AddMessageRecord(groupId, sourceMessageId, d.messageId, 0, target.channelId, hash, today);
        } else {
          assert RecordOf(target, groupId, sourceMessageId, hash, today, deliver, needId) == [];
        }
        var _ := db.UpdateStatistics(groupId, SystemAccount, true, today);
      } else {
        var _ := db.UpdateStatistics(groupId, SystemAccount, false, today);
      }
    }

    /**
     * `process_message`: a message for a group that is unknown, inactive or
     * outside its window is skipped; one filtered to nothing is dropped;
     * otherwise every target is recorded as `deliver` reports.
     */
    method ProcessMessage(groupId: int, m: L.Message, hash: String, now: real, clock: T.TimeOfDay, today: int,
                          groups: seq<GroupData>, deliver: int -> Delivery) returns (o: Outcome)
      requires Valid()
      modifies this, db
      ensures Valid() && db.PoolUnchanged()
      ensures var data := FindGroup(groupCache, groupId);
        (o.Skipped? <==> !Gate(data, clock))
        && (o.FilteredOut? <==>
              Gate(data, clock) && F.FilteredText(m.text, data.value.config.filters, filter.adKeywords, filter.ops) == "")
        && (o.Sent? ==>
              (data.Some? && o.targets == |data.value.targets|
               && F.FilteredText(m.text, data.value.config.filters, filter.adKeywords, filter.ops) != ""
               && db.history == old(db.history) + Records(data.value.targets, groupId, m.id, hash, today, deliver, false)
               && db.stats == Tally(old(db.stats), D.StatKey(groupId, SystemAccount, today), data.value.targets, deliver)))
      ensures !o.Sent? ==> db.history == old(db.history) && db.stats == old(db.stats)
      ensures db.sources == old(db.sources) && db.targets == old(db.targets)
      ensures db.nextSourceId == old(db.nextSourceId) && db.nextTargetId == old(db.nextTargetId)
      ensures groupCache == (if now - old(cacheUpdateTime) > CacheTtl then Loaded(old(groupCache), groups) else old(groupCache))
      ensures cacheUpdateTime == (if now - old(cacheUpdateTime) > CacheTtl then now else old(cacheUpdateTime))
      ensures isRunning == old(isRunning)
    {
      var data := GetGroupData(groupId, now, groups);
      if !Gate(data, clock) {
        return Skipped;
      }
      var again := GetGroupData(groupId, now, groups);
      assert again == data;
      var content := FilterMessage(data.value, m.text);
      if content.None? {
        return FilteredOut;
      }
      RecordDeliveries(data.value, hash, m.id, today, deliver, false);
      o := Sent(|data.value.targets|);
    }

    /**
     * `process_media_group`: the same gate; a non-empty group survives
     * filtering unless an item's caption read raises, and the first
     * message's id is the source id recorded for every target.
     */
    method ProcessMediaGroup(groupId: int, entries: seq<L.Entry>, hash: String, now: real, clock: T.TimeOfDay, today: int,
                             groups: seq<GroupData>, deliver: int -> Delivery) returns (o: Outcome)
      requires Valid()
      modifies this, db
      ensures Valid() && db.PoolUnchanged()
      ensures var data := FindGroup(groupCache, groupId);
        (o.Skipped? <==> !Gate(data, clock))
        && (o.FilteredOut? <==> Gate(data, clock) && (|entries| == 0 || Unreadable(entries)))
        && (o.Sent? ==>
              (data.Some? && o.targets == |data.value.targets|
               && db.history == old(db.history) + Records(data.value.targets, groupId, entries[0].message.id, hash, today, deliver, true)
               && db.stats == Tally(old(db.stats), D.StatKey(groupId, SystemAccount, today), data.value.targets, deliver)))
      ensures !o.Sent? ==> db.history == old(db.history) && db.stats == old(db.stats)
      ensures db.sources == old(db.sources) && db.targets == old(db.targets)
      ensures db.nextSourceId == old(db.nextSourceId) && db.nextTargetId == old(db.nextTargetId)
      ensures groupCache == (if now - old(cacheUpdateTime) > CacheTtl then Loaded(old(groupCache), groups) else old(groupCache))
      ensures cacheUpdateTime == (if now - old(cacheUpdateTime) > CacheTtl then now else old(cacheUpdateTime))
      ensures isRunning == old(isRunning)
    {
      var data := GetGroupData(groupId, now, groups);
      if !Gate(data, clock) {
        return Skipped;
      }
      var again := GetGroupData(groupId, now, groups);
      assert again == data;
      var media := FilterMediaGroup(data.value, entries);
      if media.None? {
        return FilteredOut;
      }
      RecordDeliveries(data.value, hash, entries[0].message.id, today, deliver, true);
      o := Sent(|data.value.targets|);
    }

    /**
     * `set_group_filter`: an unknown group is an error; otherwise the cached
     * settings are updated in place and returned for the write to the
     * table.
     */
    method SetGroupFilter(groupId: int, filterType: String, enabled: bool, rules: seq<F.Rule>, now: real,
                          groups: seq<GroupData>) returns (r: Option<F.FilterSettings>)
      modifies this
      ensures var before := FindGroup(if now - old(cacheUpdateTime) > CacheTtl then Loaded(old(groupCache), groups) else old(groupCache), groupId);
        (r.None? <==> before.None?)
        && (r.Some? ==>
              (r.value == UpdatedFilters(before.value.config.filters, filterType, enabled, rules)
               && FindGroup(groupCache, groupId) == Some(before.value.(config := before.value.config.(filters := r.value)))))
      ensures forall id :: id != groupId ==> FindGroup(groupCache, id) == FindGroup(
        if now - old(cacheUpdateTime) > CacheTtl then Loaded(old(groupCache), groups) else old(groupCache), id)
    {
      var data := GetGroupData(groupId, now, groups);
      if data.None? {
        return None;
      }
      var g := data.value;
      var filters := UpdatedFilters(g.config.filters, filterType, enabled, rules);
      groupCache := Put(groupCache, g.(config := g.config.(filters := filters)));
      r := Some(filters);
    }

    /** `get_statistics`: the inactive count is what remains of the total, and the channel totals are sums over the groups. */
    function GetStatistics(): (r: GroupStats)
      reads this
      ensures r.totalGroups == |groupCache| && r.activeGroups + r.inactiveGroups == r.totalGroups
      ensures r.activeGroups == CountActive(groupCache)
      ensures r.totalSourceChannels == SumSources(groupCache) && r.totalTargetChannels == SumTargets(groupCache)
      ensures r.isRunning == isRunning
    {
      var active := CountActive(groupCache);
      GroupStats(|groupCache|, active, |groupCache| - active, SumSources(groupCache), SumTargets(groupCache), isRunning)
    }
  }
}
