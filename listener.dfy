// The ingestion side of core/listener.py: the set of listened channels, the
// routing of an incoming message, deduplication by content fingerprint, the
// per-`grouped_id` media-group buffers with their replaceable timers, and the
// fingerprint pre-images. The MD5 digest is a function parameter; a timer is
// a generation number, and a flush acts only for the current generation.
module Listener {
  import opened Wrappers
  import opened PyStr
  import D = Database

  // ---------------------------------------------------------------- messages

  /** The media of a message, as far as the fingerprint looks at it. */
  datatype Media = NoMedia | Photo(photoId: int) | Document(documentId: int) | OtherMedia

  /**
   * The fields of a Telethon message the core reads. `text` is `""` when
   * the message has none; `fromText` is how `from_id` formats in an
   * f-string (`None` included). `caption` is what `message.caption` gives
   * (`""` for `None`), or `None` when the message object has no such
   * attribute and reading it raises.
   */
  datatype Message = Message(id: int, text: String, media: Media, chatId: int, fromText: String, groupedId: Option<int>,
                             caption: Option<String>)

  /** A buffered media-group entry: the message with the group and channel it arrived for. */
  datatype Entry = Entry(message: Message, groupId: int, channelId: int)

  // ---------------------------------------------------------------- fingerprints

  /** The media part of a fingerprint: `photo_<id>`, `doc_<id>`, or nothing. */
  function MediaTag(m: Media): (r: String)
    ensures m.Photo? ==> r == "photo_" + IntToString(m.photoId)
    ensures m.Document? ==> r == "doc_" + IntToString(m.documentId)
    ensures m.NoMedia? || m.OtherMedia? ==> r == ""
  {
    match m
    case Photo(p) => "photo_" + IntToString(p)
    case Document(d) => "doc_" + IntToString(d)
    case _ => ""
  }

  /** `f"{x}"` of an optional integer. */
  function OptText(x: Option<int>): String
  {
    if x.None? then "None" else IntToString(x.value)
  }

  /** What `_generate_message_hash` digests: text, media tag, then `_<chat_id>_<from_id>`. */
  function SinglePreImage(m: Message): (r: String)
    ensures r == m.text + MediaTag(m.media) + "_" + IntToString(m.chatId) + "_" + m.fromText
  {
    m.text + MediaTag(m.media) + "_" + IntToString(m.chatId) + "_" + m.fromText
  }

  /** The same text, media and sender in two different chats give two different pre-images. */
  lemma ChatsDistinguished(m1: Message, m2: Message)
    requires m1.text == m2.text && m1.media == m2.media && m1.fromText == m2.fromText
    requires m1.chatId != m2.chatId
    ensures SinglePreImage(m1) != SinglePreImage(m2)
  {
    if SinglePreImage(m1) == SinglePreImage(m2) {
      var p := m1.text + MediaTag(m1.media) + "_";
      var s := "_" + m1.fromText;
      var c1 := IntToString(m1.chatId);
      var c2 := IntToString(m2.chatId);
      PreImageParts(m1);
      PreImageParts(m2);
      SamePrefix(p, c1 + s, c2 + s);
      SameSuffix(c1, c2, s);
      IntToStringInjective(m1.chatId, m2.chatId);
    }
  }

  /** The pre-image regrouped as content, then chat id, then sender. */
  lemma PreImageParts(m: Message)
    ensures SinglePreImage(m) == (m.text + MediaTag(m.media) + "_") + (IntToString(m.chatId) + ("_" + m.fromText))
  {
    Regroup(m.text + MediaTag(m.media) + "_", IntToString(m.chatId), "_", m.fromText);
  }

  /** Four strings concatenated, regrouped to the right. */
  lemma Regroup(a: String, b: String, c: String, d: String)
    ensures a + b + c + d == a + (b + (c + d))
  {
  }

  /** The text and media parts of the entries, in order. */
  function ContentParts(entries: seq<Entry>): String
  {
    if |entries| == 0 then ""
    else
      var last := entries[|entries| - 1];
      ContentParts(entries[..|entries| - 1]) + last.message.text + MediaTag(last.message.media)
  }

  /**
   * What `_generate_media_group_hash` digests for an id-sorted batch: every
   * entry's text and media tag, then `_group_<grouped_id>_<chat_id>` of the
   * first entry.
   */
  function GroupPreImage(sorted: seq<Entry>): (r: String)
    requires |sorted| > 0
    ensures r == ContentParts(sorted) + "_group_" + OptText(sorted[0].message.groupedId)
      + "_" + IntToString(sorted[0].message.chatId)
  {
    ContentParts(sorted) + "_group_" + OptText(sorted[0].message.groupedId) + "_" + IntToString(sorted[0].message.chatId)
  }

  // ---------------------------------------------------------------- sorting by message id

  predicate SortedById(s: seq<Entry>)
  {
    forall i, j :: 0 <= i < j < |s| ==> s[i].message.id <= s[j].message.id
  }

  predicate DistinctIds(s: seq<Entry>)
  {
    forall i, j :: 0 <= i < j < |s| ==> s[i].message.id != s[j].message.id
  }

  /** Places `e` after every entry whose id is not larger, which keeps equal ids in arrival order. */
  function InsertById(s: seq<Entry>, e: Entry): (r: seq<Entry>)
    ensures multiset(r) == multiset(s) + multiset{e} && |r| == |s| + 1
  {
    if |s| == 0 then [e]
    else if s[|s| - 1].message.id <= e.message.id then s + [e]
    else
      var front := s[..|s| - 1];
      assert s == front + [s[|s| - 1]];
      InsertById(front, e) + [s[|s| - 1]]
  }

  /** Inserting into an id-sorted sequence keeps it sorted. */
  lemma {:induction false} InsertSorted(s: seq<Entry>, e: Entry)
    requires SortedById(s)
    ensures SortedById(InsertById(s, e))
  {
    if |s| > 0 {
      var last := s[|s| - 1];
      var front := s[..|s| - 1];
      if last.message.id > e.message.id {
        InsertSorted(front, e);
        var mid := InsertById(front, e);
        forall x | x in mid ensures x.message.id <= last.message.id {
          assert x in multiset(mid);
          if x != e {
            assert x in multiset(front);
            var i :| 0 <= i < |front| && front[i] == x;
          }
        }
        assert InsertById(s, e) == mid + [last];
        SortedSnoc(mid, last);
      }
    }
  }

  /** An entry whose id bounds every id of a sorted sequence extends it sorted. */
  lemma SortedSnoc(s: seq<Entry>, last: Entry)
    requires SortedById(s) && forall x :: x in s ==> x.message.id <= last.message.id
    ensures SortedById(s + [last])
  {
    var t := s + [last];
    forall i, j | 0 <= i < j < |t| ensures t[i].message.id <= t[j].message.id {
      if j < |s| {
        assert t[i] == s[i] && t[j] == s[j];
      } else {
        assert t[i] == s[i] && s[i] in s;
      }
    }
  }

  /** Python's stable `sort(key=lambda x: x['message'].id)`. */
  function SortById(s: seq<Entry>): (r: seq<Entry>)
    ensures SortedById(r) && multiset(r) == multiset(s) && |r| == |s|
  {
    if |s| == 0 then []
    else
      assert s == s[..|s| - 1] + [s[|s| - 1]];
      var front := SortById(s[..|s| - 1]);
      InsertSorted(front, s[|s| - 1]);
      InsertById(front, s[|s| - 1])
  }

  /** Distinct ids survive any rearrangement of the same entries. */
  lemma DistinctPermutation(a: seq<Entry>, b: seq<Entry>)
    requires multiset(a) == multiset(b) && DistinctIds(a)
    ensures DistinctIds(b)
  {
    forall i, j | 0 <= i < j < |b|
      ensures b[i].message.id != b[j].message.id
    {
      if b[i].message.id == b[j].message.id {
        assert b[i] in multiset(a) && b[j] in multiset(a);
        var k :| 0 <= k < |a| && a[k] == b[i];
        var l :| 0 <= l < |a| && a[l] == b[j];
        if b[i] == b[j] {
          assert multiset(b)[b[i]] >= 2 by {
            assert b == b[..j] + [b[j]] + b[j + 1..];
            assert b[i] in b[..j];
          }
          DuplicateCount(a, k);
        }
      }
    }
  }

  /** With distinct ids no entry occurs twice. */
  lemma DuplicateCount(a: seq<Entry>, k: nat)
    requires DistinctIds(a) && k < |a|
    ensures multiset(a)[a[k]] == 1
  {
    var x := a[k];
    assert a == a[..k] + [x] + a[k + 1..];
    assert x !in a[..k] by {
      forall i | 0 <= i < k ensures a[..k][i] != x { assert a[i].message.id != a[k].message.id; }
    }
    assert x !in a[k + 1..] by {
      var tail := a[k + 1..];
      forall i | 0 <= i < |tail| ensures tail[i] != x { assert tail[i] == a[k + 1 + i]; }
    }
  }

  /** Two id-sorted arrangements of the same entries with distinct ids start with the same entry. */
  lemma SameHead(x: seq<Entry>, y: seq<Entry>)
    requires SortedById(x) && SortedById(y) && DistinctIds(x) && multiset(x) == multiset(y) && |x| > 0
    ensures |y| > 0 && x[0] == y[0]
  {
    assert x[0] in multiset(y);
    var j :| 0 <= j < |y| && y[j] == x[0];
    assert y[0] in multiset(x);
    var i :| 0 <= i < |x| && x[i] == y[0];
    assert x[0].message.id <= x[i].message.id;
    assert y[0].message.id <= y[j].message.id;
  }

  /** Dropping the same first entry leaves the same multiset. */
  lemma SameTail(x: seq<Entry>, y: seq<Entry>)
    requires |x| > 0 && |y| > 0 && x[0] == y[0] && multiset(x) == multiset(y)
    ensures multiset(x[1..]) == multiset(y[1..])
  {
    assert x == [x[0]] + x[1..];
    assert y == [y[0]] + y[1..];
    assert multiset(x) == multiset{x[0]} + multiset(x[1..]);
    assert multiset(y) == multiset{y[0]} + multiset(y[1..]);
    assert multiset(x[1..]) == multiset(x) - multiset{x[0]};
    assert multiset(y[1..]) == multiset(y) - multiset{y[0]};
  }

  /** Two id-sorted arrangements of the same entries with distinct ids are the same sequence. */
  lemma {:induction false} SortedUnique(x: seq<Entry>, y: seq<Entry>)
    requires SortedById(x) && SortedById(y) && DistinctIds(x) && multiset(x) == multiset(y)
    ensures x == y
    decreases |x|
  {
    assert |x| == |multiset(x)| == |y|;
    if |x| > 0 {
      SameHead(x, y);
      SameTail(x, y);
      SortedUnique(x[1..], y[1..]);
      assert x == [x[0]] + x[1..];
      assert y == [y[0]] + y[1..];
    }
  }

  /**
   * The media-group pre-image does not depend on the order in which the
   * parts of the group arrived, as long as their message ids are distinct.
   */
  lemma ArrivalOrderIrrelevant(a: seq<Entry>, b: seq<Entry>)
    requires |a| > 0 && multiset(a) == multiset(b) && DistinctIds(a)
    ensures |b| > 0 && GroupPreImage(SortById(a)) == GroupPreImage(SortById(b))
  {
    assert |a| == |multiset(a)| == |b|;
    var sa := SortById(a);
    var sb := SortById(b);
    DistinctPermutation(a, sa);
    SortedUnique(sa, sb);
  }

  /** The last entry of an id-sorted batch carries the largest id. */
  lemma SortedLastIsMax(s: seq<Entry>)
    requires |s| > 0
    ensures forall e :: e in s ==> e.message.id <= SortById(s)[|s| - 1].message.id
  {
    var r := SortById(s);
    forall e | e in s ensures e.message.id <= r[|r| - 1].message.id {
      assert e in multiset(r);
      var i :| 0 <= i < |r| && r[i] == e;
    }
  }

  // ---------------------------------------------------------------- groups

  /** A forwarding group with the channel ids of its sources. */
  datatype Group = Group(id: int, status: String, sources: seq<int>)

  /** The source channels of the active groups. */
  function ActiveSources(groups: seq<Group>): (r: set<int>)
    ensures forall c :: c in r <==> exists g :: g in groups && g.status == "active" && c in g.sources
  {
    if |groups| == 0 then {}
    else
      var front := groups[..|groups| - 1];
      var last := groups[|groups| - 1];
      assert groups == front + [last];
      ActiveSources(front) + (if last.status == "active" then set c | c in last.sources else {})
  }

  /**
   * Starting from `calls0` and `channels0`, the listener registrations
   * `calls` extend `calls0` by distinct channels, which are exactly the
   * channels of `channels` that were not in `channels0`.
   */
  ghost predicate Registered(calls0: seq<int>, channels0: set<int>, calls: seq<int>, channels: set<int>)
  {
    |calls0| <= |calls| && calls[..|calls0|] == calls0 && channels0 <= channels
    && var added := calls[|calls0|..];
       (forall i, j :: 0 <= i < j < |added| ==> added[i] != added[j])
       && (forall c :: c in added <==> c in channels && c !in channels0)
  }

  /** Registering one more channel the way `add_channel_to_listen` does keeps `Registered`. */
  lemma RegisterStep(calls0: seq<int>, channels0: set<int>, calls: seq<int>, channels: set<int>, c: int)
    requires Registered(calls0, channels0, calls, channels)
    ensures Registered(calls0, channels0,
                       calls + (if c in channels then [] else [c]), channels + {c})
  {
    if c !in channels {
      var calls1 := calls + [c];
      assert calls1[..|calls0|] == calls[..|calls0|];
      assert calls1[|calls0|..] == calls[|calls0|..] + [c];
    } else {
      assert calls + [] == calls;
    }
  }

  /** What a flush handed to the group processor: group, id-sorted batch and fingerprint. */
  datatype Batch = Batch(groupId: int, entries: seq<Entry>, hash: String)

  /**
   * The outcome of flushing the non-empty buffer `batch` against the ledger
   * `history`: the batch is sorted by message id and fingerprinted; a
   * recorded fingerprint drops it with `sources` unchanged, otherwise it
   * goes on under the group of the first entry to arrive and the largest id
   * becomes the `last_message_id` of that entry's group and channel.
   */
  ghost predicate Flushed(batch: seq<Entry>, md5: String -> String, history: seq<D.MessageRecord>,
                          sources0: seq<D.Channel>, sources: seq<D.Channel>, r: Option<Batch>)
    requires |batch| > 0
  {
    var sorted := SortById(batch);
    var hash := md5(GroupPreImage(sorted));
    (r.None? <==> D.HashRecorded(history, hash))
    && (r.None? ==> sources == sources0)
    && (r.Some? ==>
          (r.value == Batch(batch[0].groupId, sorted, hash)
           && sources == D.WithLastMessageId(sources0, batch[0].groupId, batch[0].channelId,
                                             sorted[|sorted| - 1].message.id)))
  }

  /** `if message.grouped_id:` — set and not zero. */
  predicate Grouped(m: Message)
  {
    m.groupedId.Some? && m.groupedId.value != 0
  }

  /** What became of an incoming message. */
  datatype Routed = Duplicate | Forwarded(groupId: int, message: Message, hash: String) | Buffered(generation: nat)

  class MessageListener {
    var listeningChannels: set<int>
    /** The channel ids `_add_channel_listener` was called for, in order. */
    var listenerCalls: seq<int>
    var mediaGroups: map<int, seq<Entry>>
    /** The pending timer of each `grouped_id`, by generation. */
    var timers: map<int, nat>
    /** The generation the next timer gets. */
    var nextGeneration: nat
    const db: D.Database

    /** Every pending timer is older than the next one to be created. */
    predicate Valid()
      reads this, db
    {
      db.Valid() && forall g :: g in timers ==> timers[g] < nextGeneration
    }

    constructor (db: D.Database)
      requires db.Valid()
      ensures Valid() && this.db == db
      ensures listeningChannels == {} && listenerCalls == [] && mediaGroups == map[] && timers == map[]
    {
      this.db := db;
      listeningChannels := {};
      listenerCalls := [];
      mediaGroups := map[];
      timers := map[];
      nextGeneration := 0;
    }

    /** `add_channel_to_listen`: a channel not yet listened to is registered once and added. */
    method AddChannelToListen(channelId: int)
      modifies this
      ensures listeningChannels == old(listeningChannels) + {channelId}
      ensures listenerCalls == old(listenerCalls) + (if channelId in old(listeningChannels) then [] else [channelId])
      ensures mediaGroups == old(mediaGroups) && timers == old(timers) && nextGeneration == old(nextGeneration)
    {
      if channelId !in listeningChannels {
        listenerCalls := listenerCalls + [channelId];
        listeningChannels := listeningChannels + {channelId};
      }
    }

    /** `remove_channel_from_listen`. */
    method RemoveChannelFromListen(channelId: int)
      modifies this
      ensures listeningChannels == old(listeningChannels) - {channelId}
      ensures listenerCalls == old(listenerCalls)
      ensures mediaGroups == old(mediaGroups) && timers == old(timers) && nextGeneration == old(nextGeneration)
    {
      listeningChannels := listeningChannels - {channelId};
    }

    /**
     * `_setup_listeners`: every source channel of every active group is
     * listened to, and each channel not listened to before is registered
     * exactly once, however many groups list it.
     */
    method SetupListeners(groups: seq<Group>)
      modifies this
      ensures listeningChannels == old(listeningChannels) + ActiveSources(groups)
      ensures Registered(old(listenerCalls), old(listeningChannels), listenerCalls, listeningChannels)
      ensures mediaGroups == old(mediaGroups) && timers == old(timers) && nextGeneration == old(nextGeneration)
    {
      var i := 0;
      while i < |groups|
        invariant 0 <= i <= |groups|
        invariant listeningChannels == old(listeningChannels) + ActiveSources(groups[..i])
        invariant Registered(old(listenerCalls), old(listeningChannels), listenerCalls, listeningChannels)
        invariant mediaGroups == old(mediaGroups) && timers == old(timers) && nextGeneration == old(nextGeneration)
      {
        assert groups[..i + 1] == groups[..i] + [groups[i]];
        if groups[i].status == "active" {
          ListenToSources(groups[i].sources, old(listenerCalls), old(listeningChannels));
        }
        i := i + 1;
      }
      assert groups[..i] == groups;
    }

    /** The inner loop of `setup_listeners`: every source of one active group is listened to. */
    method ListenToSources(sources: seq<int>, ghost calls0: seq<int>, ghost channels0: set<int>)
      requires Registered(calls0, channels0, listenerCalls, listeningChannels)
      modifies this
      ensures listeningChannels == old(listeningChannels) + set c | c in sources
      ensures Registered(calls0, channels0, listenerCalls, listeningChannels)
      ensures mediaGroups == old(mediaGroups) && timers == old(timers) && nextGeneration == old(nextGeneration)
    {
      var j := 0;
      while j < |sources|
        invariant 0 <= j <= |sources|
        invariant listeningChannels == old(listeningChannels) + set c | c in sources[..j]
        invariant Registered(calls0, channels0, listenerCalls, listeningChannels)
        invariant mediaGroups == old(mediaGroups) && timers == old(timers) && nextGeneration == old(nextGeneration)
      {
        assert sources[..j + 1] == sources[..j] + [sources[j]];
        ghost var calls, channels := listenerCalls, listeningChannels;
        AddChannelToListen(sources[j]);
        RegisterStep(calls0, channels0, calls, channels, sources[j]);
        j := j + 1;
      }
      assert sources[..j] == sources;
    }

    /**
     * `_handle_single_message`: a message whose fingerprint is in the ledger
     * is dropped with nothing changed; otherwise the channel's
     * `last_message_id` is written first, and the message goes to the group
     * processor with its fingerprint.
     */
    method HandleSingleMessage(m: Message, groupId: int, channelId: int, md5: String -> String) returns (r: Routed)
      requires Valid()
      modifies db
      ensures Valid() && db.PoolUnchanged()
      ensures var hash := md5(SinglePreImage(m));
        (r == Duplicate <==> old(db.IsMessageForwarded(hash)))
        && (r == Duplicate ==> db.sources == old(db.sources))
        && (r != Duplicate ==>
              (r == Forwarded(groupId, m, hash)
               && db.sources == D.WithLastMessageId(old(db.sources), groupId, channelId, m.id)))
      ensures db.targets == old(db.targets) && db.history == old(db.history) && db.stats == old(db.stats)
      ensures db.nextSourceId == old(db.nextSourceId) && db.nextTargetId == old(db.nextTargetId)
    {
      var hash := md5(SinglePreImage(m));
      if db.IsMessageForwarded(hash) {
        return Duplicate;
      }
      var _ := db.UpdateLastMessageId(groupId, channelId, m.id);
      r := Forwarded(groupId, m, hash);
    }

    /**
     * `_handle_media_group`: the entry joins the back of its `grouped_id`'s
     * buffer, created when absent, and a new timer replaces any pending
     * one, so only the latest arrival's timer can flush.
     */
    method HandleMediaGroup(m: Message, groupId: int, channelId: int) returns (generation: nat)
      requires Valid() && m.groupedId.Some?
      modifies this
      ensures Valid()
      ensures var gid := m.groupedId.value;
        mediaGroups == old(mediaGroups)[gid := (if gid in old(mediaGroups) then old(mediaGroups)[gid] else [])
                                              + [Entry(m, groupId, channelId)]]
        && timers == old(timers)[gid := generation]
      ensures generation == old(nextGeneration) && nextGeneration == generation + 1
      ensures forall g :: g in old(timers) ==> old(timers)[g] != generation
      ensures listeningChannels == old(listeningChannels) && listenerCalls == old(listenerCalls)
    {
      var gid := m.groupedId.value;
      var buffer := if gid in mediaGroups then mediaGroups[gid] else [];
      mediaGroups := mediaGroups[gid := buffer + [Entry(m, groupId, channelId)]];
      generation := nextGeneration;
      nextGeneration := nextGeneration + 1;
      timers := timers[gid := generation];
    }

    /**
     * `_process_message`: a message whose `grouped_id` is set and non-zero
     * (Python truthiness) is buffered, any other is handled at once.
     */
    method ProcessMessage(m: Message, groupId: int, channelId: int, md5: String -> String) returns (r: Routed)
      requires Valid()
      modifies this, db
      ensures Valid()
      ensures Grouped(m) ==>
                r == Buffered(old(nextGeneration)) && db.sources == old(db.sources) && db.history == old(db.history)
                && mediaGroups == old(mediaGroups)[m.groupedId.value := (if m.groupedId.value in old(mediaGroups)
                                                                       then old(mediaGroups)[m.groupedId.value] else [])
                                                                      + [Entry(m, groupId, channelId)]]
                && timers == old(timers)[m.groupedId.value := old(nextGeneration)]
      ensures !Grouped(m) ==>
                !r.Buffered? && mediaGroups == old(mediaGroups) && timers == old(timers)
                && (r == Duplicate <==> old(db.IsMessageForwarded(md5(SinglePreImage(m)))))
                && (r == Duplicate ==> db.sources == old(db.sources))
                && (r != Duplicate ==>
                      r == Forwarded(groupId, m, md5(SinglePreImage(m)))
                      && db.sources == D.WithLastMessageId(old(db.sources), groupId, channelId, m.id))
      ensures listeningChannels == old(listeningChannels) && listenerCalls == old(listenerCalls)
    {
      if Grouped(m) {
        var generation := HandleMediaGroup(m, groupId, channelId);
        r := Buffered(generation);
      } else {
        r := HandleSingleMessage(m, groupId, channelId, md5);
      }
    }

    /**
     * `_process_media_group_delayed` when the timer of `generation` fires
     * for `gid`. A timer that has been replaced was cancelled and never
     * fires: nothing happens. Otherwise a non-empty buffer is sorted by
     * message id; unless its fingerprint is in the ledger, the
     * `last_message_id` of the group and channel of the first entry to
     * arrive becomes the largest id, and the batch goes to the group
     * processor. Either way the buffer and the timer are removed.
     */
    method FlushMediaGroup(gid: int, generation: nat, md5: String -> String) returns (r: Option<Batch>)
      requires Valid()
      modifies this, db
      ensures Valid() && db.PoolUnchanged()
      ensures db.targets == old(db.targets) && db.history == old(db.history) && db.stats == old(db.stats)
      ensures listeningChannels == old(listeningChannels) && listenerCalls == old(listenerCalls)
      ensures !(gid in old(timers) && old(timers)[gid] == generation) ==>
        r.None? && mediaGroups == old(mediaGroups) && timers == old(timers) && db.sources == old(db.sources)
      ensures gid in old(timers) && old(timers)[gid] == generation ==>
        mediaGroups == old(mediaGroups) - {gid} && timers == old(timers) - {gid}
      ensures r.Some? ==>
        (gid in old(mediaGroups) && |old(mediaGroups)[gid]| > 0
         && Flushed(old(mediaGroups)[gid], md5, db.history, old(db.sources), db.sources, r))
      ensures gid in old(timers) && old(timers)[gid] == generation && gid in old(mediaGroups) && |old(mediaGroups)[gid]| > 0 ==>
        Flushed(old(mediaGroups)[gid], md5, db.history, old(db.sources), db.sources, r)
      ensures r.None? ==> db.sources == old(db.sources)
    {
      if gid !in timers || timers[gid] != generation {
        return None;
      }
      r := None;
      if gid in mediaGroups {
        var messages := mediaGroups[gid];
        if |messages| > 0 {
          r := ForwardBatch(messages, md5);
        }
        mediaGroups := mediaGroups - {gid};
      }
      timers := timers - {gid};
    }

    /**
     * The body of `_process_media_group_delayed` for a non-empty buffer:
     * the group and channel come from the first entry to arrive, the batch
     * is sorted by message id and fingerprinted, and unless the fingerprint
     * is in the ledger the largest id becomes the channel's
     * `last_message_id`.
     */
    method ForwardBatch(batch: seq<Entry>, md5: String -> String) returns (r: Option<Batch>)
      requires db.Valid() && |batch| > 0
      modifies db
      ensures db.Valid() && db.PoolUnchanged()
      ensures db.targets == old(db.targets) && db.history == old(db.history) && db.stats == old(db.stats)
      ensures Flushed(batch, md5, db.history, old(db.sources), db.sources, r)
    {
      var first := batch[0];
      var sorted := SortById(batch);
      var hash := md5(GroupPreImage(sorted));
      if db.IsMessageForwarded(hash) {
        return None;
      }
      var _ := db.UpdateLastMessageId(first.groupId, first.channelId, sorted[|sorted| - 1].message.id);
      r := Some(Batch(first.groupId, sorted, hash));
    }
  }
}
