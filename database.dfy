// The SQLite store of config/database.py, with each table held in memory:
// `api_pool` and `listener_accounts` as sequences in id order, the channel
// tables and `message_history` as sequences, and `statistics` as a map keyed
// by (group, account, date), the one row per key the code keeps.
module Database {
  import opened Wrappers
  import opened PyStr

  /** A row of `api_pool`. */
  datatype Api = Api(id: int, appId: String, appHash: String, maxAccounts: int, current: int, status: String)

  /** A row of `listener_accounts`; `apiId` is the `app_id` it is bound to, `None` for SQL NULL. */
  datatype Account = Account(id: int, phone: String, userId: Option<int>, username: Option<String>,
                             apiId: Option<String>, status: String, errorCount: int)

  /** A row of `source_channels` or `target_channels` (the latter keeps `lastMessageId` at 0). */
  datatype Channel = Channel(id: int, groupId: int, channelId: int, username: Option<String>,
                             title: Option<String>, lastMessageId: int, status: String)

  /** A row of `message_history`; `sentDay` is the calendar day of `sent_at`. */
  datatype MessageRecord = MessageRecord(groupId: int, sourceMessageId: int, targetMessageId: Option<int>,
                                         sourceChannelId: int, targetChannelId: int, contentHash: String, sentDay: int)

  /** The key of a `statistics` row, with `day` a calendar day number. */
  datatype StatKey = StatKey(groupId: int, phone: String, day: int)

  datatype StatRow = StatRow(messageCount: nat, successCount: nat, errorCount: nat)

  // ---------------------------------------------------------------- table invariants

  /** Ids strictly increase along the sequence and stay below the next AUTOINCREMENT value; `app_id` is UNIQUE. */
  predicate ApisValid(apis: seq<Api>, nextId: int)
  {
    (forall i, j :: 0 <= i < j < |apis| ==> apis[i].id < apis[j].id && apis[i].appId != apis[j].appId)
    && forall i :: 0 <= i < |apis| ==> apis[i].id < nextId
  }

  /** The same for `listener_accounts`, whose `phone` is UNIQUE. */
  predicate AccountsValid(rows: seq<Account>, nextId: int)
  {
    (forall i, j :: 0 <= i < j < |rows| ==> rows[i].id < rows[j].id && rows[i].phone != rows[j].phone)
    && forall i :: 0 <= i < |rows| ==> rows[i].id < nextId
  }

  /** Every statistics row counts each message once, as a success or as an error. */
  predicate StatsValid(stats: map<StatKey, StatRow>)
  {
    forall k :: k in stats ==> stats[k].messageCount == stats[k].successCount + stats[k].errorCount
  }

  // ---------------------------------------------------------------- pool queries

  /** The filter of `get_available_api`. */
  predicate Qualifies(a: Api)
  {
    a.status == "active" && a.current < a.maxAccounts
  }

  /** `ORDER BY current_accounts ASC, id ASC`: `a` sorts no later than `b`. */
  predicate NoLater(a: Api, b: Api)
  {
    a.current < b.current || (a.current == b.current && a.id <= b.id)
  }

  /**
   * `get_available_api`: the qualifying API that sorts first by
   * `(current_accounts, id)`, or `None` when no API qualifies.
   */
  function AvailableApi(apis: seq<Api>): (r: Option<Api>)
    ensures r.None? <==> forall i :: 0 <= i < |apis| ==> !Qualifies(apis[i])
    ensures r.Some? ==> r.value in apis && Qualifies(r.value)
    ensures r.Some? ==> forall i :: 0 <= i < |apis| && Qualifies(apis[i]) ==> NoLater(r.value, apis[i])
  {
    if |apis| == 0 then None
    else
      var rest := AvailableApi(apis[1..]);
      assert forall i :: 1 <= i < |apis| ==> apis[i] == apis[1..][i - 1];
      if !Qualifies(apis[0]) then rest
      else if rest.None? || NoLater(apis[0], rest.value) then Some(apis[0])
      else rest
  }

  /** The row with the given `app_id`, if any. */
  function ApiByAppId(apis: seq<Api>, appId: String): (r: Option<Api>)
    ensures r.Some? ==> r.value in apis && r.value.appId == appId
    ensures r.None? ==> forall i :: 0 <= i < |apis| ==> apis[i].appId != appId
  {
    if |apis| == 0 then None
    else if apis[0].appId == appId then Some(apis[0])
    else
      assert forall i :: 1 <= i < |apis| ==> apis[i] == apis[1..][i - 1];
      ApiByAppId(apis[1..], appId)
  }

  /** The row with the given phone, if any. */
  function AccountByPhone(rows: seq<Account>, phone: String): (r: Option<Account>)
    ensures r.Some? ==> r.value in rows && r.value.phone == phone
    ensures r.None? ==> forall i :: 0 <= i < |rows| ==> rows[i].phone != phone
  {
    if |rows| == 0 then None
    else if rows[0].phone == phone then Some(rows[0])
    else
      assert forall i :: 1 <= i < |rows| ==> rows[i] == rows[1..][i - 1];
      AccountByPhone(rows[1..], phone)
  }

  /** On a table with unique phones, the row found for a phone is the one at its position. */
  lemma AccountAt(rows: seq<Account>, nextId: int, p: nat)
    requires AccountsValid(rows, nextId) && p < |rows|
    ensures AccountByPhone(rows, rows[p].phone) == Some(rows[p])
  {
    var r := AccountByPhone(rows, rows[p].phone);
    var q :| 0 <= q < |rows| && rows[q] == r.value;
    assert q == p;
  }

  /** `api_pool` after `current_accounts = current_accounts + delta` on the rows with this `app_id`. */
  function AddToCurrent(apis: seq<Api>, appId: String, delta: int): (r: seq<Api>)
    ensures |r| == |apis|
    ensures forall i :: 0 <= i < |apis| ==>
      r[i] == if apis[i].appId == appId then apis[i].(current := apis[i].current + delta) else apis[i]
  {
    seq(|apis|, i requires 0 <= i < |apis| =>
      if apis[i].appId == appId then apis[i].(current := apis[i].current + delta) else apis[i])
  }

  /** `api_pool` after `current_accounts = count` on the rows with this `app_id`. */
  function SetCurrent(apis: seq<Api>, appId: String, count: int): (r: seq<Api>)
    ensures |r| == |apis|
    ensures forall i :: 0 <= i < |apis| ==>
      r[i] == if apis[i].appId == appId then apis[i].(current := count) else apis[i]
  {
    seq(|apis|, i requires 0 <= i < |apis| =>
      if apis[i].appId == appId then apis[i].(current := count) else apis[i])
  }

  /** `listener_accounts` after `SET api_id = v WHERE phone = phone`. */
  function WithApiId(rows: seq<Account>, phone: String, v: Option<String>): (r: seq<Account>)
    ensures |r| == |rows|
    ensures forall i :: 0 <= i < |rows| ==>
      r[i] == if rows[i].phone == phone then rows[i].(apiId := v) else rows[i]
  {
    seq(|rows|, i requires 0 <= i < |rows| =>
      if rows[i].phone == phone then rows[i].(apiId := v) else rows[i])
  }

  /** The rows after `UPDATE source_channels SET last_message_id = ? WHERE group_id = ? AND channel_id = ?`. */
  function WithLastMessageId(rows: seq<Channel>, groupId: int, channelId: int, messageId: int): (r: seq<Channel>)
    ensures |r| == |rows|
    ensures forall i :: 0 <= i < |rows| ==> (r[i] ==
      if rows[i].groupId == groupId && rows[i].channelId == channelId
      then rows[i].(lastMessageId := messageId) else rows[i])
  {
    seq(|rows|, i requires 0 <= i < |rows| =>
      if rows[i].groupId == groupId && rows[i].channelId == channelId then rows[i].(lastMessageId := messageId) else rows[i])
  }

  /** The last write wins: a later, smaller id replaces a larger one. */
  lemma LastWriteWins(rows: seq<Channel>, groupId: int, channelId: int, m1: int, m2: int)
    ensures WithLastMessageId(WithLastMessageId(rows, groupId, channelId, m1), groupId, channelId, m2)
         == WithLastMessageId(rows, groupId, channelId, m2)
  {
  }

  /** The rows after `UPDATE listener_accounts SET status = ?[, error_count = ?] WHERE phone = ?`. */
  function WithStatus(rows: seq<Account>, phone: String, status: String, errorCount: Option<int>): (r: seq<Account>)
    ensures |r| == |rows|
    ensures forall i :: 0 <= i < |rows| ==> (r[i] ==
      if rows[i].phone != phone then rows[i]
      else rows[i].(status := status, errorCount := errorCount.GetOr(rows[i].errorCount)))
  {
    seq(|rows|, i requires 0 <= i < |rows| =>
      if rows[i].phone != phone then rows[i]
      else rows[i].(status := status, errorCount := errorCount.GetOr(rows[i].errorCount)))
  }

  lemma SameKeysStatus(rows: seq<Account>, phone: String, status: String, errorCount: Option<int>, nextId: int)
    requires AccountsValid(rows, nextId)
    ensures AccountsValid(WithStatus(rows, phone, status, errorCount), nextId)
  {
  }

  /** `listener_accounts` after `SET api_id = NULL WHERE api_id = appId`. */
  function ClearBindings(rows: seq<Account>, appId: String): (r: seq<Account>)
    ensures |r| == |rows|
    ensures forall i :: 0 <= i < |rows| ==>
      r[i] == if rows[i].apiId == Some(appId) then rows[i].(apiId := None) else rows[i]
  {
    seq(|rows|, i requires 0 <= i < |rows| =>
      if rows[i].apiId == Some(appId) then rows[i].(apiId := None) else rows[i])
  }

  /** The phones bound to `appId`, in id order: the `GROUP_CONCAT(la.phone)` of the pool status. */
  function BoundPhones(rows: seq<Account>, appId: String): (r: seq<String>)
    ensures |r| <= |rows|
    ensures forall ph :: ph in r <==> exists i :: 0 <= i < |rows| && rows[i].phone == ph && rows[i].apiId == Some(appId)
  {
    if |rows| == 0 then []
    else
      assert forall i :: 1 <= i < |rows| ==> rows[i] == rows[1..][i - 1];
      (if rows[0].apiId == Some(appId) then [rows[0].phone] else []) + BoundPhones(rows[1..], appId)
  }

  /** `SELECT COUNT(*) FROM listener_accounts WHERE api_id = ?`. */
  function CountBound(rows: seq<Account>, appId: String): nat
  {
    |BoundPhones(rows, appId)|
  }

  /** `listener_accounts` without the row for `phone`: what INSERT OR REPLACE deletes first. */
  function DropPhone(rows: seq<Account>, phone: String): (r: seq<Account>)
    ensures forall a :: a in r <==> a in rows && a.phone != phone
  {
    if |rows| == 0 then []
    else (if rows[0].phone == phone then [] else [rows[0]]) + DropPhone(rows[1..], phone)
  }

  /** A row placed before a valid table whose rows it precedes keeps the table valid. */
  lemma ConsValid(x: Account, d: seq<Account>, nextId: int)
    requires AccountsValid(d, nextId) && x.id < nextId
    requires forall a :: a in d ==> x.id < a.id && x.phone != a.phone
    ensures AccountsValid([x] + d, nextId)
  {
    var r := [x] + d;
    forall i, j | 0 <= i < j < |r|
      ensures r[i].id < r[j].id && r[i].phone != r[j].phone
    {
      assert r[j] == d[j - 1];
      if i > 0 {
        assert r[i] == d[i - 1];
      } else {
        assert d[j - 1] in d;
      }
    }
  }

  /** Deleting a row keeps the ids increasing and the phones unique. */
  lemma {:induction false} DropPhoneValid(rows: seq<Account>, phone: String, nextId: int)
    requires AccountsValid(rows, nextId)
    ensures AccountsValid(DropPhone(rows, phone), nextId)
  {
    if |rows| > 0 {
      var tail := rows[1..];
      assert AccountsValid(tail, nextId) by {
        assert forall i :: 0 <= i < |tail| ==> tail[i] == rows[i + 1];
      }
      DropPhoneValid(tail, phone, nextId);
      var d := DropPhone(tail, phone);
      if rows[0].phone != phone {
        forall a | a in d
          ensures rows[0].id < a.id && rows[0].phone != a.phone
        {
          var i :| 0 <= i < |tail| && tail[i] == a;
          assert a == rows[i + 1];
        }
        ConsValid(rows[0], d, nextId);
      }
    }
  }

  /** The positions of the `status = 'active'` rows, in table order: `get_listener_accounts()`. */
  function ActivePositions(rows: seq<Account>): (r: seq<nat>)
    ensures forall k :: 0 <= k < |r| ==> r[k] < |rows| && rows[r[k]].status == "active"
    ensures forall k, l :: 0 <= k < l < |r| ==> r[k] < r[l]
    ensures forall p :: 0 <= p < |rows| && rows[p].status == "active" ==> p in r
    ensures |r| <= |rows|
  {
    if |rows| == 0 then []
    else
      var front := ActivePositions(rows[..|rows| - 1]);
      assert forall p :: 0 <= p < |rows| - 1 ==> rows[..|rows| - 1][p] == rows[p];
      front + (if rows[|rows| - 1].status == "active" then [|rows| - 1] else [])
  }

  /** The active rows in table order. */
  function ActiveAccounts(rows: seq<Account>): (r: seq<Account>)
    ensures |r| == |ActivePositions(rows)|
    ensures forall k :: 0 <= k < |r| ==> r[k] == rows[ActivePositions(rows)[k]]
  {
    var ps := ActivePositions(rows);
    seq(|ps|, k requires 0 <= k < |ps| => rows[ps[k]])
  }

  /** `get_api_pool_status`: every API in id order with the phones bound to it. */
  function PoolStatus(apis: seq<Api>, rows: seq<Account>): (r: seq<(Api, seq<String>)>)
    ensures |r| == |apis|
    ensures forall i :: 0 <= i < |apis| ==> r[i] == (apis[i], BoundPhones(rows, apis[i].appId))
  {
    seq(|apis|, i requires 0 <= i < |apis| => (apis[i], BoundPhones(rows, apis[i].appId)))
  }

  // ---------------------------------------------------------------- ledger queries

  /** `is_message_forwarded`: some history row carries the hash. */
  predicate HashRecorded(history: seq<MessageRecord>, hash: String)
  {
    exists i :: 0 <= i < |history| && history[i].contentHash == hash
  }

  /** The number of history rows with the hash; nothing makes it at most one. */
  function HashCount(history: seq<MessageRecord>, hash: String): (n: nat)
    ensures n > 0 <==> HashRecorded(history, hash)
  {
    if |history| == 0 then 0
    else
      var last := history[|history| - 1];
      var front := history[..|history| - 1];
      assert forall i :: 0 <= i < |front| ==> front[i] == history[i];
      HashCount(front, hash) + (if last.contentHash == hash then 1 else 0)
  }

  /** `DELETE FROM message_history WHERE sent_at < cutoff`. */
  function KeepRecent(history: seq<MessageRecord>, cutoff: int): (r: seq<MessageRecord>)
    ensures forall m :: m in r <==> m in history && m.sentDay >= cutoff
    ensures |r| <= |history|
  {
    if |history| == 0 then []
    else (if history[0].sentDay >= cutoff then [history[0]] else []) + KeepRecent(history[1..], cutoff)
  }

  /** The statistics row after one more message, a success or an error. */
  function Counted(row: StatRow, success: bool): (r: StatRow)
    ensures r.messageCount == row.messageCount + 1
    ensures success ==> r.successCount == row.successCount + 1 && r.errorCount == row.errorCount
    ensures !success ==> r.errorCount == row.errorCount + 1 && r.successCount == row.successCount
  {
    if success then row.(messageCount := row.messageCount + 1, successCount := row.successCount + 1)
    else row.(messageCount := row.messageCount + 1, errorCount := row.errorCount + 1)
  }

  class Database {
    var apis: seq<Api>
    var nextApiId: int
    var accounts: seq<Account>
    var nextAccountId: int
    var sources: seq<Channel>
    var targets: seq<Channel>
    var nextSourceId: int
    var nextTargetId: int
    var history: seq<MessageRecord>
    var stats: map<StatKey, StatRow>

    predicate Valid()
      reads this
    {
      ApisValid(apis, nextApiId) && AccountsValid(accounts, nextAccountId) && StatsValid(stats)
    }

    /** The channel and ledger tables are as before. */
    twostate predicate OnlyPoolChanged()
      reads this
    {
      sources == old(sources) && targets == old(targets) && nextSourceId == old(nextSourceId)
      && nextTargetId == old(nextTargetId) && history == old(history) && stats == old(stats)
    }

    /** The pool and account tables are as before. */
    twostate predicate PoolUnchanged()
      reads this
    {
      apis == old(apis) && nextApiId == old(nextApiId) && accounts == old(accounts) && nextAccountId == old(nextAccountId)
    }

    /** `init`: every table empty. */
    constructor ()
      ensures Valid() && apis == [] && accounts == [] && sources == [] && targets == [] && history == [] && stats == map[]
    {
      apis := [];
      nextApiId := 1;
      accounts := [];
      nextAccountId := 1;
      sources := [];
      targets := [];
      nextSourceId := 1;
      nextTargetId := 1;
      history := [];
      stats := map[];
    }

    /** `add_api`: the INSERT fails on a duplicate `app_id`; otherwise a new active row with no accounts. */
    method AddApi(appId: String, appHash: String, maxAccounts: int) returns (ok: bool)
      requires Valid()
      modifies this
      ensures Valid() && OnlyPoolChanged() && accounts == old(accounts) && nextAccountId == old(nextAccountId)
      ensures ok <==> ApiByAppId(old(apis), appId).None?
      ensures ok ==> (apis == old(apis) + [Api(old(nextApiId), appId, appHash, maxAccounts, 0, "active")]
        && nextApiId == old(nextApiId) + 1)
      ensures !ok ==> apis == old(apis) && nextApiId == old(nextApiId)
    {
      if ApiByAppId(apis, appId).Some? {
        return false;
      }
      apis := apis + [Api(nextApiId, appId, appHash, maxAccounts, 0, "active")];
      nextApiId := nextApiId + 1;
      ok := true;
    }

    function GetAvailableApi(): Option<Api>
      reads this
    {
      AvailableApi(apis)
    }

    /**
     * `assign_api_to_account`: one more account on the API and the phone's
     * row bound to it. There is no capacity check, and a phone without a row
     * still raises the count.
     */
    method AssignApiToAccount(appId: String, phone: String) returns (ok: bool)
      requires Valid()
      modifies this
      ensures Valid() && OnlyPoolChanged() && ok
      ensures apis == AddToCurrent(old(apis), appId, 1) && nextApiId == old(nextApiId)
      ensures accounts == WithApiId(old(accounts), phone, Some(appId)) && nextAccountId == old(nextAccountId)
    {
      apis := AddToCurrent(apis, appId, 1);
      accounts := WithApiId(accounts, phone, Some(appId));
      ok := true;
    }

    /**
     * `release_api_from_account`: a phone bound to a (non-empty) `app_id`
     * gives one account back to that API and is unbound; any other phone
     * changes nothing. Either way the result is true.
     */
    method ReleaseApiFromAccount(phone: String) returns (ok: bool)
      requires Valid()
      modifies this
      ensures Valid() && OnlyPoolChanged() && ok && nextApiId == old(nextApiId) && nextAccountId == old(nextAccountId)
      ensures var row := AccountByPhone(old(accounts), phone);
        if row.Some? && row.value.apiId.Some? && row.value.apiId.value != "" then
          apis == AddToCurrent(old(apis), row.value.apiId.value, -1) && accounts == WithApiId(old(accounts), phone, None)
        else apis == old(apis) && accounts == old(accounts)
    {
      var row := AccountByPhone(accounts, phone);
      if row.Some? && row.value.apiId.Some? && row.value.apiId.value != "" {
        apis := AddToCurrent(apis, row.value.apiId.value, -1);
        accounts := WithApiId(accounts, phone, None);
      }
      ok := true;
    }

    function GetApiPoolStatus(): seq<(Api, seq<String>)>
      reads this
    {
      PoolStatus(apis, accounts)
    }

    /**
     * `add_listener_account`: INSERT OR REPLACE on the unique phone deletes
     * any old row and appends a new one with a fresh id, so the binding,
     * status and error count go back to NULL, `active` and 0.
     */
    method AddListenerAccount(phone: String, userId: Option<int>, username: Option<String>) returns (ok: bool)
      requires Valid()
      modifies this
      ensures Valid() && OnlyPoolChanged() && ok && apis == old(apis) && nextApiId == old(nextApiId)
      ensures accounts == DropPhone(old(accounts), phone) + [Account(old(nextAccountId), phone, userId, username, None, "active", 0)]
      ensures nextAccountId == old(nextAccountId) + 1
    {
      DropPhoneValid(accounts, phone, nextAccountId);
      var kept := DropPhone(accounts, phone);
      var row := Account(nextAccountId, phone, userId, username, None, "active", 0);
      assert forall i :: 0 <= i < |kept| ==> kept[i] in kept;
      accounts := kept + [row];
      nextAccountId := nextAccountId + 1;
      ok := true;
    }

    /** `get_listener_accounts(status)`: the rows with that status in id order. */
    function GetListenerAccounts(): seq<Account>
      reads this
    {
      ActiveAccounts(accounts)
    }

    /** `update_account_status`: the phone's row takes the status, and the error count when one is given. */
    method UpdateAccountStatus(phone: String, status: String, errorCount: Option<int>) returns (ok: bool)
      requires Valid()
      modifies this
      ensures Valid() && OnlyPoolChanged() && ok && apis == old(apis) && nextApiId == old(nextApiId)
      ensures nextAccountId == old(nextAccountId) && accounts == WithStatus(old(accounts), phone, status, errorCount)
    {
      SameKeysStatus(accounts, phone, status, errorCount, nextAccountId);
      accounts := WithStatus(accounts, phone, status, errorCount);
      ok := true;
    }

    // -------------------------------------------------------------- channels

    /** `add_source_channel`: the table has no key besides `id`, so every call inserts a row. */
    method AddSourceChannel(groupId: int, channelId: int, username: Option<String>, title: Option<String>) returns (ok: bool)
      requires Valid()
      modifies this
      ensures Valid() && PoolUnchanged() && ok
      ensures sources == old(sources) + [Channel(old(nextSourceId), groupId, channelId, username, title, 0, "active")]
      ensures nextSourceId == old(nextSourceId) + 1
      ensures targets == old(targets) && nextTargetId == old(nextTargetId) && history == old(history) && stats == old(stats)
    {
      sources := sources + [Channel(nextSourceId, groupId, channelId, username, title, 0, "active")];
      nextSourceId := nextSourceId + 1;
      ok := true;
    }

    /** `add_target_channel`, likewise. */
    method AddTargetChannel(groupId: int, channelId: int, username: Option<String>, title: Option<String>) returns (ok: bool)
      requires Valid()
      modifies this
      ensures Valid() && PoolUnchanged() && ok
      ensures targets == old(targets) + [Channel(old(nextTargetId), groupId, channelId, username, title, 0, "active")]
      ensures nextTargetId == old(nextTargetId) + 1
      ensures sources == old(sources) && nextSourceId == old(nextSourceId) && history == old(history) && stats == old(stats)
    {
      targets := targets + [Channel(nextTargetId, groupId, channelId, username, title, 0, "active")];
      nextTargetId := nextTargetId + 1;
      ok := true;
    }

    /** `update_last_message_id`: every matching row takes the id, larger or smaller than before. */
    method UpdateLastMessageId(groupId: int, channelId: int, messageId: int) returns (ok: bool)
      requires Valid()
      modifies this
      ensures Valid() && PoolUnchanged() && ok
      ensures sources == WithLastMessageId(old(sources), groupId, channelId, messageId)
      ensures targets == old(targets) && nextSourceId == old(nextSourceId) && nextTargetId == old(nextTargetId)
      ensures history == old(history) && stats == old(stats)
    {
      sources := WithLastMessageId(sources, groupId, channelId, messageId);
      ok := true;
    }

    // -------------------------------------------------------------- ledger

    predicate IsMessageForwarded(hash: String)
      reads this
    {
      HashRecorded(history, hash)
    }

    /** `add_message_record`: appends a row; an equal hash already present does not stop it. */
    method AddMessageRecord(groupId: int, sourceMessageId: int, targetMessageId: Option<int>,
                            sourceChannelId: int, targetChannelId: int, hash: String, today: int) returns (ok: bool)
      requires Valid()
      modifies this
      ensures Valid() && PoolUnchanged() && ok
      ensures history == old(history) + [MessageRecord(groupId, sourceMessageId, targetMessageId, sourceChannelId, targetChannelId, hash, today)]
      ensures IsMessageForwarded(hash) && HashCount(history, hash) == HashCount(old(history), hash) + 1
      ensures stats == old(stats) && sources == old(sources) && targets == old(targets)
      ensures nextSourceId == old(nextSourceId) && nextTargetId == old(nextTargetId)
    {
      var row := MessageRecord(groupId, sourceMessageId, targetMessageId, sourceChannelId, targetChannelId, hash, today);
      assert (history + [row])[..|history|] == history;
      history := history + [row];
      assert history[|history| - 1].contentHash == hash;
      ok := true;
    }

    /**
     * `update_statistics`: the (group, account, today) row gains one
     * message and one success or one error; a missing row is created as
     * that single message.
     */
    method UpdateStatistics(groupId: int, phone: String, success: bool, today: int) returns (ok: bool)
      requires Valid()
      modifies this
      ensures Valid() && PoolUnchanged() && ok
      ensures var key := StatKey(groupId, phone, today);
        stats == old(stats)[key := Counted(if key in old(stats) then old(stats)[key] else StatRow(0, 0, 0), success)]
      ensures history == old(history) && sources == old(sources) && targets == old(targets)
      ensures nextSourceId == old(nextSourceId) && nextTargetId == old(nextTargetId)
    {
      var key := StatKey(groupId, phone, today);
      if key in stats {
        stats := stats[key := Counted(stats[key], success)];
      } else {
        stats := stats[key := StatRow(1, if success then 1 else 0, if success then 0 else 1)];
      }
      ok := true;
    }

    /** `cleanup_old_data(days)`: history and statistics older than `today - days` are deleted. */
    method CleanupOldData(today: int, days: int) returns (ok: bool)
      requires Valid()
      modifies this
      ensures Valid() && PoolUnchanged() && ok
      ensures history == KeepRecent(old(history), today - days)
      ensures stats == map k | k in old(stats) && k.day >= today - days :: old(stats)[k]
      ensures sources == old(sources) && targets == old(targets)
      ensures nextSourceId == old(nextSourceId) && nextTargetId == old(nextTargetId)
    {
      history := KeepRecent(history, today - days);
      stats := map k | k in stats && k.day >= today - days :: stats[k];
      ok := true;
    }
  }

  // ---------------------------------------------------------------- properties

  /** After a binding, the phone's API is found through the join of `get_account_api`. */
  lemma BindingFound(apis: seq<Api>, rows: seq<Account>, nextId: int, phone: String, appId: String)
    requires AccountsValid(rows, nextId) && AccountByPhone(rows, phone).Some? && ApiByAppId(apis, appId).Some?
    ensures var r := AccountByPhone(WithApiId(rows, phone, Some(appId)), phone);
      r.Some? && r.value.apiId == Some(appId)
  {
    var a := AccountByPhone(rows, phone).value;
    var p :| 0 <= p < |rows| && rows[p] == a;
    var after := WithApiId(rows, phone, Some(appId));
    assert AccountsValid(after, nextId);
    AccountAt(after, nextId, p);
  }

  /** Releasing what an assignment added gives the counters back exactly. */
  lemma AssignReleaseCounts(apis: seq<Api>, appId: String)
    ensures AddToCurrent(AddToCurrent(apis, appId, 1), appId, -1) == apis
  {
  }

  /** After a release, the phone is no longer bound. */
  lemma ReleaseUnbinds(rows: seq<Account>, nextId: int, phone: String)
    requires AccountsValid(rows, nextId) && AccountByPhone(rows, phone).Some?
    ensures var r := AccountByPhone(WithApiId(rows, phone, None), phone);
      r.Some? && r.value.apiId.None?
  {
    var a := AccountByPhone(rows, phone).value;
    var p :| 0 <= p < |rows| && rows[p] == a;
    var after := WithApiId(rows, phone, None);
    assert AccountsValid(after, nextId);
    AccountAt(after, nextId, p);
  }

  /** Re-adding an account unbinds it without giving its API the account back. */
  lemma ReAddUnbinds(rows: seq<Account>, nextId: int, phone: String, userId: Option<int>, username: Option<String>)
    requires AccountsValid(rows, nextId)
    ensures var after := DropPhone(rows, phone) + [Account(nextId, phone, userId, username, None, "active", 0)];
      AccountByPhone(after, phone) == Some(Account(nextId, phone, userId, username, None, "active", 0))
  {
    var d := DropPhone(rows, phone);
    var row := Account(nextId, phone, userId, username, None, "active", 0);
    var after := d + [row];
    forall i | 0 <= i < |d|
      ensures after[i].phone != phone
    {
      assert after[i] == d[i] && d[i] in d;
    }
    assert after[|d|] == row;
  }

  /** Recording a hash twice leaves two rows with it: the hash column is not unique. */
  lemma HashNotUnique(history: seq<MessageRecord>, m: MessageRecord)
    ensures HashCount(history + [m, m], m.contentHash) == HashCount(history, m.contentHash) + 2
  {
    var once := history + [m];
    var twice := history + [m, m];
    assert twice[..|twice| - 1] == once;
    assert once[..|once| - 1] == history;
  }

  /** A row counted from scratch or from a consistent row stays consistent. */
  lemma CountedConsistent(row: StatRow, success: bool)
    requires row.messageCount == row.successCount + row.errorCount
    ensures var r := Counted(row, success); r.messageCount == r.successCount + r.errorCount
  {
  }
}
