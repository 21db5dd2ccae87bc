// The API credential pool of core/api_pool_manager.py, working on the
// `api_pool` and `listener_accounts` tables of the Database model.
module ApiPool {
  import opened Wrappers
  import opened PyStr
  import D = Database

  // ---------------------------------------------------------------- even split

  /** `total // n + (1 if i < total % n else 0)`: the accounts API number `i` receives. */
  function Target(total: nat, n: nat, i: nat): nat
    requires n > 0
  {
    total / n + (if i < total % n then 1 else 0)
  }

  /** The accounts handed to the APIs before number `i`. */
  function Start(total: nat, n: nat, i: nat): nat
    requires n > 0
  {
    i * (total / n) + (if i < total % n then i else total % n)
  }

  lemma StartStep(total: nat, n: nat, i: nat)
    requires n > 0
    ensures Start(total, n, i + 1) == Start(total, n, i) + Target(total, n, i)
  {
    assert (i + 1) * (total / n) == i * (total / n) + total / n;
  }

  /** The targets of all `n` APIs add up to the number of accounts. */
  lemma StartEnd(total: nat, n: nat)
    requires n > 0
    ensures Start(total, n, n) == total
  {
  }

  lemma {:induction false} StartMono(total: nat, n: nat, i: nat, j: nat)
    requires n > 0 && i <= j
    ensures Start(total, n, i) <= Start(total, n, j)
    decreases j - i
  {
    if i < j {
      StartStep(total, n, i);
      StartMono(total, n, i + 1, j);
    }
  }

  /** Any two targets differ by at most one. */
  lemma TargetsBalanced(total: nat, n: nat, i: nat, j: nat)
    requires n > 0
    ensures Target(total, n, i) <= Target(total, n, j) + 1
  {
  }

  /** The sum of the first `m` targets. */
  function SumTargets(total: nat, n: nat, m: nat): nat
    requires n > 0
  {
    if m == 0 then 0 else SumTargets(total, n, m - 1) + Target(total, n, m - 1)
  }

  /** The first `m` targets add up to `Start(m)`. */
  lemma {:induction false} TargetsSumPrefix(total: nat, n: nat, m: nat)
    requires n > 0
    ensures SumTargets(total, n, m) == Start(total, n, m)
  {
    if m > 0 {
      TargetsSumPrefix(total, n, m - 1);
      StartStep(total, n, m - 1);
    }
  }

  /** The targets of all APIs add up to the number of active accounts. */
  lemma TargetsSum(total: nat, n: nat)
    requires n > 0
    ensures SumTargets(total, n, n) == total
  {
    TargetsSumPrefix(total, n, n);
  }

  /** The API that receives the account at position `k` of the active list, searching from `i`. */
  function SlotFrom(total: nat, n: nat, k: nat, i: nat): (r: nat)
    requires n > 0 && k < total && i <= n && Start(total, n, i) <= k
    ensures i <= r < n && Start(total, n, r) <= k < Start(total, n, r + 1)
    decreases n - i
  {
    StartEnd(total, n);
    if k < Start(total, n, i + 1) then i else SlotFrom(total, n, k, i + 1)
  }

  function Slot(total: nat, n: nat, k: nat): (r: nat)
    requires n > 0 && k < total
    ensures r < n && Start(total, n, r) <= k < Start(total, n, r + 1)
  {
    SlotFrom(total, n, k, 0)
  }

  /** An account inside API `i`'s run is given to API `i`. */
  lemma SlotOf(total: nat, n: nat, k: nat, i: nat)
    requires n > 0 && k < total && i < n && Start(total, n, i) <= k < Start(total, n, i + 1)
    ensures Slot(total, n, k) == i
  {
    var s := Slot(total, n, k);
    if s < i {
      StartMono(total, n, s + 1, i);
    } else if s > i {
      StartMono(total, n, i + 1, s);
    }
  }

  /** An account before API `i`'s run is given to an earlier API. */
  lemma SlotBefore(total: nat, n: nat, k: nat, i: nat)
    requires n > 0 && k < total && k < Start(total, n, i)
    ensures Slot(total, n, k) < i
  {
    var s := Slot(total, n, k);
    if s >= i {
      StartMono(total, n, i, s);
    }
  }

  // ---------------------------------------------------------------- bindings

  /** Some API of the list has this `app_id`. */
  predicate HasApp(apis: seq<D.Api>, appId: String)
  {
    exists t :: 0 <= t < |apis| && apis[t].appId == appId
  }

  /** What the clearing passes leave of a binding that is not re-assigned: a binding to a listed API is cleared. */
  function Cleared(v: Option<String>, apis: seq<D.Api>): Option<String>
  {
    if v.Some? && HasApp(apis, v.value) then None else v
  }

  lemma ClearedStep(v: Option<String>, apis: seq<D.Api>, i: nat)
    requires i < |apis|
    ensures Cleared(v, apis[..i + 1])
      == if Cleared(v, apis[..i]) == Some(apis[i].appId) then None else Cleared(v, apis[..i])
  {
    if v.Some? {
      if HasApp(apis[..i], v.value) {
        var t :| 0 <= t < i && apis[..i][t].appId == v.value;
        assert apis[..i + 1][t] == apis[t];
      } else if v.value != apis[i].appId {
        var pre := apis[..i + 1];
        forall t | 0 <= t < |pre|
          ensures pre[t].appId != v.value
        {
          if t < i {
            assert pre[t] == apis[..i][t];
          }
        }
      } else {
        assert apis[..i + 1][i] == apis[i];
      }
    }
  }

  /** The API bound to the phone through the join of `get_account_api`. */
  function AccountApi(apis: seq<D.Api>, rows: seq<D.Account>, phone: String): Option<D.Api>
  {
    match D.AccountByPhone(rows, phone)
    case None => None
    case Some(a) => if a.apiId.None? then None else D.ApiByAppId(apis, a.apiId.value)
  }

  /**
   * The state `rebalance_apis` leaves, relative to the one it started from:
   * API `i` (in id order) holds exactly the active accounts whose position in
   * the id-ordered active list falls in its run of `Target` accounts; every
   * other account bound to a listed API is unbound; `current_accounts` is
   * the number of accounts bound; nothing else changes.
   */
  predicate Rebalanced(apis0: seq<D.Api>, rows0: seq<D.Account>, apis1: seq<D.Api>, rows1: seq<D.Account>)
    requires |apis0| > 0
  {
    var n := |apis0|;
    var ap := D.ActivePositions(rows0);
    var total := |ap|;
    |apis1| == n
    && (forall i :: 0 <= i < n ==> apis1[i] == apis0[i].(current := D.CountBound(rows1, apis0[i].appId)))
    && |rows1| == |rows0|
    && (forall p :: 0 <= p < |rows0| ==> rows1[p] == rows0[p].(apiId := rows1[p].apiId))
    && (forall k :: 0 <= k < total ==> rows1[ap[k]].apiId == Some(apis0[Slot(total, n, k)].appId))
    && (forall p :: 0 <= p < |rows0| && rows0[p].status != "active" ==> rows1[p].apiId == Cleared(rows0[p].apiId, apis0))
  }

  /** A table whose ids and phones are those of a valid table is valid. */
  lemma SameKeysValid(rows0: seq<D.Account>, rows1: seq<D.Account>, nextId: int)
    requires D.AccountsValid(rows0, nextId) && |rows1| == |rows0|
    requires forall p :: 0 <= p < |rows0| ==> rows1[p].id == rows0[p].id && rows1[p].phone == rows0[p].phone
    ensures D.AccountsValid(rows1, nextId)
  {
  }

  lemma SameApiKeysValid(apis0: seq<D.Api>, apis1: seq<D.Api>, nextId: int)
    requires D.ApisValid(apis0, nextId) && |apis1| == |apis0|
    requires forall p :: 0 <= p < |apis0| ==> apis1[p].id == apis0[p].id && apis1[p].appId == apis0[p].appId
    ensures D.ApisValid(apis1, nextId)
  {
  }

  /** The API table differs from `apis0` at most in `current_accounts`. */
  predicate SameApis(apis0: seq<D.Api>, apis: seq<D.Api>)
  {
    |apis| == |apis0| && forall x :: 0 <= x < |apis0| ==> apis[x] == apis0[x].(current := apis[x].current)
  }

  /** Moving an API's `current_accounts` keeps the table the same apart from the counts. */
  lemma SameApisAdd(apis0: seq<D.Api>, apis: seq<D.Api>, appId: String, delta: int)
    requires SameApis(apis0, apis)
    ensures SameApis(apis0, D.AddToCurrent(apis, appId, delta))
  {
  }

  /** The account table differs from `rows0` at most in the bindings. */
  predicate SameRows(rows0: seq<D.Account>, rows: seq<D.Account>)
  {
    |rows| == |rows0| && forall p :: 0 <= p < |rows0| ==> rows[p] == rows0[p].(apiId := rows[p].apiId)
  }

  /**
   * Where the rebalance stands after the clearing pass of the first `m`
   * APIs, with `idx` active accounts handed out: those are bound to their
   * slot's API, and every other binding is cleared if it named one of the
   * first `m` APIs and untouched otherwise.
   */
  predicate Progress(rows0: seq<D.Account>, rows: seq<D.Account>, apis: seq<D.Api>, idx: nat, m: nat)
    requires 0 < |apis| && m <= |apis|
  {
    var ap := D.ActivePositions(rows0);
    var total := |ap|;
    SameRows(rows0, rows) && idx <= total
    && (forall k :: 0 <= k < idx ==> rows[ap[k]].apiId == Some(apis[Slot(total, |apis|, k)].appId))
    && (forall k :: idx <= k < total ==> rows[ap[k]].apiId == Cleared(rows0[ap[k]].apiId, apis[..m]))
    && (forall p :: 0 <= p < |rows0| && rows0[p].status != "active" ==> rows[p].apiId == Cleared(rows0[p].apiId, apis[..m]))
  }

  lemma ProgressStart(rows0: seq<D.Account>, apis: seq<D.Api>)
    requires 0 < |apis|
    ensures Progress(rows0, rows0, apis, 0, 0)
  {
    var ap := D.ActivePositions(rows0);
    forall p | 0 <= p < |rows0|
      ensures rows0[p].apiId == Cleared(rows0[p].apiId, apis[..0])
    {
      assert !(rows0[p].apiId.Some? && HasApp(apis[..0], rows0[p].apiId.value));
    }
  }

  /** The clearing pass of API `i` moves the bookkeeping from the first `i` APIs to the first `i + 1`. */
  lemma ClearProgress(rows0: seq<D.Account>, rows: seq<D.Account>, apis: seq<D.Api>, nextId: int, i: nat)
    requires D.ApisValid(apis, nextId) && i < |apis|
    requires Progress(rows0, rows, apis, Start(|D.ActivePositions(rows0)|, |apis|, i), i)
    ensures Progress(rows0, D.ClearBindings(rows, apis[i].appId), apis, Start(|D.ActivePositions(rows0)|, |apis|, i), i + 1)
  {
    var ap := D.ActivePositions(rows0);
    var total := |ap|;
    var idx := Start(total, |apis|, i);
    var after := D.ClearBindings(rows, apis[i].appId);
    forall k | 0 <= k < idx
      ensures after[ap[k]].apiId == Some(apis[Slot(total, |apis|, k)].appId)
    {
      SlotBefore(total, |apis|, k, i);
    }
    forall p | 0 <= p < |rows0|
      ensures Cleared(rows0[p].apiId, apis[..i + 1])
        == if Cleared(rows0[p].apiId, apis[..i]) == Some(apis[i].appId) then None else Cleared(rows0[p].apiId, apis[..i])
    {
      ClearedStep(rows0[p].apiId, apis, i);
    }
  }

  /** Assigning active account number `idx` to API `i`, inside API `i`'s run, hands out one more account. */
  lemma AssignProgress(rows0: seq<D.Account>, rows: seq<D.Account>, apis: seq<D.Api>, nextId: int, i: nat, idx: nat)
    requires D.AccountsValid(rows0, nextId) && i < |apis|
    requires idx < |D.ActivePositions(rows0)|
    requires Start(|D.ActivePositions(rows0)|, |apis|, i) <= idx < Start(|D.ActivePositions(rows0)|, |apis|, i + 1)
    requires Progress(rows0, rows, apis, idx, i + 1)
    ensures Progress(rows0, D.WithApiId(rows, D.ActiveAccounts(rows0)[idx].phone, Some(apis[i].appId)), apis, idx + 1, i + 1)
  {
    var ap := D.ActivePositions(rows0);
    var total := |ap|;
    SlotOf(total, |apis|, idx, i);
    var phone := rows0[ap[idx]].phone;
    assert D.ActiveAccounts(rows0)[idx].phone == phone;
    UniquePhone(rows0, nextId, ap[idx]);
    assert forall p :: 0 <= p < |rows0| ==> rows[p].phone == rows0[p].phone;
  }

  lemma UniquePhone(rows: seq<D.Account>, nextId: int, q: nat)
    requires D.AccountsValid(rows, nextId) && q < |rows|
    ensures forall p :: 0 <= p < |rows| && rows[p].phone == rows[q].phone ==> p == q
  {
  }

  /** Once every API has been through both passes and been recounted, the state is the rebalanced one. */
  lemma ProgressDone(apis0: seq<D.Api>, rows0: seq<D.Account>, apis1: seq<D.Api>, rows1: seq<D.Account>)
    requires 0 < |apis0|
    requires Progress(rows0, rows1, apis0, |D.ActivePositions(rows0)|, |apis0|)
    requires |apis1| == |apis0|
    requires forall x :: 0 <= x < |apis0| ==> apis1[x] == apis0[x].(current := D.CountBound(rows1, apis0[x].appId))
    ensures Rebalanced(apis0, rows0, apis1, rows1)
  {
    assert apis0[..|apis0|] == apis0;
  }

  // ---------------------------------------------------------------- pool deletion

  /** `api_pool` without the rows of `appId`: `DELETE FROM api_pool WHERE app_id = ?`. */
  function WithoutApp(apis: seq<D.Api>, appId: String): (r: seq<D.Api>)
    ensures forall a :: a in r <==> a in apis && a.appId != appId
  {
    if |apis| == 0 then []
    else (if apis[0].appId == appId then [] else [apis[0]]) + WithoutApp(apis[1..], appId)
  }

  lemma ApiConsValid(x: D.Api, d: seq<D.Api>, nextId: int)
    requires D.ApisValid(d, nextId) && x.id < nextId
    requires forall a :: a in d ==> x.id < a.id && x.appId != a.appId
    ensures D.ApisValid([x] + d, nextId)
  {
    var r := [x] + d;
    forall i, j | 0 <= i < j < |r|
      ensures r[i].id < r[j].id && r[i].appId != r[j].appId
    {
      assert r[j] == d[j - 1];
      if i > 0 {
        assert r[i] == d[i - 1];
      } else {
        assert d[j - 1] in d;
      }
    }
  }

  lemma {:induction false} WithoutAppValid(apis: seq<D.Api>, appId: String, nextId: int)
    requires D.ApisValid(apis, nextId)
    ensures D.ApisValid(WithoutApp(apis, appId), nextId)
  {
    if |apis| > 0 {
      var tail := apis[1..];
      assert D.ApisValid(tail, nextId) by {
        assert forall i :: 0 <= i < |tail| ==> tail[i] == apis[i + 1];
      }
      WithoutAppValid(tail, appId, nextId);
      var d := WithoutApp(tail, appId);
      if apis[0].appId != appId {
        forall a | a in d
          ensures apis[0].id < a.id && apis[0].appId != a.appId
        {
          var i :| 0 <= i < |tail| && tail[i] == a;
          assert a == apis[i + 1];
        }
        ApiConsValid(apis[0], d, nextId);
      }
    }
  }

  /** A phone list joined with commas is non-empty when its first phone is. */
  lemma JoinNonEmpty(parts: seq<String>)
    requires |parts| > 0 && parts[0] != ""
    ensures Join(parts, ",") != ""
  {
    if |parts| > 1 {
      assert |Join(parts, ",")| >= |parts[0]|;
    }
  }

  // ---------------------------------------------------------------- statistics

  /** The figures of `get_statistics`, with `usage_rate` before its rounding to two decimals. */
  datatype PoolStats = PoolStats(totalApis: nat, totalCapacity: int, totalUsed: int, available: int, usageRate: real)

  function SumMax(apis: seq<D.Api>): int
  {
    if |apis| == 0 then 0 else apis[0].maxAccounts + SumMax(apis[1..])
  }

  function SumCurrent(apis: seq<D.Api>): int
  {
    if |apis| == 0 then 0 else apis[0].current + SumCurrent(apis[1..])
  }

  /** The free places of every API, `max_accounts - current_accounts`, added up. */
  function SumHeadroom(apis: seq<D.Api>): int
  {
    if |apis| == 0 then 0 else (apis[0].maxAccounts - apis[0].current) + SumHeadroom(apis[1..])
  }

  function Statistics(apis: seq<D.Api>): (s: PoolStats)
    ensures s.totalApis == |apis| && s.totalCapacity == SumMax(apis) && s.totalUsed == SumCurrent(apis)
    ensures s.available == s.totalCapacity - s.totalUsed
    ensures s.totalCapacity <= 0 ==> s.usageRate == 0.0
    ensures s.totalCapacity > 0 ==> s.usageRate * s.totalCapacity as real == s.totalUsed as real * 100.0
  {
    var cap := SumMax(apis);
    var used := SumCurrent(apis);
    PoolStats(|apis|, cap, used, cap - used, if cap > 0 then used as real / cap as real * 100.0 else 0.0)
  }

  /** `available` is the sum of the free places of the APIs. */
  lemma {:induction false} AvailableIsHeadroom(apis: seq<D.Api>)
    ensures Statistics(apis).available == SumHeadroom(apis)
  {
    if |apis| > 0 {
      AvailableIsHeadroom(apis[1..]);
    }
  }

  /** An assignment to a listed API raises the pool's total use by exactly one. */
  lemma {:induction false} SumAddToCurrent(apis: seq<D.Api>, nextId: int, appId: String, delta: int)
    requires D.ApisValid(apis, nextId)
    ensures SumCurrent(D.AddToCurrent(apis, appId, delta)) == SumCurrent(apis) + (if HasApp(apis, appId) then delta else 0)
  {
    if |apis| > 0 {
      var tail := apis[1..];
      TailValid(apis, nextId);
      SumAddToCurrent(tail, nextId, appId, delta);
      AddToCurrentTail(apis, appId, delta);
      HasAppCons(apis, nextId, appId);
    }
  }

  lemma TailValid(apis: seq<D.Api>, nextId: int)
    requires D.ApisValid(apis, nextId) && |apis| > 0
    ensures D.ApisValid(apis[1..], nextId)
  {
    assert forall i :: 0 <= i < |apis[1..]| ==> apis[1..][i] == apis[i + 1];
  }

  lemma AddToCurrentTail(apis: seq<D.Api>, appId: String, delta: int)
    requires |apis| > 0
    ensures D.AddToCurrent(apis, appId, delta)[1..] == D.AddToCurrent(apis[1..], appId, delta)
  {
  }

  /** With unique `app_id`s, the head matching excludes the tail, and otherwise the tail decides. */
  lemma HasAppCons(apis: seq<D.Api>, nextId: int, appId: String)
    requires D.ApisValid(apis, nextId) && |apis| > 0
    ensures HasApp(apis, appId) <==> apis[0].appId == appId || HasApp(apis[1..], appId)
    ensures apis[0].appId == appId ==> !HasApp(apis[1..], appId)
  {
    var tail := apis[1..];
    if HasApp(tail, appId) {
      var t :| 0 <= t < |tail| && tail[t].appId == appId;
      assert apis[t + 1].appId == appId;
    }
    if HasApp(apis, appId) && apis[0].appId != appId {
      var t :| 0 <= t < |apis| && apis[t].appId == appId;
      assert tail[t - 1].appId == appId;
    }
  }

  /** A valid `app_id` is a non-empty digit string and a valid hash has exactly 32 characters. */
  predicate ValidCredentials(appId: String, appHash: String)
  {
    IsDigits(appId) && |appHash| == 32
  }

  class ApiPoolManager {
    const db: D.Database

    constructor (db: D.Database)
      ensures this.db == db
    {
      this.db := db;
    }

    /** `add_api`: malformed credentials are refused before the INSERT, which refuses a duplicate `app_id`. */
    method AddApi(appId: String, appHash: String, maxAccounts: int) returns (ok: bool)
      requires db.Valid()
      modifies db
      ensures db.Valid() && db.OnlyPoolChanged() && db.accounts == old(db.accounts)
      ensures ok <==> ValidCredentials(appId, appHash) && D.ApiByAppId(old(db.apis), appId).None?
      ensures ok ==> (db.apis == old(db.apis) + [D.Api(old(db.nextApiId), appId, appHash, maxAccounts, 0, "active")]
        && db.nextApiId == old(db.nextApiId) + 1)
      ensures !ok ==> db.apis == old(db.apis) && db.nextApiId == old(db.nextApiId)
      ensures db.nextAccountId == old(db.nextAccountId)
    {
      if !IsDigits(appId) {
        return false;
      }
      if |appHash| == 0 || |appHash| != 32 {
        return false;
      }
      ok := db.AddApi(appId, appHash, maxAccounts);
    }

    /**
     * `remove_api`: refused while the `GROUP_CONCAT` of the phones bound to
     * the API is non-empty; otherwise the rows with the `app_id` are deleted
     * and the result is true, also for an unknown `app_id`.
     */
    method RemoveApi(appId: String) returns (ok: bool)
      requires db.Valid()
      modifies db
      ensures db.Valid() && db.OnlyPoolChanged() && db.accounts == old(db.accounts)
      ensures ok <==> D.ApiByAppId(old(db.apis), appId).None? || Join(D.BoundPhones(old(db.accounts), appId), ",") == ""
      ensures ok ==> db.apis == WithoutApp(old(db.apis), appId)
      ensures !ok ==> db.apis == old(db.apis)
      ensures db.nextApiId == old(db.nextApiId) && db.nextAccountId == old(db.nextAccountId)
    {
      if D.ApiByAppId(db.apis, appId).Some? && Join(D.BoundPhones(db.accounts, appId), ",") != "" {
        return false;
      }
      WithoutAppValid(db.apis, appId, db.nextApiId);
      db.apis := WithoutApp(db.apis, appId);
      ok := true;
    }

    /**
     * `assign_api_to_account`: a phone already bound to a listed API gets
     * that API back and nothing changes; otherwise the available API, if
     * any, is assigned and returned as it was read.
     */
    method AssignApiToAccount(phone: String) returns (r: Option<D.Api>)
      requires db.Valid()
      modifies db
      ensures db.Valid() && db.OnlyPoolChanged()
      ensures var existing := AccountApi(old(db.apis), old(db.accounts), phone);
        existing.Some? ==> r == existing && db.apis == old(db.apis) && db.accounts == old(db.accounts)
      ensures var existing := AccountApi(old(db.apis), old(db.accounts), phone);
        existing.None? ==> r == D.AvailableApi(old(db.apis))
      ensures r.None? ==> db.apis == old(db.apis) && db.accounts == old(db.accounts)
      ensures AccountApi(old(db.apis), old(db.accounts), phone).None? && r.Some? ==>
        (db.apis == D.AddToCurrent(old(db.apis), r.value.appId, 1)
        && db.accounts == D.WithApiId(old(db.accounts), phone, Some(r.value.appId)))
      ensures db.nextApiId == old(db.nextApiId) && db.nextAccountId == old(db.nextAccountId)
    {
      var existing := AccountApi(db.apis, db.accounts, phone);
      if existing.Some? {
        return existing;
      }
      var api := db.GetAvailableApi();
      if api.None? {
        return None;
      }
      var _ := db.AssignApiToAccount(api.value.appId, phone);
      r := api;
    }

    /** `release_api_from_account`: the database's release. */
    method ReleaseApiFromAccount(phone: String) returns (ok: bool)
      requires db.Valid()
      modifies db
      ensures db.Valid() && db.OnlyPoolChanged() && ok
      ensures db.nextApiId == old(db.nextApiId) && db.nextAccountId == old(db.nextAccountId)
      ensures var row := D.AccountByPhone(old(db.accounts), phone);
        if row.Some? && row.value.apiId.Some? && row.value.apiId.value != "" then
          db.apis == D.AddToCurrent(old(db.apis), row.value.apiId.value, -1) && db.accounts == D.WithApiId(old(db.accounts), phone, None)
        else db.apis == old(db.apis) && db.accounts == old(db.accounts)
    {
      ok := db.ReleaseApiFromAccount(phone);
    }

    /**
     * `rebalance_apis`: with no API, false and no change; otherwise, API by
     * API in id order, its bindings are cleared and the next `Target`
     * active accounts are assigned to it, and then every API's
     * `current_accounts` is recounted. `max_accounts` is never consulted.
     */
    method RebalanceApis() returns (ok: bool)
      requires db.Valid()
      modifies db
      ensures db.Valid() && db.OnlyPoolChanged()
      ensures db.nextApiId == old(db.nextApiId) && db.nextAccountId == old(db.nextAccountId)
      ensures ok <==> |old(db.apis)| > 0
      ensures !ok ==> db.apis == old(db.apis) && db.accounts == old(db.accounts)
      ensures ok ==> Rebalanced(old(db.apis), old(db.accounts), db.apis, db.accounts)
    {
      var apis := db.apis;
      var accounts := db.GetListenerAccounts();
      if |apis| == 0 {
        return false;
      }
      ghost var rows0 := db.accounts;
      ClearAndAssign(apis, accounts);
      Recount(apis);
      ProgressDone(apis, rows0, db.apis, db.accounts);
      ok := true;
    }

    /** The loop of `rebalance_apis` over the APIs: each one's bindings cleared, then its run of accounts assigned. */
    method ClearAndAssign(apis: seq<D.Api>, accounts: seq<D.Account>)
      requires db.Valid() && 0 < |apis| && apis == db.apis && accounts == D.ActiveAccounts(db.accounts)
      modifies db
      ensures db.Valid() && db.OnlyPoolChanged()
      ensures db.nextApiId == old(db.nextApiId) && db.nextAccountId == old(db.nextAccountId)
      ensures SameApis(apis, db.apis)
      ensures Progress(old(db.accounts), db.accounts, apis, |accounts|, |apis|)
    {
      ghost var rows0 := db.accounts;
      var n := |apis|;
      var total := |accounts|;
      StartEnd(total, n);
      ProgressStart(rows0, apis);
      var accountIndex := 0;
      var i := 0;
      while i < n
        invariant 0 <= i <= n && accountIndex == Start(total, n, i)
        invariant db.Valid()
        invariant db.sources == old(db.sources) && db.targets == old(db.targets) && db.nextSourceId == old(db.nextSourceId)
        invariant db.nextTargetId == old(db.nextTargetId) && db.history == old(db.history) && db.stats == old(db.stats)
        invariant db.nextApiId == old(db.nextApiId) && db.nextAccountId == old(db.nextAccountId)
        invariant D.ApisValid(apis, db.nextApiId) && D.AccountsValid(rows0, db.nextAccountId)
        invariant SameApis(apis, db.apis)
        invariant Progress(rows0, db.accounts, apis, accountIndex, i)
      {
        accountIndex := ApiStep(i, Target(total, n, i), apis, accounts, rows0, accountIndex);
        i := i + 1;
      }
    }

    /** One round of the loop: API `i`'s bindings cleared, then `target` accounts assigned to it. */
    method ApiStep(i: nat, target: nat, apis: seq<D.Api>, accounts: seq<D.Account>,
                   ghost rows0: seq<D.Account>, start: nat) returns (accountIndex: nat)
      requires db.Valid() && i < |apis| && D.ApisValid(apis, db.nextApiId) && D.AccountsValid(rows0, db.nextAccountId)
      requires accounts == D.ActiveAccounts(rows0) && SameApis(apis, db.apis)
      requires target == Target(|accounts|, |apis|, i)
      requires start == Start(|accounts|, |apis|, i)
      requires Progress(rows0, db.accounts, apis, start, i)
      modifies db
      ensures accountIndex == Start(|accounts|, |apis|, i + 1)
      ensures db.Valid() && db.OnlyPoolChanged()
      ensures db.nextApiId == old(db.nextApiId) && db.nextAccountId == old(db.nextAccountId)
      ensures SameApis(apis, db.apis)
      ensures Progress(rows0, db.accounts, apis, accountIndex, i + 1)
    {
      StartStep(|accounts|, |apis|, i);
      StartMono(|accounts|, |apis|, i + 1, |apis|);
      StartEnd(|accounts|, |apis|);
      ClearPass(i, apis, rows0);
      accountIndex := AssignRun(i, target, apis, accounts, rows0, start);
    }

    /** The first step for API `i`: `UPDATE accounts SET api_id = NULL WHERE api_id = ?`. */
    method ClearPass(i: nat, apis: seq<D.Api>, ghost rows0: seq<D.Account>)
      requires db.Valid() && i < |apis| && D.ApisValid(apis, db.nextApiId) && D.AccountsValid(rows0, db.nextAccountId)
      requires Progress(rows0, db.accounts, apis, Start(|D.ActivePositions(rows0)|, |apis|, i), i)
      modifies db
      ensures db.Valid() && db.OnlyPoolChanged() && db.apis == old(db.apis)
      ensures db.nextApiId == old(db.nextApiId) && db.nextAccountId == old(db.nextAccountId)
      ensures db.accounts == D.ClearBindings(old(db.accounts), apis[i].appId)
      ensures Progress(rows0, db.accounts, apis, Start(|D.ActivePositions(rows0)|, |apis|, i), i + 1)
    {
      ClearProgress(rows0, db.accounts, apis, db.nextApiId, i);
      SameKeysValid(rows0, D.ClearBindings(db.accounts, apis[i].appId), db.nextAccountId);
      db.accounts := D.ClearBindings(db.accounts, apis[i].appId);
    }

    /** The inner loop of `rebalance_apis`: the next `target` active accounts are assigned to API `i`. */
    method AssignRun(i: nat, target: nat, apis: seq<D.Api>, accounts: seq<D.Account>,
                     ghost rows0: seq<D.Account>, start: nat) returns (accountIndex: nat)
      requires db.Valid() && 0 < |apis| && i < |apis| && D.AccountsValid(rows0, db.nextAccountId)
      requires accounts == D.ActiveAccounts(rows0)
      requires start == Start(|accounts|, |apis|, i) && start + target == Start(|accounts|, |apis|, i + 1) <= |accounts|
      requires Progress(rows0, db.accounts, apis, start, i + 1)
      modifies db
      ensures accountIndex == start + target
      ensures db.Valid() && db.OnlyPoolChanged()
      ensures db.nextApiId == old(db.nextApiId) && db.nextAccountId == old(db.nextAccountId)
      ensures SameApis(old(db.apis), db.apis)
      ensures Progress(rows0, db.accounts, apis, accountIndex, i + 1)
    {
      accountIndex := start;
      var j := 0;
      while j < target
        invariant 0 <= j <= target && accountIndex == start + j
        invariant db.Valid()
        invariant db.sources == old(db.sources) && db.targets == old(db.targets) && db.nextSourceId == old(db.nextSourceId)
        invariant db.nextTargetId == old(db.nextTargetId) && db.history == old(db.history) && db.stats == old(db.stats)
        invariant db.nextApiId == old(db.nextApiId) && db.nextAccountId == old(db.nextAccountId)
        invariant SameApis(old(db.apis), db.apis)
        invariant Progress(rows0, db.accounts, apis, accountIndex, i + 1)
      {
        if accountIndex < |accounts| {
          AssignProgress(rows0, db.accounts, apis, db.nextAccountId, i, accountIndex);
          SameApisAdd(old(db.apis), db.apis, apis[i].appId, 1);
          var _ := db.AssignApiToAccount(apis[i].appId, accounts[accountIndex].phone);
          accountIndex := accountIndex + 1;
        }
        j := j + 1;
      }
    }

    /** The final pass of `rebalance_apis`: every API's `current_accounts` becomes the number bound to it. */
    method Recount(apis: seq<D.Api>)
      requires db.Valid() && D.ApisValid(apis, db.nextApiId) && SameApis(apis, db.apis)
      modifies db
      ensures db.Valid() && db.OnlyPoolChanged() && db.accounts == old(db.accounts)
      ensures db.nextApiId == old(db.nextApiId) && db.nextAccountId == old(db.nextAccountId)
      ensures |db.apis| == |apis|
      ensures forall x :: 0 <= x < |apis| ==> db.apis[x] == apis[x].(current := D.CountBound(db.accounts, apis[x].appId))
    {
      var i := 0;
      while i < |apis|
        invariant 0 <= i <= |apis|
        invariant db.Valid()
        invariant db.sources == old(db.sources) && db.targets == old(db.targets) && db.nextSourceId == old(db.nextSourceId)
        invariant db.nextTargetId == old(db.nextTargetId) && db.history == old(db.history) && db.stats == old(db.stats)
        invariant db.accounts == old(db.accounts)
        invariant db.nextApiId == old(db.nextApiId) && db.nextAccountId == old(db.nextAccountId)
        invariant |db.apis| == |apis|
        invariant forall x :: 0 <= x < i ==> db.apis[x] == apis[x].(current := D.CountBound(db.accounts, apis[x].appId))
        invariant forall x :: i <= x < |apis| ==> db.apis[x] == apis[x].(current := db.apis[x].current)
      {
        var count := D.CountBound(db.accounts, apis[i].appId);
        SameApiKeysValid(db.apis, D.SetCurrent(db.apis, apis[i].appId, count), db.nextApiId);
        db.apis := D.SetCurrent(db.apis, apis[i].appId, count);
        i := i + 1;
      }
    }
  }

  // ---------------------------------------------------------------- properties

  /** Assignment is idempotent: once bound, the phone's API is found, so a second call returns it and changes nothing. */
  lemma AssignIdempotent(apis: seq<D.Api>, rows: seq<D.Account>, nextId: int, phone: String, appId: String)
    requires D.AccountsValid(rows, nextId) && D.AccountByPhone(rows, phone).Some? && D.ApiByAppId(apis, appId).Some?
    ensures var after := AccountApi(D.AddToCurrent(apis, appId, 1), D.WithApiId(rows, phone, Some(appId)), phone);
      after.Some? && after.value.appId == appId
  {
    D.BindingFound(apis, rows, nextId, phone, appId);
    var a := D.ApiByAppId(apis, appId).value;
    var t :| 0 <= t < |apis| && apis[t] == a;
    assert D.AddToCurrent(apis, appId, 1)[t].appId == appId;
  }

  /** Removal is refused while a non-empty phone is bound to the API. */
  lemma RemoveRefusedWhileBound(apis: seq<D.Api>, rows: seq<D.Account>, appId: String, p: nat)
    requires D.ApiByAppId(apis, appId).Some? && p < |rows| && rows[p].apiId == Some(appId)
    requires forall i :: 0 <= i < |rows| ==> rows[i].phone != ""
    ensures Join(D.BoundPhones(rows, appId), ",") != ""
  {
    var b := D.BoundPhones(rows, appId);
    assert rows[p].phone in b;
    assert b[0] in b;
    var q :| 0 <= q < |rows| && rows[q].phone == b[0] && rows[q].apiId == Some(appId);
    JoinNonEmpty(b);
  }

  /** After a removal the `app_id` is no longer in the pool. */
  lemma RemovedIsGone(apis: seq<D.Api>, appId: String)
    ensures D.ApiByAppId(WithoutApp(apis, appId), appId).None?
  {
    var r := WithoutApp(apis, appId);
    forall i | 0 <= i < |r|
      ensures r[i].appId != appId
    {
      assert r[i] in r;
    }
  }
}
