// The listening accounts of core/account_manager.py: the rotation decision,
// the round-robin choice among the active clients, error counting with
// suspension, reconnection, the account list and its statistics, and the
// code-then-password login sessions. The Telegram client objects are not
// modelled: a client is known by its phone, and what the network answers
// (authorized or not, a sign-in outcome) is a parameter.
module AccountManager {
  import opened Wrappers
  import opened PyStr
  import D = Database
  import AP = ApiPool

  /** `min_time` of the smart strategy: ten minutes, in seconds. */
  const SmartMinimum: real := 600.0
  /** The chance with which the smart strategy rotates inside its window. */
  const SmartChance: real := 0.1
  /** The error count at which a client is suspended. */
  const SuspendAt: int := 5

  // ---------------------------------------------------------------- rotation decision

  /**
   * `_should_rotate`, given the seconds since the last rotation, the
   * `time_per_rotation` setting (in minutes) and the draw of
   * `random.random()`.
   */
  function ShouldRotate(strategy: String, elapsed: real, minutes: int, draw: real): (r: bool)
    ensures strategy == "message" ==> r
    ensures strategy == "time" ==> (r <==> elapsed > (minutes * 60) as real)
    ensures strategy == "smart" && r ==> elapsed >= SmartMinimum
    ensures strategy == "smart" && elapsed >= SmartMinimum && elapsed > (minutes * 60) as real ==> r
    ensures strategy == "smart" && SmartMinimum <= elapsed <= (minutes * 60) as real ==> (r <==> draw < SmartChance)
    ensures strategy != "message" && strategy != "time" && strategy != "smart" ==> !r
  {
    if strategy == "message" then true
    else if strategy == "time" then elapsed > (minutes * 60) as real
    else if strategy == "smart" then
      if elapsed < SmartMinimum then false
      else if elapsed > (minutes * 60) as real then true
      else draw < SmartChance
    else false
  }

  /** Waiting longer never turns a decision to rotate into one not to, for the same draw. */
  lemma RotationMonotone(strategy: String, e1: real, e2: real, minutes: int, draw: real)
    requires e1 <= e2 && ShouldRotate(strategy, e1, minutes, draw)
    ensures ShouldRotate(strategy, e2, minutes, draw)
  {
  }

  /** Past ten minutes and with a draw of at least 0.1, the smart strategy decides as the time strategy. */
  lemma SmartAsTime(elapsed: real, minutes: int, draw: real)
    requires elapsed >= SmartMinimum && draw >= SmartChance
    ensures ShouldRotate("smart", elapsed, minutes, draw) == ShouldRotate("time", elapsed, minutes, draw)
  {
  }

  // ---------------------------------------------------------------- live status

  /** The entry of `client_status` for one phone. */
  datatype ClientStatus = ClientStatus(status: String, userId: int, username: Option<String>,
                                       lastActive: real, errorCount: int, apiId: String)

  /** `client_status.get(phone, {}).get('status') == 'active'`. */
  predicate IsActive(status: map<String, ClientStatus>, phone: String)
  {
    phone in status && status[phone].status == "active"
  }

  /** The phones of `clients`, in insertion order, whose live status is active. */
  function ActivePhones(clients: seq<String>, status: map<String, ClientStatus>): (r: seq<String>)
    ensures |r| <= |clients|
    ensures forall p :: p in r <==> p in clients && IsActive(status, p)
    ensures forall p :: multiset(r)[p] == if IsActive(status, p) then multiset(clients)[p] else 0
  {
    if |clients| == 0 then []
    else
      var front := ActivePhones(clients[..|clients| - 1], status);
      var last := clients[|clients| - 1];
      assert clients == clients[..|clients| - 1] + [last];
      if IsActive(status, last) then front + [last] else front
  }

  /** Selecting the active phones distributes over concatenation, so they keep the order the clients were added in. */
  lemma {:induction false} ActivePhonesAppend(a: seq<String>, b: seq<String>, status: map<String, ClientStatus>)
    ensures ActivePhones(a + b, status) == ActivePhones(a, status) + ActivePhones(b, status)
    decreases |b|
  {
    if |b| == 0 {
      assert a + b == a;
    } else {
      var front, x := b[..|b| - 1], b[|b| - 1];
      var last := if IsActive(status, x) then [x] else [];
      assert b == front + [x];
      assert a + b == (a + front) + [x];
      calc {
        ActivePhones(a + b, status);
        ActivePhones((a + front) + [x], status);
        { ActivePhonesSnoc(a + front, x, status); }
        ActivePhones(a + front, status) + last;
        { ActivePhonesAppend(a, front, status); }
        (ActivePhones(a, status) + ActivePhones(front, status)) + last;
        ActivePhones(a, status) + (ActivePhones(front, status) + last);
        { ActivePhonesSnoc(front, x, status); }
        ActivePhones(a, status) + ActivePhones(front + [x], status);
        ActivePhones(a, status) + ActivePhones(b, status);
      }
    }
  }

  /** One more client at the end of the list. */
  lemma ActivePhonesSnoc(s: seq<String>, x: String, status: map<String, ClientStatus>)
    ensures ActivePhones(s + [x], status) == ActivePhones(s, status) + (if IsActive(status, x) then [x] else [])
  {
    assert (s + [x])[..|s|] == s;
  }

  /** One `_handle_client_error` on a known phone: one more error, suspended from the fifth on. */
  function ErrorStep(s: ClientStatus): (r: ClientStatus)
    ensures r.errorCount == s.errorCount + 1
    ensures r.errorCount >= SuspendAt ==> r.status == "suspended"
    ensures r.errorCount < SuspendAt ==> r.status == s.status
    ensures r == s.(errorCount := r.errorCount, status := r.status)
  {
    var n := s.errorCount + 1;
    s.(errorCount := n, status := if n >= SuspendAt then "suspended" else s.status)
  }

  /** The status after `k` errors in a row. */
  function AfterErrors(s: ClientStatus, k: nat): ClientStatus
  {
    if k == 0 then s else ErrorStep(AfterErrors(s, k - 1))
  }

  /**
   * `k` errors raise the count by exactly `k`, and once the count has reached
   * five the client is suspended, whatever its status was.
   */
  lemma {:induction false} ErrorsSuspend(s: ClientStatus, k: nat)
    ensures AfterErrors(s, k).errorCount == s.errorCount + k
    ensures k > 0 && s.errorCount + k >= SuspendAt ==> AfterErrors(s, k).status == "suspended"
    ensures s.errorCount + k < SuspendAt ==> AfterErrors(s, k).status == s.status
  {
    if k > 0 {
      ErrorsSuspend(s, k - 1);
    }
  }

  /** A freshly reconnected client (count 0) is suspended by its fifth error and not before. */
  lemma FiveErrorsSuspend(s: ClientStatus)
    requires s.errorCount == 0 && s.status == "active"
    ensures AfterErrors(s, 4).status == "active"
    ensures AfterErrors(s, 5).status == "suspended"
  {
    ErrorsSuspend(s, 4);
    ErrorsSuspend(s, 5);
  }

  /** `client_status` after `_handle_client_error(phone)`: an unknown phone is left alone. */
  function WithError(status: map<String, ClientStatus>, phone: String): (r: map<String, ClientStatus>)
    ensures phone !in status ==> r == status
    ensures phone in status ==> r == status[phone := ErrorStep(status[phone])]
  {
    if phone in status then status[phone := ErrorStep(status[phone])] else status
  }

  // ---------------------------------------------------------------- account list and statistics

  /**
   * A database row as `get_account_list` reports it: a phone with live
   * status takes that status, user, username, error count and API; any other
   * is reported offline with no errors.
   */
  function WithLiveStatus(row: D.Account, status: map<String, ClientStatus>): (r: D.Account)
    ensures r.id == row.id && r.phone == row.phone
    ensures row.phone in status ==> r.status == status[row.phone].status && r.errorCount == status[row.phone].errorCount
    ensures row.phone !in status ==> r == row.(status := "offline", errorCount := 0)
  {
    if row.phone in status then
      var s := status[row.phone];
      row.(status := s.status, userId := Some(s.userId), username := s.username,
           errorCount := s.errorCount, apiId := Some(s.apiId))
    else row.(status := "offline", errorCount := 0)
  }

  /** `get_account_list` over the rows `get_listener_accounts` returns. */
  function AccountList(rows: seq<D.Account>, status: map<String, ClientStatus>): (r: seq<D.Account>)
    ensures |r| == |rows|
    ensures forall i :: 0 <= i < |rows| ==> r[i] == WithLiveStatus(rows[i], status)
  {
    seq(|rows|, i requires 0 <= i < |rows| => WithLiveStatus(rows[i], status))
  }

  /** The number of rows with the given status. */
  function CountStatus(rows: seq<D.Account>, s: String): (n: nat)
    ensures n <= |rows|
  {
    if |rows| == 0 then 0
    else CountStatus(rows[..|rows| - 1], s) + (if rows[|rows| - 1].status == s then 1 else 0)
  }

  /** The count is zero exactly when no row has the status, and the whole total exactly when every row has it. */
  lemma {:induction false} CountStatusExtremes(rows: seq<D.Account>, s: String)
    ensures CountStatus(rows, s) == 0 <==> forall i :: 0 <= i < |rows| ==> rows[i].status != s
    ensures CountStatus(rows, s) == |rows| <==> forall i :: 0 <= i < |rows| ==> rows[i].status == s
  {
    if |rows| > 0 {
      var front := rows[..|rows| - 1];
      CountStatusExtremes(front, s);
      assert forall i :: 0 <= i < |front| ==> front[i] == rows[i];
    }
  }

  /** No row is both active and in error, so the two counts never exceed the total. */
  lemma {:induction false} ActiveAndErrorBound(rows: seq<D.Account>)
    ensures CountStatus(rows, "active") + CountStatus(rows, "error") <= |rows|
  {
    if |rows| > 0 {
      ActiveAndErrorBound(rows[..|rows| - 1]);
    }
  }

  /** What `get_statistics` returns besides the account list; `usageRate` before rounding. */
  datatype AccountStats = AccountStats(total: nat, active: nat, error: nat, offline: nat, usageRate: real)

  function Statistics(accounts: seq<D.Account>): (s: AccountStats)
    ensures s.total == |accounts| && s.active == CountStatus(accounts, "active") && s.error == CountStatus(accounts, "error")
    ensures s.offline == s.total - s.active - s.error
    ensures s.total == 0 ==> s.usageRate == 0.0
    ensures s.total > 0 ==> s.usageRate * s.total as real == s.active as real * 100.0 && 0.0 <= s.usageRate <= 100.0
  {
    ActiveAndErrorBound(accounts);
    RateBounds(CountStatus(accounts, "active"), |accounts|);
    var total := |accounts|;
    var active := CountStatus(accounts, "active");
    var error := CountStatus(accounts, "error");
    AccountStats(total, active, error, total - active - error,
                 if total > 0 then active as real / total as real * 100.0 else 0.0)
  }

  /** The usage rate `active / total * 100` is a percentage of the total. */
  lemma RateBounds(active: nat, total: nat)
    requires active <= total
    ensures total > 0 ==> var rate := active as real / total as real * 100.0;
      rate * total as real == active as real * 100.0 && 0.0 <= rate <= 100.0
  {
    if total == 0 {
      return;
    }
    var q := active as real / total as real;
    assert q * total as real == active as real;
    assert q <= 1.0 by {
      if q > 1.0 {
        assert q * total as real > 1.0 * total as real;
      }
    }
  }

  // ---------------------------------------------------------------- login sessions

  /** An entry of `login_sessions`; the temporary client is known by the phone. */
  datatype LoginSession = LoginSession(phoneCodeHash: String, appId: String, step: String, timestamp: real)

  /** The `status` field of the login replies. */
  datatype Reply = Success | TwoFactorRequired | Error

  /**
   * What `sign_in` does: it succeeds as the given user, asks for the
   * two-step password (`SessionPasswordNeededError`), or raises anything
   * else (a wrong code or password included).
   */
  datatype SignIn = SignedIn(userId: int, username: Option<String>) | PasswordNeeded | Refused

  /** How `_reconnect_client`'s `connect` and `is_user_authorized` end. */
  datatype Reconnect = Authorized | Unauthorized | ConnectFailed

  class AccountManager {
    /** The keys of `clients`, in insertion order. */
    var clients: seq<String>
    var clientStatus: map<String, ClientStatus>
    var currentClientIndex: nat
    var lastRotationTime: real
    var loginSessions: map<String, LoginSession>
    const db: D.Database
    const pool: AP.ApiPoolManager

    /** Every client has a live status entry, `clients` has no repeated key, and the store is valid. */
    predicate Valid()
      reads this, db
    {
      db.Valid() && pool.db == db
      && (forall i, j :: 0 <= i < j < |clients| ==> clients[i] != clients[j])
      && forall p :: p in clients ==> p in clientStatus
    }

    constructor (db: D.Database, pool: AP.ApiPoolManager, now: real)
      requires db.Valid() && pool.db == db
      ensures Valid() && this.db == db && this.pool == pool
      ensures clients == [] && clientStatus == map[] && loginSessions == map[]
      ensures currentClientIndex == 0 && lastRotationTime == now
    {
      this.db := db;
      this.pool := pool;
      clients := [];
      clientStatus := map[];
      currentClientIndex := 0;
      lastRotationTime := now;
      loginSessions := map[];
    }

    /** `_rotate_client`: the index moves on by one modulo the number of all clients, active or not. */
    method RotateClient(now: real)
      modifies this
      ensures clients == old(clients) && clientStatus == old(clientStatus) && loginSessions == old(loginSessions)
      ensures |clients| > 0 ==> currentClientIndex == (old(currentClientIndex) + 1) % |clients| && lastRotationTime == now
      ensures |clients| == 0 ==> currentClientIndex == old(currentClientIndex) && lastRotationTime == old(lastRotationTime)
      ensures |clients| > 0 ==> currentClientIndex < |clients|
    {
      if |clients| > 0 {
        currentClientIndex := (currentClientIndex + 1) % |clients|;
        lastRotationTime := now;
      }
    }

    /**
     * `get_current_client`: `None` without an active client (and then no
     * rotation); otherwise, after rotating when the strategy says so, the
     * active client at the index modulo the number of active clients. The
     * active list is taken before the rotation.
     */
    method GetCurrentClient(now: real, strategy: String, minutes: int, draw: real) returns (r: Option<String>)
      modifies this
      ensures clients == old(clients) && clientStatus == old(clientStatus) && loginSessions == old(loginSessions)
      ensures var active := ActivePhones(old(clients), old(clientStatus));
        (r.None? <==> |active| == 0)
        && (r.Some? ==> r.value == active[currentClientIndex % |active|] && r.value in clients && IsActive(clientStatus, r.value))
      ensures var active := ActivePhones(old(clients), old(clientStatus));
        if |active| > 0 && ShouldRotate(strategy, now - old(lastRotationTime), minutes, draw)
        then currentClientIndex == (old(currentClientIndex) + 1) % |clients| && lastRotationTime == now
        else currentClientIndex == old(currentClientIndex) && lastRotationTime == old(lastRotationTime)
    {
      if |clients| == 0 {
        return None;
      }
      var active := ActivePhones(clients, clientStatus);
      if |active| == 0 {
        return None;
      }
      if ShouldRotate(strategy, now - lastRotationTime, minutes, draw) {
        RotateClient(now);
      }
      r := Some(active[currentClientIndex % |active|]);
    }

    /**
     * `_handle_client_error`: a phone with live status gets one more error,
     * its database row is marked `error` with that count, and from the
     * fifth error on its live status is `suspended`. An unknown phone
     * changes nothing.
     */
    method HandleClientError(phone: String)
      requires Valid()
      modifies this, db
      ensures Valid() && db.OnlyPoolChanged() && db.apis == old(db.apis)
      ensures db.nextApiId == old(db.nextApiId) && db.nextAccountId == old(db.nextAccountId)
      ensures clients == old(clients) && loginSessions == old(loginSessions)
      ensures currentClientIndex == old(currentClientIndex) && lastRotationTime == old(lastRotationTime)
      ensures clientStatus == WithError(old(clientStatus), phone)
      ensures phone in old(clientStatus) ==>
        db.accounts == D.WithStatus(old(db.accounts), phone, "error", Some(old(clientStatus)[phone].errorCount + 1))
      ensures phone !in old(clientStatus) ==> db.accounts == old(db.accounts)
    {
      if phone in clientStatus {
        var s := ErrorStep(clientStatus[phone]);
        var _ := db.UpdateAccountStatus(phone, "error", Some(s.errorCount));
        clientStatus := clientStatus[phone := s];
      }
    }

    /**
     * `_reconnect_client`: with the client reconnected, an authorized
     * account becomes active with no errors and an unauthorized one
     * `unauthorized`; a phone without a client, or a failed connection, is
     * handled as a client error.
     */
    method ReconnectClient(phone: String, outcome: Reconnect)
      requires Valid()
      modifies this, db
      ensures Valid() && db.OnlyPoolChanged() && db.apis == old(db.apis)
      ensures db.nextApiId == old(db.nextApiId) && db.nextAccountId == old(db.nextAccountId)
      ensures clients == old(clients) && loginSessions == old(loginSessions)
      ensures currentClientIndex == old(currentClientIndex) && lastRotationTime == old(lastRotationTime)
      ensures phone !in old(clients) || outcome == ConnectFailed ==> clientStatus == WithError(old(clientStatus), phone)
      ensures (phone !in old(clients) || outcome == ConnectFailed) && phone in old(clientStatus) ==>
        db.accounts == D.WithStatus(old(db.accounts), phone, "error", Some(old(clientStatus)[phone].errorCount + 1))
      ensures (phone !in old(clients) || outcome == ConnectFailed) && phone !in old(clientStatus) ==>
        db.accounts == old(db.accounts)
      ensures phone in old(clients) && outcome == Authorized ==>
        clientStatus == old(clientStatus)[phone := old(clientStatus)[phone].(status := "active", errorCount := 0)]
        && db.accounts == old(db.accounts)
      ensures phone in old(clients) && outcome == Unauthorized ==>
        clientStatus == old(clientStatus)[phone := old(clientStatus)[phone].(status := "unauthorized")]
        && db.accounts == old(db.accounts)
    {
      if phone !in clients || outcome == ConnectFailed {
        HandleClientError(phone);
        return;
      }
      var s := clientStatus[phone];
      if outcome == Authorized {
        clientStatus := clientStatus[phone := s.(status := "active", errorCount := 0)];
      } else {
        clientStatus := clientStatus[phone := s.(status := "unauthorized")];
      }
    }

    /** `get_account_list`: the active database rows with their live status. */
    function GetAccountList(): seq<D.Account>
      reads this, db
    {
      AccountList(db.GetListenerAccounts(), clientStatus)
    }

    function GetStatistics(): AccountStats
      reads this, db
    {
      Statistics(GetAccountList())
    }

    /**
     * `start_login`: an API is assigned to the phone (its existing one, or
     * the pool's next available); without one the reply is an error. Then
     * the code is requested: `sent` is the `phone_code_hash`, or `None` when
     * creating the client, connecting or requesting the code raises, in
     * which case the API stays assigned. On success a session at step
     * `code` replaces any earlier one for the phone.
     */
    method StartLogin(phone: String, sent: Option<String>, now: real) returns (r: Reply)
      requires Valid()
      modifies this, db
      ensures Valid() && db.OnlyPoolChanged()
      ensures clients == old(clients) && clientStatus == old(clientStatus)
      ensures currentClientIndex == old(currentClientIndex) && lastRotationTime == old(lastRotationTime)
      ensures var existing := AP.AccountApi(old(db.apis), old(db.accounts), phone);
        var api := if existing.Some? then existing else D.AvailableApi(old(db.apis));
        (r == Success <==> api.Some? && sent.Some?)
        && (r == Success ==> loginSessions == old(loginSessions)[phone := LoginSession(sent.value, api.value.appId, "code", now)])
        && (r != Success ==> r == Error && loginSessions == old(loginSessions))
      ensures var existing := AP.AccountApi(old(db.apis), old(db.accounts), phone);
        var api := if existing.Some? then existing else D.AvailableApi(old(db.apis));
        (existing.Some? || api.None? ==> db.apis == old(db.apis) && db.accounts == old(db.accounts))
        && (existing.None? && api.Some? ==>
              db.apis == D.AddToCurrent(old(db.apis), api.value.appId, 1)
              && db.accounts == D.WithApiId(old(db.accounts), phone, Some(api.value.appId)))
    {
      var api := pool.AssignApiToAccount(phone);
      if api.None? {
        return Error;
      }
      if sent.None? {
        return Error;
      }
      loginSessions := loginSessions[phone := LoginSession(sent.value, api.value.appId, "code", now)];
      r := Success;
    }

    /**
     * The shared ending of a successful sign-in: the account row is
     * (re)inserted, the client is registered as active with no errors on
     * the session's API, and the session is deleted.
     */
    method CompleteLogin(phone: String, userId: int, username: Option<String>, now: real)
      requires Valid() && phone in loginSessions
      modifies this, db
      ensures Valid() && db.OnlyPoolChanged() && db.apis == old(db.apis)
      ensures SignedInState(phone, userId, username, now)
      ensures currentClientIndex == old(currentClientIndex) && lastRotationTime == old(lastRotationTime)
    {
      var session := loginSessions[phone];
      var _ := db.AddListenerAccount(phone, Some(userId), username);
      if phone !in clients {
        clients := clients + [phone];
      }
      clientStatus := clientStatus[phone := ClientStatus("active", userId, username, now, 0, session.appId)];
      loginSessions := loginSessions - {phone};
    }

    /**
     * `submit_code`: without a session, an error and no change. A sign-in
     * completes the login; a request for the password moves the session to
     * step `2fa`; anything else is an error and changes nothing. The
     * session's step is not checked.
     */
    method SubmitCode(phone: String, outcome: SignIn, now: real) returns (r: Reply)
      requires Valid()
      modifies this, db
      ensures Valid() && db.OnlyPoolChanged() && db.apis == old(db.apis)
      ensures currentClientIndex == old(currentClientIndex) && lastRotationTime == old(lastRotationTime)
      ensures phone !in old(loginSessions) ==> r == Error && Unchanged()
      ensures phone in old(loginSessions) && outcome.SignedIn? ==>
        r == Success && SignedInState(phone, outcome.userId, outcome.username, now)
      ensures phone in old(loginSessions) && outcome == PasswordNeeded ==>
        r == TwoFactorRequired && loginSessions == old(loginSessions)[phone := old(loginSessions)[phone].(step := "2fa")]
        && clients == old(clients) && clientStatus == old(clientStatus) && db.accounts == old(db.accounts)
      ensures phone in old(loginSessions) && outcome == Refused ==> r == Error && Unchanged()
    {
      if phone !in loginSessions {
        return Error;
      }
      match outcome
      case SignedIn(userId, username) =>
        CompleteLogin(phone, userId, username, now);
        r := Success;
      case PasswordNeeded =>
        loginSessions := loginSessions[phone := loginSessions[phone].(step := "2fa")];
        r := TwoFactorRequired;
      case Refused =>
        r := Error;
    }

    /**
     * `submit_2fa_password`: without a session, an error and no change; a
     * sign-in completes the login; anything else is an error. The session's
     * step is not checked.
     */
    method Submit2faPassword(phone: String, outcome: SignIn, now: real) returns (r: Reply)
      requires Valid()
      modifies this, db
      ensures Valid() && db.OnlyPoolChanged() && db.apis == old(db.apis)
      ensures currentClientIndex == old(currentClientIndex) && lastRotationTime == old(lastRotationTime)
      ensures (phone in old(loginSessions) && outcome.SignedIn?) <==> r == Success
      ensures r == Success ==> SignedInState(phone, outcome.userId, outcome.username, now)
      ensures r != Success ==> r == Error && Unchanged()
    {
      if phone !in loginSessions || !outcome.SignedIn? {
        return Error;
      }
      CompleteLogin(phone, outcome.userId, outcome.username, now);
      r := Success;
    }

    /**
     * The state a successful sign-in leaves: the account row re-inserted
     * with a fresh id, the phone registered (keeping its place when it was
     * already a client) as active with no errors on the session's API, and
     * the session deleted; the other phones' sessions and statuses are kept.
     */
    twostate predicate SignedInState(phone: String, userId: int, username: Option<String>, now: real)
      reads this, db
    {
      phone in old(loginSessions)
      && db.accounts == D.DropPhone(old(db.accounts), phone)
           + [D.Account(old(db.nextAccountId), phone, Some(userId), username, None, "active", 0)]
      && clients == (if phone in old(clients) then old(clients) else old(clients) + [phone])
      && clientStatus == old(clientStatus)[phone := ClientStatus("active", userId, username, now, 0,
                                                                   old(loginSessions)[phone].appId)]
      && loginSessions == old(loginSessions) - {phone}
    }

    /** The manager's maps and the account table are as before. */
    twostate predicate Unchanged()
      reads this, db
    {
      clients == old(clients) && clientStatus == old(clientStatus) && loginSessions == old(loginSessions)
      && db.accounts == old(db.accounts)
    }
  }
}
