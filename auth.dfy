// The web login codes of web/auth.py: a code is generated for the browser,
// confirmed by an administrator through the bot, then exchanged once for a
// session.
module Auth {
  import opened Wrappers
  import opened PyStr

  /** How long a code stays valid, in seconds. */
  const CodeLifetime: real := 300.0
  /** The minimum spacing of two cleanups, in seconds. */
  const CleanupInterval: real := 60.0

  datatype LoginInfo = LoginInfo(userId: Option<int>, expiresAt: real, verified: bool, createdAt: real)

  /** What `get_user_by_code` hands back. */
  datatype Session = Session(userId: Option<int>, isAdmin: bool, loginTime: real)

  /** One entry of `get_pending_codes`. */
  datatype PendingInfo = PendingInfo(createdAt: real, expiresAt: real, remainingTime: int)

  /** A six-digit code as `random.choices(string.digits, k=6)` draws it. */
  predicate IsCode(s: String)
  {
    |s| == 6 && IsDigits(s)
  }

  /** The expiry test of the verify paths: strictly past `expires_at`. */
  predicate Expired(info: LoginInfo, now: real)
  {
    now > info.expiresAt
  }

  /** Awaiting the bot: unverified and strictly before `expires_at`. */
  predicate IsPending(info: LoginInfo, now: real)
  {
    !info.verified && now < info.expiresAt
  }

  /** At the very instant of expiry a code is neither pending nor expired. */
  lemma ExpiryInstant(info: LoginInfo)
    ensures !Expired(info, info.expiresAt) && !IsPending(info, info.expiresAt)
  {
  }

  /** The codes that survive a cleanup at `now`. */
  function Unexpired(codes: map<String, LoginInfo>, now: real): (r: map<String, LoginInfo>)
    ensures forall c :: c in r <==> c in codes && !Expired(codes[c], now)
    ensures forall c :: c in r ==> r[c] == codes[c]
  {
    map c | c in codes && !Expired(codes[c], now) :: codes[c]
  }

  /** `get_pending_codes`: the unverified, unexpired codes with their whole seconds left. */
  function PendingCodes(codes: map<String, LoginInfo>, now: real): (r: map<String, PendingInfo>)
    ensures forall c :: c in r <==> c in codes && IsPending(codes[c], now)
    ensures forall c :: c in r ==> (r[c].expiresAt == codes[c].expiresAt && r[c].remainingTime >= 0
      && r[c].remainingTime as real <= codes[c].expiresAt - now < r[c].remainingTime as real + 1.0)
  {
    map c | c in codes && IsPending(codes[c], now) ::
      PendingInfo(codes[c].createdAt, codes[c].expiresAt, (codes[c].expiresAt - now).Floor)
  }

  /** The number of verified codes, `get_active_sessions_count`. */
  function VerifiedCodes(codes: map<String, LoginInfo>): (r: set<String>)
    ensures forall c :: c in r <==> c in codes && codes[c].verified
  {
    set c | c in codes && codes[c].verified
  }

  /** The store a `_cleanup_expired_codes` call at `now` leaves, given the time of the last cleanup. */
  function Cleaned(codes: map<String, LoginInfo>, lastCleanup: real, now: real): (r: map<String, LoginInfo>)
    ensures now - lastCleanup < CleanupInterval ==> r == codes
    ensures now - lastCleanup >= CleanupInterval ==> forall c :: c in r <==> c in codes && !Expired(codes[c], now)
    ensures forall c :: c in r ==> c in codes && r[c] == codes[c]
  {
    if now - lastCleanup < CleanupInterval then codes else Unexpired(codes, now)
  }

  class AuthManager {
    var loginCodes: map<String, LoginInfo>
    var lastCleanup: real

    /** Every stored key is a six-digit code, and a verified code carries a user id. */
    predicate Valid()
      reads this
    {
      forall c :: c in loginCodes ==> (IsCode(c) && (loginCodes[c].verified ==> loginCodes[c].userId.Some?))
    }

    constructor (now: real)
      ensures Valid() && loginCodes == map[] && lastCleanup == now
    {
      loginCodes := map[];
      lastCleanup := now;
    }

    /** `_cleanup_expired_codes`: at most once a minute, drops exactly the expired codes. */
    method CleanupExpiredCodes(now: real)
      requires Valid()
      modifies this
      ensures Valid()
      ensures now - old(lastCleanup) < CleanupInterval ==> loginCodes == old(loginCodes) && lastCleanup == old(lastCleanup)
      ensures now - old(lastCleanup) >= CleanupInterval ==> loginCodes == Unexpired(old(loginCodes), now) && lastCleanup == now
    {
      if now - lastCleanup < CleanupInterval {
        return;
      }
      loginCodes := Unexpired(loginCodes, now);
      lastCleanup := now;
    }

    /**
     * `generate_login_code`: after a cleanup, the first of the random draws
     * not already stored becomes a new unverified code valid for 300 s.
     */
    method GenerateLoginCode(now: real, draws: seq<String>) returns (code: String)
      requires Valid()
      requires forall i :: 0 <= i < |draws| ==> IsCode(draws[i])
      requires exists i :: 0 <= i < |draws| && draws[i] !in loginCodes
      modifies this
      ensures Valid()
      ensures IsCode(code) && code in draws
      ensures code in old(loginCodes) ==> Expired(old(loginCodes)[code], now) && now - old(lastCleanup) >= CleanupInterval
      ensures code in loginCodes && loginCodes[code] == LoginInfo(None, now + CodeLifetime, false, now)
      ensures forall c :: c in loginCodes && c != code ==> c in old(loginCodes) && loginCodes[c] == old(loginCodes)[c]
      ensures now - old(lastCleanup) >= CleanupInterval ==> lastCleanup == now
      ensures now - old(lastCleanup) < CleanupInterval ==> lastCleanup == old(lastCleanup)
      ensures var kept := Cleaned(old(loginCodes), old(lastCleanup), now);
        loginCodes == kept[code := LoginInfo(None, now + CodeLifetime, false, now)]
        && exists i :: 0 <= i < |draws| && draws[i] == code && draws[i] !in kept
                       && forall j :: 0 <= j < i ==> draws[j] in kept
    {
      ghost var k :| 0 <= k < |draws| && draws[k] !in loginCodes;
      CleanupExpiredCodes(now);
      ghost var kept := loginCodes;
      assert kept == Cleaned(old(loginCodes), old(lastCleanup), now);
      var i := 0;
      while draws[i] in loginCodes
        invariant 0 <= i <= k
        invariant draws[k] !in loginCodes
        invariant loginCodes == kept
        invariant forall j :: 0 <= j < i ==> draws[j] in kept
        decreases k - i
      {
        i := i + 1;
      }
      code := draws[i];
      loginCodes := loginCodes[code := LoginInfo(None, now + CodeLifetime, false, now)];
    }

    /**
     * `verify_login_code_from_bot`: an unknown code fails; an expired one is
     * deleted and fails; a non-administrator fails and changes nothing;
     * otherwise the code is marked verified for `userId`. `admins` is
     * `settings.admin_users` as read at this call.
     */
    method VerifyFromBot(code: String, userId: int, admins: seq<int>, now: real) returns (ok: bool)
      requires Valid()
      modifies this
      ensures Valid() && lastCleanup == old(lastCleanup)
      ensures ok <==> code in old(loginCodes) && !Expired(old(loginCodes)[code], now) && userId in admins
      ensures code in old(loginCodes) && Expired(old(loginCodes)[code], now) ==> loginCodes == old(loginCodes) - {code}
      ensures ok ==> loginCodes == old(loginCodes)[code := old(loginCodes)[code].(userId := Some(userId), verified := true)]
      ensures !ok && !(code in old(loginCodes) && Expired(old(loginCodes)[code], now)) ==> loginCodes == old(loginCodes)
    {
      if code !in loginCodes {
        return false;
      }
      var info := loginCodes[code];
      if Expired(info, now) {
        loginCodes := loginCodes - {code};
        return false;
      }
      if userId !in admins {
        return false;
      }
      loginCodes := loginCodes[code := info.(userId := Some(userId), verified := true)];
      ok := true;
    }

    /**
     * `verify_login_code`: true exactly for a present, unexpired, verified
     * code with a truthy user id (so an id of 0 fails); an expired code is
     * deleted, and a code is never consumed here.
     */
    method VerifyLoginCode(code: String, now: real) returns (ok: bool)
      requires Valid()
      modifies this
      ensures Valid() && lastCleanup == old(lastCleanup)
      ensures ok <==> (code in old(loginCodes) && !Expired(old(loginCodes)[code], now)
        && old(loginCodes)[code].verified && old(loginCodes)[code].userId.Some?
        && old(loginCodes)[code].userId.value != 0)
      ensures if code in old(loginCodes) && Expired(old(loginCodes)[code], now)
        then loginCodes == old(loginCodes) - {code} else loginCodes == old(loginCodes)
    {
      if code !in loginCodes {
        return false;
      }
      var info := loginCodes[code];
      if Expired(info, now) {
        loginCodes := loginCodes - {code};
        return false;
      }
      ok := info.verified && info.userId.Some? && info.userId.value != 0;
    }

    /**
     * `get_user_by_code`: an unknown or unverified code gives `None`; a
     * verified one is consumed and its user returned, whether or not it has
     * expired. The user is an administrator when the id is in `admins`,
     * `settings.admin_users` as read at this call, which need not be the
     * list the code was verified against.
     */
    method GetUserByCode(code: String, admins: seq<int>, now: real) returns (r: Option<Session>)
      requires Valid()
      modifies this
      ensures Valid() && lastCleanup == old(lastCleanup)
      ensures r.Some? <==> code in old(loginCodes) && old(loginCodes)[code].verified
      ensures r.Some? ==> r.value.userId == old(loginCodes)[code].userId && r.value.userId.Some?
      ensures r.Some? ==> r.value == Session(old(loginCodes)[code].userId, old(loginCodes)[code].userId.value in admins, now)
      ensures r.Some? ==> loginCodes == old(loginCodes) - {code}
      ensures r.None? ==> loginCodes == old(loginCodes)
    {
      if code !in loginCodes || !loginCodes[code].verified {
        return None;
      }
      var userId := loginCodes[code].userId;
      loginCodes := loginCodes - {code};
      r := Some(Session(userId, userId.Some? && userId.value in admins, now));
    }

    function GetPendingCodes(now: real): map<String, PendingInfo>
      reads this
    {
      PendingCodes(loginCodes, now)
    }

    /** `revoke_all_codes`: empties the store and reports how many codes it held. */
    method RevokeAllCodes() returns (count: nat)
      requires Valid()
      modifies this
      ensures Valid() && loginCodes == map[] && count == |old(loginCodes)| && lastCleanup == old(lastCleanup)
    {
      count := |loginCodes|;
      loginCodes := map[];
    }

    function GetActiveSessionsCount(): nat
      reads this
    {
      |VerifiedCodes(loginCodes)|
    }

    predicate IsCodePending(code: String, now: real)
      reads this
    {
      code in loginCodes && IsPending(loginCodes[code], now)
    }

    /** `is_code_pending` agrees with the listing `get_pending_codes` gives the bot. */
    lemma PendingCodeListed(code: String, now: real)
      ensures IsCodePending(code, now) <==> code in GetPendingCodes(now)
      ensures IsCodePending(code, now) ==> GetPendingCodes(now)[code].expiresAt == loginCodes[code].expiresAt
    {
    }
  }
}
