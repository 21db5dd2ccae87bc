// The delivery dispatcher of core/sender.py: the send queue, the hourly cap
// with its reset, the wait between sends, the round-robin choice among the
// active bots and error counting with suspension. The bots are known by
// their tokens; what the Bot API answers is a parameter.
module Sender {
  import opened Wrappers
  import opened PyStr

  /** The length of the rolling cap window, in seconds. */
  const HourSeconds: real := 3600.0
  /** The error count at which a bot is suspended. */
  const SuspendAt: int := 5
  /** The seconds `_process_send_message` sleeps when the hourly cap is reached. */
  const LimitSleep: real := 60.0

  /** A queued job, as `send_message` and `send_media_group` build it; a media item is opaque. */
  datatype Job =
    | TextJob(chatId: int, content: String, parseMode: String)
    | MediaGroupJob(chatId: int, mediaList: seq<String>, caption: Option<String>)

  /** The entry of `bot_status` for one token. */
  datatype BotStatus = BotStatus(username: String, status: String, errorCount: int, lastUsed: real)

  /**
   * How `_send_with_bot` ends: success, `RetryAfter` (after sleeping the
   * given seconds), `Forbidden`, or any other error.
   */
  datatype SendResult = Sent | Retry(retryAfter: real) | Forbidden | SendError

  /** What `_process_send_message` did with a job. */
  datatype Outcome = LimitReached | NoBot | Delivered(bot: String) | Failed(bot: String)

  /** The seconds `_wait_send_interval` sleeps, for a drawn `interval`. */
  function WaitTime(elapsed: real, interval: real): (w: real)
    ensures w >= 0.0
    ensures elapsed + w >= interval
    ensures elapsed >= interval ==> w == 0.0
    ensures elapsed < interval ==> elapsed + w == interval
  {
    if elapsed < interval then interval - elapsed else 0.0
  }

  /** With the interval drawn between the configured bounds, a wait never exceeds the maximum. */
  lemma WaitBounded(elapsed: real, lo: real, hi: real, interval: real)
    requires elapsed >= 0.0 && 0.0 <= lo <= interval <= hi
    ensures WaitTime(elapsed, interval) <= hi
  {
    if elapsed < interval {
      assert WaitTime(elapsed, interval) == interval - elapsed;
    }
  }

  /** `bot_status.get(token, {}).get('status') == 'active'`. */
  predicate BotActive(status: map<String, BotStatus>, token: String)
  {
    token in status && status[token].status == "active"
  }

  /** The bots of the list, in order and with repeats, whose status is active. */
  function ActiveBots(bots: seq<String>, status: map<String, BotStatus>): (r: seq<String>)
    ensures |r| <= |bots|
    ensures forall t :: t in r <==> t in bots && BotActive(status, t)
    ensures forall t :: multiset(r)[t] == if BotActive(status, t) then multiset(bots)[t] else 0
  {
    if |bots| == 0 then []
    else
      var front := ActiveBots(bots[..|bots| - 1], status);
      var last := bots[|bots| - 1];
      assert bots == bots[..|bots| - 1] + [last];
      if BotActive(status, last) then front + [last] else front
  }

  /** Selecting the active bots distributes over concatenation, so they keep the order they were loaded in. */
  lemma {:induction false} ActiveBotsAppend(a: seq<String>, b: seq<String>, status: map<String, BotStatus>)
    ensures ActiveBots(a + b, status) == ActiveBots(a, status) + ActiveBots(b, status)
    decreases |b|
  {
    if |b| == 0 {
      assert a + b == a;
    } else {
      var front, x := b[..|b| - 1], b[|b| - 1];
      var last := if BotActive(status, x) then [x] else [];
      assert b == front + [x];
      assert a + b == (a + front) + [x];
      calc {
        ActiveBots(a + b, status);
        ActiveBots((a + front) + [x], status);
        { ActiveBotsSnoc(a + front, x, status); }
        ActiveBots(a + front, status) + last;
        { ActiveBotsAppend(a, front, status); }
        (ActiveBots(a, status) + ActiveBots(front, status)) + last;
        ActiveBots(a, status) + (ActiveBots(front, status) + last);
        { ActiveBotsSnoc(front, x, status); }
        ActiveBots(a, status) + ActiveBots(front + [x], status);
        ActiveBots(a, status) + ActiveBots(b, status);
      }
    }
  }

  /** One more bot at the end of the list. */
  lemma ActiveBotsSnoc(s: seq<String>, x: String, status: map<String, BotStatus>)
    ensures ActiveBots(s + [x], status) == ActiveBots(s, status) + (if BotActive(status, x) then [x] else [])
  {
    assert (s + [x])[..|s|] == s;
  }

  /** When every bot is active, the active list is the whole list. */
  lemma {:induction false} AllActive(bots: seq<String>, status: map<String, BotStatus>)
    requires forall t :: t in bots ==> BotActive(status, t)
    ensures ActiveBots(bots, status) == bots
  {
    if |bots| > 0 {
      var front, x := bots[..|bots| - 1], bots[|bots| - 1];
      assert bots == front + [x];
      assert forall t :: t in front ==> t in bots;
      AllActive(front, status);
      ActiveBotsSnoc(front, x, status);
    }
  }

  /** The index after `k` rotations from `i` over `n` bots. */
  function Rotated(i: nat, k: nat, n: nat): nat
    requires n > 0
  {
    if k == 0 then i else (Rotated(i, k - 1, n) + 1) % n
  }

  /** Euclidean remainder is determined by any quotient and remainder in range. */
  lemma ModUnique(x: int, n: int, q: int, r: int)
    requires n > 0 && 0 <= r < n && x == q * n + r
    ensures x % n == r
  {
    var q0 := x / n;
    var r0 := x % n;
    var d := q - q0;
    assert d * n == q * n - q0 * n;
    assert d * n == r0 - r;
  }

  /** Adding one after taking the remainder is adding one before. */
  lemma ModSucc(a: nat, n: nat)
    requires n > 0
    ensures (a % n + 1) % n == (a + 1) % n
  {
    var q := a / n;
    var m := a % n;
    if m + 1 < n {
      ModUnique(a + 1, n, q, m + 1);
      ModUnique(m + 1, n, 0, m + 1);
    } else {
      assert a + 1 == (q + 1) * n;
      ModUnique(a + 1, n, q + 1, 0);
      ModUnique(m + 1, n, 1, 0);
    }
  }

  /** `k` rotations from an index below `n` move it `k` places round the circle. */
  lemma {:induction false} RotatedIsShift(i: nat, k: nat, n: nat)
    requires n > 0 && i < n
    ensures Rotated(i, k, n) == (i + k) % n
  {
    if k == 0 {
      ModUnique(i, n, 0, i);
    } else {
      var a := i + k - 1;
      RotatedIsShift(i, k - 1, n);
      assert Rotated(i, k - 1, n) == a % n;
      ModSucc(a, n);
      assert a + 1 == i + k;
    }
  }

  /**
   * When every bot is active, the first `n` successful sends from index 0
   * use the `n` bots in list order: each of them gets a turn.
   */
  lemma RoundRobinVisitsAll(bots: seq<String>, status: map<String, BotStatus>, k: nat)
    requires forall t :: t in bots ==> BotActive(status, t)
    requires k < |bots|
    ensures ActiveBots(bots, status)[Rotated(0, k, |bots|) % |ActiveBots(bots, status)|] == bots[k]
  {
    AllActive(bots, status);
    RotatedIsShift(0, k, |bots|);
    ModUnique(k, |bots|, 0, k);
  }

  /** One `_handle_send_error` on a known token: one more error, suspended from the fifth on. */
  function ErrorStep(s: BotStatus): (r: BotStatus)
    ensures r.errorCount == s.errorCount + 1
    ensures r.errorCount >= SuspendAt ==> r.status == "suspended"
    ensures r.errorCount < SuspendAt ==> r.status == s.status
    ensures r.username == s.username && r.lastUsed == s.lastUsed
  {
    var n := s.errorCount + 1;
    s.(errorCount := n, status := if n >= SuspendAt then "suspended" else s.status)
  }

  /** The status after `k` failed sends in a row. */
  function AfterErrors(s: BotStatus, k: nat): BotStatus
  {
    if k == 0 then s else ErrorStep(AfterErrors(s, k - 1))
  }

  /**
   * Nothing but failures changes the count, and no success resets it: `k`
   * failures raise it by `k`, and once it reaches five the bot is suspended.
   */
  lemma {:induction false} FailuresSuspend(s: BotStatus, k: nat)
    ensures AfterErrors(s, k).errorCount == s.errorCount + k
    ensures k > 0 && s.errorCount + k >= SuspendAt ==> AfterErrors(s, k).status == "suspended"
    ensures s.errorCount + k < SuspendAt ==> AfterErrors(s, k).status == s.status
  {
    if k > 0 {
      FailuresSuspend(s, k - 1);
    }
  }

  /** What `get_send_statistics` returns besides the per-bot list. */
  datatype SendStats = SendStats(totalBots: nat, activeBots: nat, hourlyCount: nat, hourlyLimit: int, queueSize: nat)

  class MessageSender {
    /** The tokens of `bots`, in load order; `add_bot` appends even a token already present. */
    var bots: seq<String>
    var currentBotIndex: nat
    var botStatus: map<String, BotStatus>
    var sendQueue: seq<Job>
    var hourlyCount: nat
    var lastHourReset: real
    var lastSendTime: real
    /** `sender_bots.error_count` by token, for the rows of that table. */
    var storedErrors: map<String, int>

    constructor (now: real)
      ensures bots == [] && currentBotIndex == 0 && botStatus == map[] && sendQueue == []
      ensures hourlyCount == 0 && lastHourReset == now && lastSendTime == 0.0 && storedErrors == map[]
    {
      bots := [];
      currentBotIndex := 0;
      botStatus := map[];
      sendQueue := [];
      hourlyCount := 0;
      lastHourReset := now;
      lastSendTime := 0.0;
      storedErrors := map[];
    }

    /**
     * `add_bot`: `username` is what `get_me` returns, `None` when the token
     * is refused. A valid token replaces its table row (error count back to
     * 0), is appended to the bots and starts active.
     */
    method AddBot(token: String, username: Option<String>) returns (ok: bool)
      modifies this
      ensures ok <==> username.Some?
      ensures ok ==> (bots == old(bots) + [token] && botStatus == old(botStatus)[token := BotStatus(username.value, "active", 0, 0.0)]
        && storedErrors == old(storedErrors)[token := 0])
      ensures !ok ==> bots == old(bots) && botStatus == old(botStatus) && storedErrors == old(storedErrors)
      ensures sendQueue == old(sendQueue) && hourlyCount == old(hourlyCount) && currentBotIndex == old(currentBotIndex)
      ensures lastHourReset == old(lastHourReset) && lastSendTime == old(lastSendTime)
    {
      if username.None? {
        return false;
      }
      storedErrors := storedErrors[token := 0];
      bots := bots + [token];
      botStatus := botStatus[token := BotStatus(username.value, "active", 0, 0.0)];
      ok := true;
    }

    /** `send_message`: the text job joins the back of the queue; the reply is always "queued". */
    method SendMessage(chatId: int, content: String, parseMode: String)
      modifies this
      ensures sendQueue == old(sendQueue) + [TextJob(chatId, content, parseMode)]
      ensures bots == old(bots) && botStatus == old(botStatus) && hourlyCount == old(hourlyCount)
      ensures currentBotIndex == old(currentBotIndex) && storedErrors == old(storedErrors)
      ensures lastHourReset == old(lastHourReset) && lastSendTime == old(lastSendTime)
    {
      sendQueue := sendQueue + [TextJob(chatId, content, parseMode)];
    }

    /** `send_media_group`: the same for a media group. */
    method SendMediaGroup(chatId: int, mediaList: seq<String>, caption: Option<String>)
      modifies this
      ensures sendQueue == old(sendQueue) + [MediaGroupJob(chatId, mediaList, caption)]
      ensures bots == old(bots) && botStatus == old(botStatus) && hourlyCount == old(hourlyCount)
      ensures currentBotIndex == old(currentBotIndex) && storedErrors == old(storedErrors)
      ensures lastHourReset == old(lastHourReset) && lastSendTime == old(lastSendTime)
    {
      sendQueue := sendQueue + [MediaGroupJob(chatId, mediaList, caption)];
    }

    /** `_check_send_limits`. */
    predicate CanSend(hourlyLimit: int)
      reads this`hourlyCount
    {
      hourlyCount < hourlyLimit
    }

    /** `_get_current_bot`: the active bot at the index modulo the number of active bots. */
    function GetCurrentBot(): (r: Option<String>)
      reads this`bots, this`botStatus, this`currentBotIndex
      ensures r.None? <==> |ActiveBots(bots, botStatus)| == 0
      ensures r.Some? ==> r.value in bots && BotActive(botStatus, r.value)
      ensures r.Some? ==> r.value == ActiveBots(bots, botStatus)[currentBotIndex % |ActiveBots(bots, botStatus)|]
    {
      var available := ActiveBots(bots, botStatus);
      if |bots| == 0 || |available| == 0 then None
      else Some(available[currentBotIndex % |available|])
    }

    /** `_rotate_bot`: one step round all the bots, active or not. */
    method RotateBot()
      modifies this
      ensures |bots| > 0 ==> currentBotIndex == (old(currentBotIndex) + 1) % |bots|
      ensures |bots| == 0 ==> currentBotIndex == old(currentBotIndex)
      ensures bots == old(bots) && botStatus == old(botStatus) && sendQueue == old(sendQueue)
      ensures hourlyCount == old(hourlyCount) && storedErrors == old(storedErrors)
      ensures lastHourReset == old(lastHourReset) && lastSendTime == old(lastSendTime)
    {
      if |bots| > 0 {
        currentBotIndex := (currentBotIndex + 1) % |bots|;
      }
    }

    /**
     * `_handle_send_error`: a known token gets one more error, written to its
     * table row, and from the fifth on it is suspended; an unknown token
     * changes nothing.
     */
    method HandleSendError(token: String)
      modifies this
      ensures token in old(botStatus) ==> (botStatus == old(botStatus)[token := ErrorStep(old(botStatus)[token])]
        && storedErrors == (if token in old(storedErrors)
                            then old(storedErrors)[token := old(botStatus)[token].errorCount + 1]
                            else old(storedErrors)))
      ensures token !in old(botStatus) ==> botStatus == old(botStatus) && storedErrors == old(storedErrors)
      ensures bots == old(bots) && sendQueue == old(sendQueue) && hourlyCount == old(hourlyCount)
      ensures currentBotIndex == old(currentBotIndex)
      ensures lastHourReset == old(lastHourReset) && lastSendTime == old(lastSendTime)
    {
      if token in botStatus {
        var s := ErrorStep(botStatus[token]);
        if token in storedErrors {
          storedErrors := storedErrors[token := s.errorCount];
        }
        botStatus := botStatus[token := s];
      }
    }

    /**
     * What `_process_send_message` does to the counters, bots and statuses
     * when it ends with `o`. At the hourly cap the job is dropped and nothing
     * changes; without an active bot nothing changes either; a successful
     * send counts one more for the hour, stamps `doneAt` and rotates; any
     * other result, `Retry` and `Forbidden` included, is one more error for
     * the bot, written to its table row when it has one.
     */
    twostate predicate Processed(hourlyLimit: int, result: SendResult, doneAt: real, o: Outcome)
      reads this
    {
      bots == old(bots) && lastHourReset == old(lastHourReset)
      && (o == LimitReached <==> !old(CanSend(hourlyLimit)))
      && (o == LimitReached ==> Same())
      && (o == NoBot <==> old(CanSend(hourlyLimit)) && old(GetCurrentBot()).None?)
      && (o == NoBot ==> Same())
      && (o.Delivered? <==> old(CanSend(hourlyLimit)) && old(GetCurrentBot()).Some? && result == Sent)
      && (o.Delivered? ==>
            o.bot == old(GetCurrentBot()).value && hourlyCount == old(hourlyCount) + 1
            && lastSendTime == doneAt && currentBotIndex == (old(currentBotIndex) + 1) % |bots|
            && botStatus == old(botStatus) && storedErrors == old(storedErrors))
      && (o.Failed? ==>
            o.bot == old(GetCurrentBot()).value && result != Sent && hourlyCount == old(hourlyCount)
            && lastSendTime == old(lastSendTime) && currentBotIndex == old(currentBotIndex)
            && o.bot in old(botStatus)
            && botStatus == old(botStatus)[o.bot := ErrorStep(old(botStatus)[o.bot])]
            && storedErrors == (if o.bot in old(storedErrors)
                                then old(storedErrors)[o.bot := old(botStatus)[o.bot].errorCount + 1]
                                else old(storedErrors)))
    }

    /**
     * `_process_send_message` for one dequeued job: the state changes as
     * `Processed` says, and `wait` is what it sleeps: a minute at the cap,
     * otherwise the interval wait computed from the drawn `interval`.
     */
    method ProcessSendMessage(job: Job, hourlyLimit: int, now: real, interval: real, result: SendResult, doneAt: real)
      returns (o: Outcome, wait: real)
      modifies this
      ensures sendQueue == old(sendQueue)
      ensures Processed(hourlyLimit, result, doneAt, o)
      ensures !old(CanSend(hourlyLimit)) ==> wait == LimitSleep
      ensures old(CanSend(hourlyLimit)) ==> wait == WaitTime(now - old(lastSendTime), interval)
      ensures old(hourlyCount) <= hourlyLimit ==> hourlyCount <= hourlyLimit
    {
      if !CanSend(hourlyLimit) {
        return LimitReached, LimitSleep;
      }
      wait := WaitTime(now - lastSendTime, interval);
      var bot := GetCurrentBot();
      if bot.None? {
        return NoBot, wait;
      }
      o := SendWithBot(hourlyLimit, bot.value, result, doneAt);
    }

    /** The tail of `_process_send_message` once the cap allows a send and `bot` is the current bot. */
    method SendWithBot(hourlyLimit: int, bot: String, result: SendResult, doneAt: real) returns (o: Outcome)
      requires CanSend(hourlyLimit) && GetCurrentBot() == Some(bot)
      modifies this
      ensures sendQueue == old(sendQueue)
      ensures Processed(hourlyLimit, result, doneAt, o)
    {
      if result == Sent {
        o := RecordSuccess(hourlyLimit, bot, doneAt);
      } else {
        o := RecordFailure(hourlyLimit, bot, result);
      }
    }

    /** A successful send: one more for the hour, the time stamped, the rotation advanced. */
    method RecordSuccess(hourlyLimit: int, bot: String, doneAt: real) returns (o: Outcome)
      requires CanSend(hourlyLimit) && GetCurrentBot() == Some(bot)
      modifies this
      ensures sendQueue == old(sendQueue)
      ensures Processed(hourlyLimit, Sent, doneAt, o)
    {
      hourlyCount := hourlyCount + 1;
      lastSendTime := doneAt;
      RotateBot();
      o := Delivered(bot);
    }

    /** A failed send: one more error for the bot. */
    method RecordFailure(hourlyLimit: int, bot: String, result: SendResult) returns (o: Outcome)
      requires CanSend(hourlyLimit) && GetCurrentBot() == Some(bot) && result != Sent
      modifies this
      ensures sendQueue == old(sendQueue)
      ensures forall doneAt :: Processed(hourlyLimit, result, doneAt, o)
    {
      HandleSendError(bot);
      o := Failed(bot);
    }

    /**
     * One turn of `_send_processor`: with an empty queue (the one-second
     * `wait_for` timing out) nothing happens; otherwise the head job is
     * taken off the queue, never to be put back, and processed as
     * `ProcessSendMessage` processes it.
     */
    method SendProcessorStep(hourlyLimit: int, now: real, interval: real, result: SendResult, doneAt: real)
      returns (o: Option<Outcome>)
      modifies this
      ensures |old(sendQueue)| == 0 ==> o.None? && Same() && sendQueue == old(sendQueue)
      ensures |old(sendQueue)| > 0 ==>
                o.Some? && sendQueue == old(sendQueue)[1..] && Processed(hourlyLimit, result, doneAt, o.value)
      ensures old(hourlyCount) <= hourlyLimit ==> hourlyCount <= hourlyLimit
    {
      if |sendQueue| == 0 {
        return None;
      }
      var job := sendQueue[0];
      sendQueue := sendQueue[1..];
      var outcome, _ := ProcessSendMessage(job, hourlyLimit, now, interval, result, doneAt);
      o := Some(outcome);
    }

    /** One check of `_hourly_reset_task`: the count restarts once an hour has passed. */
    method HourlyReset(now: real)
      modifies this
      ensures now - old(lastHourReset) >= HourSeconds ==> hourlyCount == 0 && lastHourReset == now
      ensures now - old(lastHourReset) < HourSeconds ==> hourlyCount == old(hourlyCount) && lastHourReset == old(lastHourReset)
      ensures bots == old(bots) && botStatus == old(botStatus) && sendQueue == old(sendQueue)
      ensures currentBotIndex == old(currentBotIndex) && storedErrors == old(storedErrors) && lastSendTime == old(lastSendTime)
      ensures hourlyCount <= old(hourlyCount)
    {
      if now - lastHourReset >= HourSeconds {
        hourlyCount := 0;
        lastHourReset := now;
      }
    }

    /** `get_send_statistics`. */
    function GetSendStatistics(hourlyLimit: int): (s: SendStats)
      reads this
      ensures s.totalBots == |bots| && s.activeBots <= s.totalBots
      ensures s.activeBots == |ActiveBots(bots, botStatus)|
      ensures s.hourlyCount == hourlyCount && s.hourlyLimit == hourlyLimit && s.queueSize == |sendQueue|
    {
      SendStats(|bots|, |ActiveBots(bots, botStatus)|, hourlyCount, hourlyLimit, |sendQueue|)
    }

    /** The counters, bots and their statuses are as before. */
    twostate predicate Same()
      reads this
    {
      hourlyCount == old(hourlyCount) && lastSendTime == old(lastSendTime) && currentBotIndex == old(currentBotIndex)
      && botStatus == old(botStatus) && storedErrors == old(storedErrors) && bots == old(bots)
      && lastHourReset == old(lastHourReset)
    }
  }
}
