// The handler wrappers of bot/middleware.py: the administrator gate, the
// error trap and the per-user sliding-window rate limiter.
module Middleware {
  import opened Wrappers
  import opened PyStr

  const DeniedReply: String := "\U{274c} 权限不足\n只有管理员可以使用此功能"
  const ErrorReplyPrefix: String := "\U{274c} 处理命令时发生错误:\n"

  /** The leading run of non-whitespace characters. */
  function TakeWord(s: String): (r: String)
    ensures StartsWith(s, r) && forall i :: 0 <= i < |r| ==> !IsSpace(r[i])
    ensures |r| < |s| ==> IsSpace(s[|r|])
  {
    if |s| == 0 || IsSpace(s[0]) then "" else [s[0]] + TakeWord(s[1..])
  }

  /**
   * The command word `admin_required` logs: `text.split()[0]`, or `unknown`
   * for a message without text. A text made only of whitespace makes
   * `split()` empty and the indexing raise (`None`).
   */
  function CommandWord(text: Option<String>): (r: Option<String>)
    ensures r.Some? && text.Some? && text.value != "" ==> r.value != "" && Contains(text.value, r.value)
  {
    if text.None? || text.value == "" then Some("unknown")
    else
      var t := LStrip(text.value);
      if t == "" then None
      else
        var w := TakeWord(t);
        var pre := text.value[..|text.value| - |t|];
        assert pre + t == text.value;
        assert Contains(t, w);
        ContainsSuffix(pre, t, w);
        Some(w)
  }

  /** What `admin_required` does with an update. */
  datatype Gate =
    | Refused(reply: String)  // the reply is sent and the handler is not called
    | Proceed(command: String)  // the command is logged and the handler is called
    | Raised  // the `IndexError` of a whitespace-only text

  function AdminRequired(userId: int, admins: seq<int>, text: Option<String>): (g: Gate)
    ensures g.Proceed? ==> userId in admins
    ensures userId !in admins <==> g == Refused(DeniedReply)
  {
    if userId !in admins then Refused(DeniedReply)
    else match CommandWord(text)
      case Some(c) => Proceed(c)
      case None => Raised
  }

  /** An administrator's message with text is always let through, with its first word as the command. */
  lemma AdminWithCommandProceeds(userId: int, admins: seq<int>, cmd: String, args: String)
    requires userId in admins && cmd != "" && forall i :: 0 <= i < |cmd| ==> !IsSpace(cmd[i])
    ensures AdminRequired(userId, admins, Some(cmd + " " + args)) == Proceed(cmd)
  {
    var t := cmd + " " + args;
    assert t[0] == cmd[0];
    assert LStrip(t) == t;
    TakeWordOfWord(cmd, " " + args);
    assert t == cmd + (" " + args);
  }

  lemma {:induction false} TakeWordOfWord(w: String, rest: String)
    requires forall i :: 0 <= i < |w| ==> !IsSpace(w[i])
    requires |rest| > 0 && IsSpace(rest[0])
    ensures TakeWord(w + rest) == w
  {
    if |w| > 0 {
      assert (w + rest)[1..] == w[1..] + rest;
      TakeWordOfWord(w[1..], rest);
    } else {
      assert w + rest == rest;
    }
  }

  /** The outcome of running a wrapped handler. */
  datatype Outcome<T> = Returned(value: T) | Threw(error: String)

  /**
   * `error_handler`: a handler's exception is turned into a reply and the
   * wrapper returns `None`; a normal return passes through with no reply.
   */
  function ErrorHandler<T>(o: Outcome<T>): (r: (Option<T>, Option<String>))
    ensures o.Returned? ==> r.0 == Some(o.value) && r.1.None?
    ensures o.Threw? ==> r.0.None? && r.1 == Some(ErrorReplyPrefix + o.error)
  {
    match o
    case Returned(v) => (Some(v), None)
    case Threw(e) => (None, Some(ErrorReplyPrefix + e))
  }

  // ---------------------------------------------------------------- rate_limit

  /** The timestamps younger than the window, in their original order. */
  function Recent(ts: seq<real>, now: real, window: real): (r: seq<real>)
    ensures |r| <= |ts|
    ensures forall t :: t in r <==> t in ts && now - t < window
    ensures forall t :: multiset(r)[t] == if now - t < window then multiset(ts)[t] else 0
  {
    if |ts| == 0 then []
    else
      assert ts == [ts[0]] + ts[1..];
      (if now - ts[0] < window then [ts[0]] else []) + Recent(ts[1..], now, window)
  }

  /**
   * Pruning distributes over concatenation, so the kept timestamps stay in
   * the order they were recorded in.
   */
  lemma {:induction false} RecentAppend(a: seq<real>, b: seq<real>, now: real, window: real)
    ensures Recent(a + b, now, window) == Recent(a, now, window) + Recent(b, now, window)
  {
    if |a| > 0 {
      RecentAppend(a[1..], b, now, window);
      assert (a + b)[1..] == a[1..] + b;
    } else {
      assert a + b == b;
    }
  }

  /**
   * The state of one `rate_limit(max_calls, window)` decoration: each
   * decorated handler gets its own `call_times` dictionary.
   */
  class RateLimiter {
    var callTimes: map<int, seq<real>>
    const maxCalls: int
    const window: real

    /** No user's list is longer than `max_calls` (or than zero when `max_calls` is not positive). */
    predicate Valid()
      reads this
    {
      forall u :: u in callTimes ==> |callTimes[u]| <= (if maxCalls > 0 then maxCalls else 0)
    }

    constructor (maxCalls: int, window: real)
      ensures Valid() && callTimes == map[] && this.maxCalls == maxCalls && this.window == window
    {
      callTimes := map[];
      this.maxCalls := maxCalls;
      this.window := window;
    }

    /**
     * One call by `userId` at `now`: the user's timestamps at least `window`
     * old are dropped; the call is refused, and not recorded, when
     * `max_calls` remain, and otherwise recorded and let through.
     */
    method Call(userId: int, now: real) returns (allowed: bool)
      requires Valid()
      modifies this
      ensures Valid()
      ensures var kept := Recent(if userId in old(callTimes) then old(callTimes)[userId] else [], now, window);
        (allowed <==> |kept| < maxCalls)
        && callTimes == old(callTimes)[userId := if allowed then kept + [now] else kept]
    {
      var kept := if userId in callTimes then Recent(callTimes[userId], now, window) else [];
      callTimes := callTimes[userId := kept];
      if |kept| >= maxCalls {
        return false;
      }
      callTimes := callTimes[userId := kept + [now]];
      allowed := true;
    }
  }

  /** Every retained timestamp is younger than the window. */
  lemma RecentAreYoung(ts: seq<real>, now: real, window: real)
    ensures forall i :: 0 <= i < |Recent(ts, now, window)| ==> now - Recent(ts, now, window)[i] < window
  {
    var r := Recent(ts, now, window);
    forall i | 0 <= i < |r| ensures now - r[i] < window {
      assert r[i] in r;
    }
  }

  /** Pruning is idempotent at the same instant. */
  lemma {:induction false} RecentIdempotent(ts: seq<real>, now: real, window: real)
    ensures Recent(Recent(ts, now, window), now, window) == Recent(ts, now, window)
  {
    if |ts| > 0 {
      RecentIdempotent(ts[1..], now, window);
      if now - ts[0] < window {
        assert ([ts[0]] + Recent(ts[1..], now, window))[1..] == Recent(ts[1..], now, window);
      } else {
        assert Recent(ts, now, window) == Recent(ts[1..], now, window);
      }
    }
  }
}
