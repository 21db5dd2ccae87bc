// The argument checks of the configuration commands in bot/handlers/config.py
// and the settings writes they end in.
module ConfigHandlers {
  import opened Wrappers
  import opened PyStr
  import S = Settings

  const MinIntervalKey: String := "global_settings" + "." + "min_interval"
  const MaxIntervalKey: String := "global_settings" + "." + "max_interval"
  const HourlyLimitKey: String := "global_settings" + "." + "hourly_limit"
  const StrategyKey: String := "rotation" + "." + "strategy"

  const MaxHourlyLimit: int := 1000
  const Strategies: seq<String> := ["message", "time", "smart"]

  /** One `settings.set(key, value)` call. */
  datatype Write = Write(key: String, value: S.Value)

  /** How a command ends: the usage text, the `ValueError` reply, a refusal, or the writes made. */
  datatype Outcome =
    | Usage
    | NotNumber
    | Rejected(reason: String)
    | Updated(writes: seq<Write>)

  /** `set_interval min max`: both positive integers with `min <= max`. */
  function SetInterval(args: seq<String>): (o: Outcome)
    ensures o.Updated? <==> (|args| >= 2 && ParseInt(args[0]).Some? && ParseInt(args[1]).Some?
      && 0 < ParseInt(args[0]).value <= ParseInt(args[1]).value)
    ensures o.Updated? ==> o.writes == [Write(MinIntervalKey, S.Int(ParseInt(args[0]).value)),
                                        Write(MaxIntervalKey, S.Int(ParseInt(args[1]).value))]
  {
    if |args| < 2 then Usage
    else
      var lo := ParseInt(args[0]);
      var hi := ParseInt(args[1]);
      if lo.None? || hi.None? then NotNumber
      else if lo.value <= 0 || hi.value <= 0 then Rejected("间隔时间必须大于0")
      else if lo.value > hi.value then Rejected("最小间隔不能大于最大间隔")
      else Updated([Write(MinIntervalKey, S.Int(lo.value)), Write(MaxIntervalKey, S.Int(hi.value))])
  }

  /** `set_limit n`: an integer from 1 to 1000. */
  function SetLimit(args: seq<String>): (o: Outcome)
    ensures o.Updated? <==> |args| >= 1 && ParseInt(args[0]).Some? && 1 <= ParseInt(args[0]).value <= MaxHourlyLimit
    ensures o.Updated? ==> o.writes == [Write(HourlyLimitKey, S.Int(ParseInt(args[0]).value))]
    ensures |args| >= 1 && ParseInt(args[0]).None? <==> o == NotNumber
  {
    if |args| == 0 then Usage
    else match ParseInt(args[0])
      case None => NotNumber
      case Some(n) =>
        if n <= 0 then Rejected("发送限制必须大于0")
        else if n > MaxHourlyLimit then Rejected("发送限制不建议超过1000")
        else Updated([Write(HourlyLimitKey, S.Int(n))])
  }

  /** `set_rotation_strategy s`: `s` lower-cased must be one of message, time, smart. */
  function SetRotationStrategy(args: seq<String>): (o: Outcome)
    ensures o.Updated? <==> |args| >= 1 && Lower(args[0]) in Strategies
    ensures o.Updated? ==> o.writes == [Write(StrategyKey, S.Str(Lower(args[0])))]
    ensures o != NotNumber
  {
    if |args| == 0 then Usage
    else
      var s := Lower(args[0]);
      if s !in Strategies then Rejected("无效的轮换策略")
      else Updated([Write(StrategyKey, S.Str(s))])
  }

  /** A strategy is accepted in any letter case. */
  lemma StrategyCaseInsensitive(a: String)
    ensures SetRotationStrategy([a]) == SetRotationStrategy([Lower(a)])
  {
    LowerIdempotent(a);
  }

  // ---------------------------------------------------------------- applying the writes

  /** The configuration after the writes in order, or `None` at the first `set` that raises. */
  function ApplyWrites(config: S.Config, writes: seq<Write>): Option<S.Config>
    decreases |writes|
  {
    if |writes| == 0 then Some(config)
    else match S.SetIn(config, Split(writes[0].key, "."), writes[0].value)
      case None => None
      case Some(c) => ApplyWrites(c, writes[1..])
  }

  /** The settings calls a command makes; a raised `set` stops the rest and is reported. */
  method Perform(settings: S.Settings, writes: seq<Write>) returns (ok: bool)
    modifies settings
    ensures var r := ApplyWrites(old(settings.config), writes);
      (ok <==> r.Some?) && (ok ==> settings.config == r.value)
  {
    var i := 0;
    ok := true;
    while i < |writes|
      invariant 0 <= i <= |writes|
      invariant ApplyWrites(old(settings.config), writes) == ApplyWrites(settings.config, writes[i..])
    {
      var done := settings.Set(writes[i].key, writes[i].value);
      if !done {
        return false;
      }
      assert writes[i..][1..] == writes[i + 1..];
      i := i + 1;
    }
  }

  /** A two-part dotted key splits into its two parts. */
  lemma DottedPath(a: String, b: String)
    requires '.' !in a && '.' !in b
    ensures Split(a + "." + b, ".") == [a, b]
  {
    SplitJoinChar([a, b], '.');
  }

  /**
   * The two interval writes, on a configuration whose `global_settings` is
   * absent or a mapping, both succeed and read back as written.
   */
  lemma IntervalReadBack(config: S.Config, lo: int, hi: int)
    requires "global_settings" !in config || config["global_settings"].Dict?
    ensures var c := ApplyWrites(config, [Write(MinIntervalKey, S.Int(lo)), Write(MaxIntervalKey, S.Int(hi))]);
      c.Some?
      && S.Lookup(S.Dict(c.value), ["global_settings", "min_interval"]) == Some(S.Int(lo))
      && S.Lookup(S.Dict(c.value), ["global_settings", "max_interval"]) == Some(S.Int(hi))
  {
    var p := ["global_settings", "min_interval"];
    var q := ["global_settings", "max_interval"];
    var writes := [Write(MinIntervalKey, S.Int(lo)), Write(MaxIntervalKey, S.Int(hi))];
    DottedPath("global_settings", "min_interval");
    DottedPath("global_settings", "max_interval");
    S.SetSucceedsIffPathOpen(config, p, S.Int(lo));
    var c1 := S.SetIn(config, p, S.Int(lo)).value;
    S.SetThenGet(config, p, S.Int(lo));
    S.SetSucceedsIffPathOpen(c1, q, S.Int(hi));
    var c2 := S.SetIn(c1, q, S.Int(hi)).value;
    S.SetThenGet(c1, q, S.Int(hi));
    assert S.Diverges(p, q);
    S.SetKeepsOtherPaths(c1, q, S.Int(hi), p);
    assert writes[1..] == [writes[1]];
    assert ApplyWrites(c1, writes[1..]) == Some(c2);
  }

  /** The limit write, under the same condition, succeeds and reads back. */
  lemma LimitReadBack(config: S.Config, n: int)
    requires "global_settings" !in config || config["global_settings"].Dict?
    ensures var c := ApplyWrites(config, [Write(HourlyLimitKey, S.Int(n))]);
      c.Some? && S.Lookup(S.Dict(c.value), ["global_settings", "hourly_limit"]) == Some(S.Int(n))
  {
    var p := ["global_settings", "hourly_limit"];
    DottedPath("global_settings", "hourly_limit");
    S.SetSucceedsIffPathOpen(config, p, S.Int(n));
    S.SetThenGet(config, p, S.Int(n));
  }
}
