// The settings store of config/settings.py: a nested configuration read and
// written by dotted paths, and the properties that let environment
// variables override it.
module Settings {
  import opened Wrappers
  import opened PyStr

  /** A YAML value. */
  datatype Value =
    | Null
    | Bool(b: bool)
    | Int(i: int)
    | Str(s: String)
    | List(items: seq<Value>)
    | Dict(entries: map<String, Value>)

  /** The top-level configuration mapping. */
  type Config = map<String, Value>

  /** The process environment as `os.getenv` sees it. */
  type Env = map<String, String>

  /** The configuration written when no configuration file exists. */
  const DefaultConfig: Config := map[
    "global_settings" := Dict(map[
      "min_interval" := Int(3), "max_interval" := Int(30), "hourly_limit" := Int(50),
      "retry_attempts" := Int(3), "media_timeout" := Int(300)]),
    "rotation" := Dict(map[
      "strategy" := Str("message"), "messages_per_rotation" := Int(1),
      "time_per_rotation" := Int(30), "rest_time" := Int(30)]),
    "filters" := Dict(map[
      "remove_links" := Bool(true), "remove_emojis" := Bool(true),
      "remove_special_chars" := Bool(true), "ad_detection" := Bool(true),
      "smart_filter" := Bool(true)]),
    "security" := Dict(map[
      "session_encryption" := Bool(true), "backup_enabled" := Bool(true),
      "log_retention_days" := Int(30)])
  ]

  // ---------------------------------------------------------------- paths

  /**
   * The value at a key path: each step indexes a mapping; a missing key or a
   * step into anything but a mapping (the `KeyError` and `TypeError` of
   * `get`) gives `None`.
   */
  function Lookup(v: Value, keys: seq<String>): Option<Value>
    decreases |keys|
  {
    if |keys| == 0 then Some(v)
    else match v
      case Dict(m) => if keys[0] in m then Lookup(m[keys[0]], keys[1..]) else None
      case _ => None
  }

  /**
   * The configuration after writing `v` at a key path, creating a missing
   * intermediate as an empty mapping. `None` is the `TypeError` raised when
   * an existing intermediate is not a mapping; it is raised before anything
   * is written, since every intermediate created is a mapping.
   */
  function SetIn(m: Config, keys: seq<String>, v: Value): Option<Config>
    requires |keys| >= 1
    decreases |keys|
  {
    if |keys| == 1 then Some(m[keys[0] := v])
    else
      var child := if keys[0] in m then m[keys[0]] else Dict(map[]);
      match child
      case Dict(inner) =>
        (match SetIn(inner, keys[1..], v)
         case Some(inner2) => Some(m[keys[0] := Dict(inner2)])
         case None => None)
      case _ => None
  }

  /** Every intermediate of the path that already exists is a mapping. */
  predicate PathOpen(m: Config, keys: seq<String>)
    requires |keys| >= 1
    decreases |keys|
  {
    |keys| == 1 || keys[0] !in m || (m[keys[0]].Dict? && PathOpen(m[keys[0]].entries, keys[1..]))
  }

  /** Neither path is a prefix of the other: they part at some position. */
  predicate Diverges(p: seq<String>, q: seq<String>)
    decreases |p|
  {
    |p| > 0 && |q| > 0 && (p[0] != q[0] || Diverges(p[1..], q[1..]))
  }

  /** A write succeeds exactly when every existing intermediate is a mapping. */
  lemma {:induction false} SetSucceedsIffPathOpen(m: Config, keys: seq<String>, v: Value)
    requires |keys| >= 1
    ensures SetIn(m, keys, v).Some? <==> PathOpen(m, keys)
    decreases |keys|
  {
    if |keys| > 1 {
      var child := if keys[0] in m then m[keys[0]] else Dict(map[]);
      if child.Dict? {
        SetSucceedsIffPathOpen(child.entries, keys[1..], v);
        if keys[0] !in m {
          PathOpenInEmpty(keys[1..]);
        }
      }
    }
  }

  lemma PathOpenInEmpty(keys: seq<String>)
    requires |keys| >= 1
    ensures PathOpen(map[], keys)
  {
  }

  /** Reading the path just written gives the value written. */
  lemma {:induction false} SetThenGet(m: Config, keys: seq<String>, v: Value)
    requires |keys| >= 1 && SetIn(m, keys, v).Some?
    ensures Lookup(Dict(SetIn(m, keys, v).value), keys) == Some(v)
    decreases |keys|
  {
    if |keys| > 1 {
      var child := if keys[0] in m then m[keys[0]] else Dict(map[]);
      SetThenGet(child.entries, keys[1..], v);
    }
  }

  /** A write leaves every path that parts from the written one unchanged. */
  lemma {:induction false} SetKeepsOtherPaths(m: Config, keys: seq<String>, v: Value, p: seq<String>)
    requires |keys| >= 1 && SetIn(m, keys, v).Some? && Diverges(p, keys)
    ensures Lookup(Dict(SetIn(m, keys, v).value), p) == Lookup(Dict(m), p)
    decreases |keys|
  {
    var m2 := SetIn(m, keys, v).value;
    if p[0] != keys[0] {
      assert p[0] in m2 <==> p[0] in m;
    } else {
      var child := if keys[0] in m then m[keys[0]] else Dict(map[]);
      SetKeepsOtherPaths(child.entries, keys[1..], v, p[1..]);
    }
  }

  // ---------------------------------------------------------------- environment

  /** `os.getenv(name, '')`. */
  function GetEnv(env: Env, name: String): String
  {
    if name in env then env[name] else ""
  }

  /** The non-blank comma-separated entries, stripped. */
  function NonBlank(parts: seq<String>): (r: seq<String>)
    ensures |r| <= |parts|
  {
    if |parts| == 0 then []
    else (if Strip(parts[0]) != "" then [Strip(parts[0])] else []) + NonBlank(parts[1..])
  }

  /** `int()` of every entry. */
  function ParseEach(parts: seq<String>): (r: seq<Option<int>>)
    ensures |r| == |parts| && forall i :: 0 <= i < |r| ==> r[i] == ParseInt(parts[i])
  {
    if |parts| == 0 then [] else [ParseInt(parts[0])] + ParseEach(parts[1..])
  }

  /** The parsed entries, or `None` as a whole when one entry failed. */
  function AllParsed(xs: seq<Option<int>>): (r: Option<seq<int>>)
    ensures r.Some? ==> |r.value| == |xs|
  {
    if |xs| == 0 then Some([])
    else
      var tail := AllParsed(xs[1..]);
      if xs[0].Some? && tail.Some? then Some([xs[0].value] + tail.value) else None
  }

  /** `admin_users`: the integer ids in `ADMIN_USERS`, or `[]` when it is unset or any entry is not an integer. */
  function AdminUsers(env: Env): seq<int>
  {
    var s := GetEnv(env, "ADMIN_USERS");
    if s == "" then []
    else AllParsed(ParseEach(NonBlank(Split(s, ",")))).GetOr([])
  }

  function Decimals(ids: seq<int>): (r: seq<String>)
    ensures |r| == |ids| && forall i :: 0 <= i < |r| ==> r[i] == IntToString(ids[i])
  {
    if |ids| == 0 then [] else [IntToString(ids[0])] + Decimals(ids[1..])
  }

  /** The decimal rendering of an id is a non-blank, comma-free entry that parses back to the id. */
  lemma DecimalEntry(n: int)
    ensures var s := IntToString(n);
      ',' !in s && Strip(s) == s && s != "" && ParseInt(s) == Some(n)
  {
    var s := IntToString(n);
    var d := NatToString(if n < 0 then -n else n);
    assert s[|s| - 1] == d[|d| - 1];
    StripNoOp(s);
    ParseIntToString(n);
  }

  lemma {:induction false} DecimalsNonBlank(ids: seq<int>)
    ensures NonBlank(Decimals(ids)) == Decimals(ids)
  {
    if |ids| > 0 {
      var d := Decimals(ids);
      DecimalsNonBlank(ids[1..]);
      DecimalEntry(ids[0]);
      assert d[1..] == Decimals(ids[1..]);
      assert NonBlank(d) == [d[0]] + NonBlank(d[1..]);
    }
  }

  function Somes(ids: seq<int>): (r: seq<Option<int>>)
    ensures |r| == |ids| && forall i :: 0 <= i < |r| ==> r[i] == Some(ids[i])
  {
    if |ids| == 0 then [] else [Some(ids[0])] + Somes(ids[1..])
  }

  lemma {:induction false} AllParsedSomes(ids: seq<int>)
    ensures AllParsed(Somes(ids)) == Some(ids)
  {
    if |ids| > 0 {
      AllParsedSomes(ids[1..]);
      assert Somes(ids)[1..] == Somes(ids[1..]);
      assert [ids[0]] + ids[1..] == ids;
    }
  }

  lemma DecimalsParse(ids: seq<int>)
    ensures AllParsed(ParseEach(Decimals(ids))) == Some(ids)
  {
    forall i | 0 <= i < |ids| ensures ParseEach(Decimals(ids))[i] == Somes(ids)[i] {
      DecimalEntry(ids[i]);
    }
    assert ParseEach(Decimals(ids)) == Somes(ids);
    AllParsedSomes(ids);
  }

  /** A non-empty id list written comma-separated into `ADMIN_USERS` is read back as that list. */
  lemma AdminUsersRoundTrip(env: Env, ids: seq<int>)
    requires |ids| >= 1 && "ADMIN_USERS" in env && env["ADMIN_USERS"] == Join(Decimals(ids), ",")
    ensures AdminUsers(env) == ids
  {
    SplitDecimals(ids);
    DecimalsNonBlank(ids);
    DecimalsParse(ids);
  }

  lemma SplitDecimals(ids: seq<int>)
    requires |ids| >= 1
    ensures Split(Join(Decimals(ids), ","), ",") == Decimals(ids)
    ensures Join(Decimals(ids), ",") != ""
  {
    var strs := Decimals(ids);
    forall l | l in strs ensures ',' !in l {
      var i :| 0 <= i < |strs| && strs[i] == l;
      DecimalEntry(ids[i]);
    }
    SplitJoinChar(strs, ',');
    DecimalEntry(ids[0]);
    JoinFirst(strs, ",");
  }

  lemma JoinFirst(ls: seq<String>, sep: String)
    requires |ls| >= 1
    ensures StartsWith(Join(ls, sep), ls[0])
  {
  }

  /** One non-integer entry empties the whole list. */
  lemma {:induction false} AdminUsersRejectsBadEntry(xs: seq<Option<int>>, j: nat)
    requires j < |xs| && xs[j].None?
    ensures AllParsed(xs).None?
  {
    if j > 0 {
      AdminUsersRejectsBadEntry(xs[1..], j - 1);
    }
  }

  /** The mask `to_dict` shows for the bot token: its first 10 characters and `...`, or `''` when unset. */
  function MaskToken(token: String): (r: String)
    ensures token == "" ==> r == ""
    ensures token != "" ==> (|r| == (if |token| < 10 then |token| else 10) + 3
      && StartsWith(token, r[..|r| - 3]) && EndsWith(r, "..."))
  {
    if token == "" then ""
    else (if |token| < 10 then token else token[..10]) + "..."
  }

  /** The dictionary `to_dict` returns, from its already computed parts. */
  function SettingsDict(token: String, admins: seq<int>, url: String, lo: Value, hi: Value, lim: Value,
                        strategy: Value, cfg: Config): (r: Value)
    ensures r.Dict? && "bot_token" in r.entries && "admin_users" in r.entries
    ensures "min_interval" in r.entries && "config" in r.entries
    ensures r.entries["bot_token"] == Str(token) && r.entries["admin_users"] == List(IntValues(admins))
    ensures r.entries["min_interval"] == lo && r.entries["config"] == Dict(cfg)
  {
    Dict(map[
      "bot_token" := Str(token),
      "admin_users" := List(IntValues(admins)),
      "database_url" := Str(url),
      "min_interval" := lo,
      "max_interval" := hi,
      "hourly_limit" := lim,
      "rotation_strategy" := strategy,
      "config" := Dict(cfg)])
  }

  // ---------------------------------------------------------------- the store

  class Settings {
    /** The loaded configuration, `_config`. */
    var config: Config
    /** The process environment. */
    const env: Env

    /** Loads `loaded`, or writes the default configuration when there is no file (`None`). */
    constructor (loaded: Option<Config>, env: Env)
      ensures config == (if loaded.None? then DefaultConfig else loaded.value) && this.env == env
    {
      config := if loaded.None? then DefaultConfig else loaded.value;
      this.env := env;
    }

    /** `get(key, default)`: the value at the dotted path, or `default`. */
    function Get(key: String, default: Value): (r: Value)
      reads this
      ensures Lookup(Dict(config), Split(key, ".")).None? ==> r == default
    {
      Lookup(Dict(config), Split(key, ".")).GetOr(default)
    }

    /**
     * `set(key, value)`: writes the value at the dotted path, creating
     * missing intermediate mappings; `false` is the `TypeError` for an
     * intermediate that is not a mapping, and then nothing changes.
     */
    method Set(key: String, value: Value) returns (ok: bool)
      modifies this
      ensures ok <==> PathOpen(old(config), Split(key, "."))
      ensures ok <==> SetIn(old(config), Split(key, "."), value).Some?
      ensures ok ==> SetIn(old(config), Split(key, "."), value) == Some(config)
      ensures ok ==> Get(key, Null) == value
      ensures !ok ==> config == old(config)
    {
      var keys := Split(key, ".");
      SetSucceedsIffPathOpen(config, keys, value);
      var r := SetIn(config, keys, value);
      ok := r.Some?;
      if ok {
        SetThenGet(config, keys, value);
        config := r.value;
      }
    }

    /**
     * An integer setting with an environment override (`min_interval`,
     * `max_interval`, `hourly_limit`): a non-empty variable is `int()`-parsed,
     * its `ValueError` surfacing as `Err`; otherwise the configured value, or
     * the default.
     */
    function IntSetting(name: String, path: String, default: int): Result<Value>
      reads this
    {
      var s := GetEnv(env, name);
      if s != "" then
        match ParseInt(s)
        case Some(n) => Ok(Int(n))
        case None => Err("ValueError")
      else Ok(Get(path, Int(default)))
    }

    function MinInterval(): Result<Value>
      reads this
    {
      IntSetting("MIN_INTERVAL", "global_settings.min_interval", 3)
    }

    function MaxInterval(): Result<Value>
      reads this
    {
      IntSetting("MAX_INTERVAL", "global_settings.max_interval", 30)
    }

    function HourlyLimit(): Result<Value>
      reads this
    {
      IntSetting("HOURLY_LIMIT", "global_settings.hourly_limit", 50)
    }

    /** The environment wins when set; otherwise the configuration, then the default. */
    lemma IntSettingSources(name: String, path: String, default: int)
      ensures GetEnv(env, name) != "" && ParseInt(GetEnv(env, name)).Some? ==>
        IntSetting(name, path, default) == Ok(Int(ParseInt(GetEnv(env, name)).value))
      ensures GetEnv(env, name) != "" && ParseInt(GetEnv(env, name)).None? ==>
        IntSetting(name, path, default).Err?
      ensures GetEnv(env, name) == "" ==>
        IntSetting(name, path, default)
        == Ok(if Lookup(Dict(config), Split(path, ".")).Some? then Lookup(Dict(config), Split(path, ".")).value else Int(default))
    {
    }

    /** `backup_enabled`: a non-empty variable is true exactly when it reads `true` in any case. */
    function BackupEnabled(): (r: Value)
      reads this
      ensures GetEnv(env, "BACKUP_ENABLED") != "" ==> r == Bool(Lower(GetEnv(env, "BACKUP_ENABLED")) == "true")
    {
      var s := GetEnv(env, "BACKUP_ENABLED");
      if s != "" then Bool(Lower(s) == "true") else Get("security.backup_enabled", Bool(true))
    }

    /** `to_dict`, with the bot token masked; the integer properties' `ValueError` propagates. */
    function ToDict(): Result<Value>
      reads this
    {
      match (MinInterval(), MaxInterval(), HourlyLimit())
      case (Ok(lo), Ok(hi), Ok(lim)) =>
        Ok(SettingsDict(MaskToken(GetEnv(env, "BOT_TOKEN")), AdminUsers(env),
                        if "DATABASE_URL" in env then env["DATABASE_URL"] else "sqlite:///data/forwarder.db",
                        lo, hi, lim, Get("rotation.strategy", Str("message")), config))
      case _ => Err("ValueError")
    }

    /**
     * `to_dict` raises exactly when one of the integer properties does, and
     * otherwise carries the masked token, the parsed admin ids and the whole
     * configuration.
     */
    lemma ToDictFields()
      ensures ToDict().Err? <==> MinInterval().Err? || MaxInterval().Err? || HourlyLimit().Err?
      ensures ToDict().Ok? ==> (ToDict().value.Dict?
        && "bot_token" in ToDict().value.entries && "admin_users" in ToDict().value.entries
        && "config" in ToDict().value.entries && "min_interval" in ToDict().value.entries
        && ToDict().value.entries["bot_token"] == Str(MaskToken(GetEnv(env, "BOT_TOKEN")))
        && ToDict().value.entries["admin_users"] == List(IntValues(AdminUsers(env)))
        && ToDict().value.entries["config"] == Dict(config)
        && Ok(ToDict().value.entries["min_interval"]) == MinInterval())
    {
    }
  }

  function IntValues(ids: seq<int>): (r: seq<Value>)
    ensures |r| == |ids| && forall i :: 0 <= i < |r| ==> r[i] == Int(ids[i])
  {
    if |ids| == 0 then [] else [Int(ids[0])] + IntValues(ids[1..])
  }
}
