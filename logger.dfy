// Log-file statistics, tails and level filters of utils/logger.py, and the
// emoji the Telegram log handler puts in front of a record.
module Logger {
  import opened Wrappers
  import opened PyStr

  /** A log file as `readlines()` returns it, or `None` when the path does not exist. */
  type LogFile = Option<seq<String>>

  /** The reply of `get_recent_logs` and `filter_logs_by_level` for a missing file. */
  const FileMissing: String := "日志文件不存在"

  /** The levels `get_log_stats` counts, in the order it tries them. */
  const Levels: seq<String> := ["DEBUG", "INFO", "WARNING", "ERROR", "CRITICAL"]

  /** The text that marks a line as written at a level: `- LEVEL -`. */
  function Marker(level: String): String
  {
    "- " + level + " -"
  }

  /** The first level, from index `k` on, whose marker the line contains. */
  function FirstLevelFrom(line: String, k: nat): (r: Option<nat>)
    requires k <= |Levels|
    ensures r.Some? ==> k <= r.value < |Levels| && Contains(line, Marker(Levels[r.value]))
    ensures r.Some? ==> forall j :: k <= j < r.value ==> !Contains(line, Marker(Levels[j]))
    ensures r.None? ==> forall j :: k <= j < |Levels| ==> !Contains(line, Marker(Levels[j]))
    decreases |Levels| - k
  {
    if k == |Levels| then None
    else if Contains(line, Marker(Levels[k])) then Some(k)
    else FirstLevelFrom(line, k + 1)
  }

  /** The one level a line is counted under, if any. */
  function FirstLevel(line: String): Option<nat>
  {
    FirstLevelFrom(line, 0)
  }

  /** The number of lines counted under level `k`. */
  function CountLevel(lines: seq<String>, k: nat): nat
  {
    if |lines| == 0 then 0
    else CountLevel(lines[..|lines| - 1], k) + (if FirstLevel(lines[|lines| - 1]) == Some(k) then 1 else 0)
  }

  /** The number of lines counted under some level. */
  function Classified(lines: seq<String>): nat
  {
    if |lines| == 0 then 0
    else Classified(lines[..|lines| - 1]) + (if FirstLevel(lines[|lines| - 1]).Some? then 1 else 0)
  }

  /** The statistics dictionary: the line total and one counter per level, in `Levels` order. */
  datatype LogStats = LogStats(totalLines: nat, counts: seq<nat>)

  /**
   * `get_log_stats`: every line is counted under the first level whose
   * marker it contains, and under no other. A missing file gives the error
   * dictionary.
   */
  method GetLogStats(file: LogFile) returns (r: Result<LogStats>)
    ensures file.None? <==> r.Err?
    ensures r.Ok? ==> (r.value.totalLines == |file.value| && |r.value.counts| == |Levels|
      && forall k :: 0 <= k < |Levels| ==> r.value.counts[k] == CountLevel(file.value, k))
  {
    if file.None? {
      return Err(FileMissing);
    }
    var lines := file.value;
    var counts: seq<nat> := [0, 0, 0, 0, 0];
    var i := 0;
    while i < |lines|
      invariant 0 <= i <= |lines| && |counts| == |Levels|
      invariant forall k :: 0 <= k < |Levels| ==> counts[k] == CountLevel(lines[..i], k)
    {
      var line := lines[i];
      var j := 0;
      while j < |Levels| && !Contains(line, Marker(Levels[j]))
        invariant 0 <= j <= |Levels|
        invariant FirstLevelFrom(line, j) == FirstLevel(line)
      {
        j := j + 1;
      }
      assert lines[..i + 1][..i] == lines[..i];
      if j < |Levels| {
        counts := counts[j := counts[j] + 1];
      }
      i := i + 1;
    }
    assert lines[..i] == lines;
    r := Ok(LogStats(|lines|, counts));
  }

  /** The level counters add up to the classified lines, so never exceed `total_lines`. */
  lemma {:induction false} CountsBounded(lines: seq<String>)
    ensures CountLevel(lines, 0) + CountLevel(lines, 1) + CountLevel(lines, 2)
      + CountLevel(lines, 3) + CountLevel(lines, 4) == Classified(lines)
    ensures Classified(lines) <= |lines|
  {
    if |lines| > 0 {
      CountsBounded(lines[..|lines| - 1]);
    }
  }

  /** A line carrying two markers is counted under the earlier level only. */
  lemma FirstMarkerWins(line: String, a: nat, b: nat)
    requires a < b < |Levels|
    requires Contains(line, Marker(Levels[a])) && Contains(line, Marker(Levels[b]))
    ensures FirstLevel(line) != Some(b)
  {
  }

  // ---------------------------------------------------------------- tails

  /** `xs[-n:] if len(xs) > n else xs`, with Python's clamping of slice bounds. */
  function PyTail<T>(xs: seq<T>, n: int): seq<T>
  {
    if |xs| > n then
      if n > 0 then xs[|xs| - n..]
      else if -n < |xs| then xs[-n..] else []
    else xs
  }

  /**
   * The tail keeps the last `min(n, len)` entries for `n >= 1`; for `n == 0`
   * the slice `[-0:]` is the whole list, and a negative `n` drops the first
   * `-n` entries.
   */
  lemma PyTailShape<T>(xs: seq<T>, n: int)
    ensures n >= 1 ==> PyTail(xs, n) == xs[|xs| - (if n < |xs| then n else |xs|)..]
    ensures n == 0 ==> PyTail(xs, n) == xs
    ensures n < 0 ==> PyTail(xs, n) == xs[(if -n < |xs| then -n else |xs|)..]
  {
  }

  function StripAll(lines: seq<String>): (r: seq<String>)
    ensures |r| == |lines| && forall i :: 0 <= i < |r| ==> r[i] == Strip(lines[i])
  {
    if |lines| == 0 then [] else [Strip(lines[0])] + StripAll(lines[1..])
  }

  /** `get_recent_logs`: the last `n` lines, stripped. */
  function GetRecentLogs(file: LogFile, n: int): seq<String>
  {
    match file
    case None => [FileMissing]
    case Some(lines) => StripAll(PyTail(lines, n))
  }

  /** For `n >= 1` the recent logs are the last `min(n, len)` lines of the file, stripped and in file order. */
  lemma RecentLogsAreLastLines(lines: seq<String>, n: int)
    requires n >= 1
    ensures var r := GetRecentLogs(Some(lines), n);
      var m := if n < |lines| then n else |lines|;
      |r| == m && forall i :: 0 <= i < m ==> r[i] == Strip(lines[|lines| - m + i])
  {
    PyTailShape(lines, n);
  }

  /** The stripped lines carrying a marker, in file order. */
  function Selected(lines: seq<String>, marker: String): (r: seq<String>)
    ensures |r| <= |lines|
    ensures forall l :: l in r ==> exists x :: x in lines && Contains(x, marker) && l == Strip(x)
  {
    if |lines| == 0 then []
    else (if Contains(lines[0], marker) then [Strip(lines[0])] else []) + Selected(lines[1..], marker)
  }

  /** `filter_logs_by_level`: the last `n` stripped lines carrying the upper-cased level's marker. */
  function FilterLogsByLevel(file: LogFile, level: String, n: int): seq<String>
  {
    match file
    case None => [FileMissing]
    case Some(lines) => PyTail(Selected(lines, Marker(Upper(level))), n)
  }

  /**
   * The filter keeps exactly the marked lines in file order when there are
   * at most `n` of them, and otherwise the last `n` of them; the level is
   * matched case-insensitively.
   */
  lemma FilterLogsKeepsMarkedLines(lines: seq<String>, level: String, n: int)
    requires n >= 1
    ensures var all := Selected(lines, Marker(Upper(level)));
      var r := FilterLogsByLevel(Some(lines), level, n);
      (|all| <= n ==> r == all)
      && (|all| > n ==> |r| == n && r == all[|all| - n..])
      && FilterLogsByLevel(Some(lines), Lower(level), n) == r
  {
    UpperOfLower(level);
  }

  lemma UpperOfLower(s: String)
    ensures Upper(Lower(s)) == Upper(s)
  {
  }

  // ---------------------------------------------------------------- emit

  const LevelWarning: int := 30
  const LevelError: int := 40
  const LevelCritical: int := 50

  const EmojiCritical: String := "\U{1f525}"
  const EmojiError: String := "\U{274c}"
  const EmojiWarning: String := "\U{26a0}\U{fe0f}"
  const EmojiInfo: String := "\U{2139}\U{fe0f}"

  /** The emoji for a record of numeric level `levelno`: the highest threshold it reaches. */
  function EmojiFor(levelno: int): String
  {
    if levelno >= LevelCritical then EmojiCritical
    else if levelno >= LevelError then EmojiError
    else if levelno >= LevelWarning then EmojiWarning
    else EmojiInfo
  }

  /** The severity order of the four emojis. */
  function EmojiRank(e: String): nat
  {
    if e == EmojiCritical then 3
    else if e == EmojiError then 2
    else if e == EmojiWarning then 1
    else 0
  }

  /** A more severe record never gets a milder emoji, and each standard level gets its own. */
  lemma EmojiMonotone(a: int, b: int)
    requires a <= b
    ensures EmojiRank(EmojiFor(a)) <= EmojiRank(EmojiFor(b))
    ensures EmojiFor(10) == EmojiFor(20) == EmojiInfo && EmojiFor(30) == EmojiWarning
    ensures EmojiFor(40) == EmojiError && EmojiFor(50) == EmojiCritical
  {
  }

  /** The Telegram text built for a record: emoji, bold level name, then the formatted message as code. */
  function TelegramMessage(levelno: int, levelName: String, message: String): (r: String)
    ensures StartsWith(r, EmojiFor(levelno) + " **" + levelName + "**\n\n`")
    ensures EndsWith(r, message + "`")
  {
    EmojiFor(levelno) + " **" + levelName + "**\n\n`" + message + "`"
  }
}
