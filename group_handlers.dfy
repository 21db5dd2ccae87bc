// The argument checks of the group commands in bot/handlers/group.py: the
// channel-link parser, the `HH:MM` check of `set_schedule` and the rules of
// `add_source`, `add_target`, `set_filter` and `toggle_filter`.
module GroupHandlers {
  import opened Wrappers
  import opened PyStr
  import PyTime
  import Filters

  // ---------------------------------------------------------------- channel links

  /** What `_parse_channel_link` returns: a numeric channel id or a username, either possibly absent. */
  datatype ChannelRef = ChannelRef(id: Option<int>, username: Option<String>)

  /**
   * `_parse_channel_link`, its tests in source order: a `-100` prefix is
   * `int()`-parsed (a `ValueError` gives `(None, None)`); `@name` gives the
   * name; a link mentioning `joinchat` gives nothing; a `t.me/` link gives
   * what follows its last `t.me/`; anything else is taken as a username.
   */
  function ParseChannelLink(link: String): (r: ChannelRef)
    ensures r.id.Some? ==> r.username.None? && StartsWith(link, "-100")
    ensures StartsWith(link, "-100") ==> r == ChannelRef(ParseInt(link), None)
    ensures !StartsWith(link, "-100") && StartsWith(link, "@") ==> r == ChannelRef(None, Some(link[1..]))
    ensures !StartsWith(link, "-100") && !StartsWith(link, "@") && Contains(link, "joinchat") ==>
      r == ChannelRef(None, None)
    ensures !StartsWith(link, "-100") && !StartsWith(link, "@") && !Contains(link, "joinchat")
            && Contains(link, "t.me/") ==>
      (r.id.None? && r.username.Some?
       && EndsWith(link, "t.me/" + r.username.value) && !Contains(r.username.value, "t.me/"))
    ensures !StartsWith(link, "-100") && !StartsWith(link, "@") && !Contains(link, "joinchat")
            && !Contains(link, "t.me/") ==>
      r == ChannelRef(None, Some(link))
  {
    if StartsWith(link, "-100") then
      match ParseInt(link)
      case Some(n) => ChannelRef(Some(n), None)
      case None => ChannelRef(None, None)
    else if StartsWith(link, "@") then ChannelRef(None, Some(link[1..]))
    else if Contains(link, "joinchat") then ChannelRef(None, None)
    else if Contains(link, "t.me/") then
      var parts := Split(link, "t.me/");
      SplitLastPiece(link, "t.me/");
      ChannelRef(None, Some(parts[|parts| - 1]))
    else ChannelRef(None, Some(link))
  }

  /** A digit group with a non-zero digit has a positive value. */
  lemma {:induction false} DigitsPositive(d: String, j: nat)
    requires forall i :: 0 <= i < |d| ==> IsDigit(d[i]) || d[i] == '_'
    requires j < |d| && IsDigit(d[j]) && d[j] != '0'
    ensures DigitsValue(d) > 0
  {
    if j < |d| - 1 {
      DigitsPositive(d[..|d| - 1], j);
    }
  }

  /** Stripping a string that starts with `-100` keeps those four characters in front. */
  lemma StripKeepsPrefix(link: String)
    requires StartsWith(link, "-100")
    ensures |Strip(link)| >= 4 && Strip(link)[..4] == "-100"
  {
    assert link[0] == '-' && link[3] == '0';
    var l := LStrip(link);
    assert l == link;
    assert !IsSpace(link[3]);
    var r := RStrip(l);
    assert |r| >= 4;
    assert r[..4] == link[..4];
  }

  /** `int()` of a string starting with `-100`, when it succeeds, is negative. */
  lemma MinusHundredNegative(link: String)
    requires StartsWith(link, "-100") && ParseInt(link).Some?
    ensures ParseInt(link).value < 0
  {
    StripKeepsPrefix(link);
    var t := Strip(link);
    assert t[0] == '-' && t[1] == '1';
    assert ValidDigits(t[1..]);
    DigitsPositive(t[1..], 0);
  }

  /** Every id parsed from a `-100` link is negative, so the handlers' `if not channel_id` never rejects it. */
  lemma ParsedIdNegative(link: String)
    requires ParseChannelLink(link).id.Some?
    ensures ParseChannelLink(link).id.value < 0
  {
    MinusHundredNegative(link);
  }

  /** `-100…` ids, `@name`, `t.me/` links and bare names parse as the docstring of the parser lists them. */
  lemma ParseChannelLinkExamples()
    ensures ParseChannelLink("@news") == ChannelRef(None, Some("news"))
    ensures ParseChannelLink("-100x") == ChannelRef(None, None)
  {
    assert "@news"[..4][0] == '@';
    assert StartsWith("-100x", "-100");
    assert Strip("-100x") == "-100x" by { StripNoOp("-100x"); }
    assert "-100x"[1..][3] == 'x';
  }

  /** The outcome of `add_source` / `add_target`. */
  datatype AddChannel =
    | AddUsage  // fewer than two arguments
    | BadGroupId  // `int(args[0])` raised
    | InvalidLink  // the link yields no numeric id
    | Add(groupId: int, channelId: int, username: Option<String>)

  function AddChannelCommand(args: seq<String>): (o: AddChannel)
    ensures o.Add? <==> |args| >= 2 && ParseInt(args[0]).Some? && ParseChannelLink(args[1]).id.Some?
    ensures o.Add? ==> (o.groupId == ParseInt(args[0]).value && o.channelId == ParseChannelLink(args[1]).id.value
      && StartsWith(args[1], "-100"))
  {
    if |args| < 2 then AddUsage
    else match ParseInt(args[0])
      case None => BadGroupId
      case Some(g) =>
        var ref := ParseChannelLink(args[1]);
        if ref.id.None? then InvalidLink
        else if ref.id.value == 0 then
          ParsedIdNegative(args[1]);
          assert false;
          InvalidLink
        else Add(g, ref.id.value, ref.username)
  }

  /** A username or `t.me/` link is refused by `add_source` and `add_target`. */
  lemma UsernameLinksRefused(g: String, link: String)
    requires ParseInt(g).Some? && !StartsWith(link, "-100")
    ensures AddChannelCommand([g, link]) == InvalidLink
  {
  }

  // ---------------------------------------------------------------- set_schedule

  predicate InRange(c: char, lo: char, hi: char) { lo <= c <= hi }

  /** `[01]?[0-9]|2[0-3]` followed by `:[0-5][0-9]`, matched against the whole string. */
  predicate ClockText(s: String)
  {
    (|s| == 4 && IsDigit(s[0]) && s[1] == ':' && InRange(s[2], '0', '5') && IsDigit(s[3]))
    || (|s| == 5 && s[2] == ':' && InRange(s[3], '0', '5') && IsDigit(s[4])
        && ((InRange(s[0], '0', '1') && IsDigit(s[1])) || (s[0] == '2' && InRange(s[1], '0', '3'))))
  }

  /**
   * `re.match(r'^([01]?[0-9]|2[0-3]):[0-5][0-9]$', s)`: `$` also matches
   * just before a final newline.
   */
  predicate MatchesHHMM(s: String)
  {
    ClockText(s) || (|s| > 0 && s[|s| - 1] == '\n' && ClockText(s[..|s| - 1]))
  }

  /** Every `hh:mm` time of day is accepted. */
  lemma FormattedTimesMatch(h: nat, m: nat)
    requires h < 24 && m < 60
    ensures MatchesHHMM(PyTime.FormatHHMM(h, m))
  {
  }

  /** A two-digit accepted time parses with `time.fromisoformat` to the time it spells. */
  lemma AcceptedTwoDigitTimesParse(s: String)
    requires ClockText(s) && |s| == 5
    ensures PyTime.FromIsoFormat(s).Some?
  {
    var x := s[0..2];
    var y := s[3..5];
    assert PyTime.Field(x).Some? && PyTime.Field(y).Some?;
    assert x[..1] == [s[0]] && y[..1] == [s[3]];
    assert [s[0]][..0] == [] && [s[3]][..0] == [];
    assert DigitsValue([s[0]]) == DigitValue(s[0]);
    assert DigitsValue([s[3]]) == DigitValue(s[3]);
    assert DigitsValue(x) == 10 * DigitValue(s[0]) + DigitValue(s[1]);
    assert DigitsValue(y) == 10 * DigitValue(s[3]) + DigitValue(s[4]);
  }

  /** The check lets through one-digit hours, which `time.fromisoformat` then rejects. */
  lemma OneDigitHourSlipsThrough()
    ensures MatchesHHMM("9:00") && PyTime.FromIsoFormat("9:00").None?
  {
    PyTime.FromIsoFormatRejectsShortHour();
  }

  /** The outcome of `set_schedule`. */
  datatype SetSchedule =
    | ScheduleUsage
    | ScheduleBadGroupId
    | BadTime
    | Schedule(groupId: int, start: String, end: String)

  function SetScheduleCommand(args: seq<String>): (o: SetSchedule)
    ensures o.Schedule? <==> |args| >= 3 && ParseInt(args[0]).Some? && MatchesHHMM(args[1]) && MatchesHHMM(args[2])
    ensures o.Schedule? ==> o == Schedule(ParseInt(args[0]).value, args[1], args[2])
  {
    if |args| < 3 then ScheduleUsage
    else match ParseInt(args[0])
      case None => ScheduleBadGroupId
      case Some(g) =>
        if !MatchesHHMM(args[1]) || !MatchesHHMM(args[2]) then BadTime
        else Schedule(g, args[1], args[2])
  }

  // ---------------------------------------------------------------- filters

  /** The filter types `set_filter` accepts. */
  const ValidFilters: seq<String> := ["remove_links", "remove_emojis", "remove_special_chars", "ad_detection", "smart_filter"]

  datatype SetFilter =
    | FilterUsage
    | FilterBadGroupId
    | BadFilterType
    | Toggle(groupId: int, filterType: String, enabled: bool)
    | UnknownGroup(groupId: int)

  /**
   * `set_filter group type [on]`: the group id is parsed first, then the
   * type must be one of the five; `enabled` is the third argument
   * lower-cased compared with `true`, and true when it is absent.
   */
  function SetFilterCommand(args: seq<String>): (o: SetFilter)
    ensures o.Toggle? <==> |args| >= 2 && ParseInt(args[0]).Some? && args[1] in ValidFilters
    ensures o.Toggle? ==> o.filterType == args[1] && (o.enabled <==> |args| == 2 || Lower(args[2]) == "true")
  {
    if |args| < 2 then FilterUsage
    else match ParseInt(args[0])
      case None => FilterBadGroupId
      case Some(g) =>
        var enabled := if |args| > 2 then Lower(args[2]) == "true" else true;
        if args[1] !in ValidFilters then BadFilterType
        else Toggle(g, args[1], enabled)
  }

  /**
   * `toggle_filter group type`: the new value is the negation of the
   * current one, a missing key counting as off; the type is not checked.
   * `groups` holds the filters of each known group.
   */
  function ToggleFilterCommand(args: seq<String>, groups: map<int, Filters.FilterSettings>): (o: SetFilter)
    ensures o.Toggle? <==> |args| >= 2 && ParseInt(args[0]).Some? && ParseInt(args[0]).value in groups
    ensures o.Toggle? ==> (o.filterType == args[1] && o.groupId in groups
      && (o.enabled <==> !Filters.Enabled(groups[o.groupId], args[1])))
  {
    if |args| < 2 then FilterUsage
    else match ParseInt(args[0])
      case None => FilterBadGroupId
      case Some(g) =>
        if g !in groups then UnknownGroup(g)
        else Toggle(g, args[1], !Filters.Enabled(groups[g], args[1]))
  }

  /** Toggling twice, with the first result written back, restores the flag. */
  lemma ToggleTwiceRestores(args: seq<String>, groups: map<int, Filters.FilterSettings>)
    requires ToggleFilterCommand(args, groups).Toggle?
    ensures var o := ToggleFilterCommand(args, groups);
      var after := groups[o.groupId := groups[o.groupId][args[1] := Filters.Flag(o.enabled)]];
      var o2 := ToggleFilterCommand(args, after);
      o2.Toggle? && (o2.enabled <==> Filters.Enabled(groups[o.groupId], args[1]))
  {
  }
}
