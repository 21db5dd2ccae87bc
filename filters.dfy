// The text filter engine of utils/filters.py: advertisement and spam
// suppression, link/emoji/special-character removal, custom rules and
// whitespace normalisation.
module Filters {
  import opened Wrappers
  import opened PyStr

  // ---------------------------------------------------------------- configuration

  /** A value in a group's filter settings: a toggle, or the custom rule list. */
  datatype FilterValue = Flag(on: bool) | Rules(rules: seq<Rule>)

  /**
   * One custom rule. A missing `type` or `pattern` is the empty string, which
   * Python treats as falsy just like `None`.
   */
  datatype Rule = Rule(kind: String, pattern: String, replacement: String)

  type FilterSettings = map<String, FilterValue>

  /** Python truthiness of a setting value. */
  predicate Truthy(v: FilterValue)
  {
    match v
    case Flag(b) => b
    case Rules(rs) => |rs| > 0
  }

  /** `filters.get(key, False)` read as a condition. */
  predicate Enabled(cfg: FilterSettings, key: String)
  {
    key in cfg && Truthy(cfg[key])
  }

  /**
   * The regular-expression steps, which the model leaves uninterpreted:
   * link, emoji and special-character removal, the phone/QQ/WeChat contact
   * search, and `re.sub` for a user rule (`None` when the pattern is invalid).
   */
  datatype RegexOps = RegexOps(
    removeLinks: String -> String,
    removeEmojis: String -> String,
    removeSpecialChars: String -> String,
    hasContact: String -> bool,
    regexSub: (String, String, String) -> Option<String>)

  // ---------------------------------------------------------------- advertisement

  const DefaultAdKeywords: seq<String> := [
    "广告", "推广", "代理", "加微信", "加QQ", "联系方式",
    "免费领取", "限时优惠", "立即购买", "点击链接",
    "扫码", "二维码", "客服", "咨询", "代办", "包过",
    "兼职", "刷单", "投资", "理财", "贷款", "博彩",
    "彩票", "赌博", "色情", "成人", "约炮", "一夜情",
    "代孕", "药品", "减肥", "丰胸", "壮阳", "假证",
    "发票", "***", "微商", "淘宝客", "返利"]

  const AdPhrases: seq<String> := [
    "加我微信", "联系客服", "免费咨询", "立即下单",
    "扫码关注", "点击购买", "限时特价", "包邮到家"]

  /** How many entries of `words` occur in `s`. */
  function Hits(words: seq<String>, s: String): (n: nat)
    ensures n <= |words|
  {
    if |words| == 0 then 0
    else (if Contains(s, words[0]) then 1 else 0) + Hits(words[1..], s)
  }

  /**
   * Advertisement: two keywords in the lower-cased text, or one keyword and
   * a contact pattern, or two typical ad phrases in the text as written.
   */
  predicate IsAdvertisement(text: String, keywords: seq<String>, hasContact: String -> bool)
  {
    var adCount := Hits(keywords, Lower(text));
    adCount >= 2 || (hasContact(text) && adCount > 0) || Hits(AdPhrases, text) >= 2
  }

  /**
   * The keyword `加QQ` never matches: it is looked up in the lower-cased
   * text, which has no upper-case `Q`.
   */
  lemma UpperCaseKeywordNeverMatches(text: String)
    ensures !Contains(Lower(text), "加QQ")
  {
    var t := Lower(text);
    assert forall i :: 0 <= i < |t| ==> t[i] == LowerChar(text[i]) != 'Q';
    MissingCharNoMatch(t, "加QQ", 1);
  }

  predicate NoDuplicates(s: seq<String>)
  {
    forall i, j :: 0 <= i < j < |s| ==> s[i] != s[j]
  }

  /** The distinct entries of `words` that occur in `s`. */
  function Matching(words: seq<String>, s: String): (m: set<String>)
    ensures forall w :: w in m <==> w in words && Contains(s, w)
  {
    if |words| == 0 then {}
    else (if Contains(s, words[0]) then {words[0]} else {}) + Matching(words[1..], s)
  }

  /** On a duplicate-free list, the hit count is the number of distinct matching words. */
  lemma {:induction false} HitsAsSet(words: seq<String>, s: String)
    requires NoDuplicates(words)
    ensures Hits(words, s) == |Matching(words, s)|
  {
    if |words| > 0 {
      var first := words[0];
      var rest := words[1..];
      assert NoDuplicates(rest) by {
        forall i, j | 0 <= i < j < |rest| ensures rest[i] != rest[j] {
          assert rest[i] == words[i + 1] && rest[j] == words[j + 1];
        }
      }
      HitsAsSet(rest, s);
      assert first !in rest by {
        forall j | 0 <= j < |rest| ensures rest[j] != first {
          assert rest[j] == words[j + 1];
        }
      }
      assert first !in Matching(rest, s);
    }
  }

  /**
   * Growing the keyword set (as `update_ad_keywords` does) never turns an
   * advertisement into a non-advertisement.
   */
  lemma MoreKeywordsKeepAds(text: String, before: seq<String>, after: seq<String>, hasContact: String -> bool)
    requires NoDuplicates(before) && NoDuplicates(after)
    requires forall w :: w in before ==> w in after
    requires IsAdvertisement(text, before, hasContact)
    ensures IsAdvertisement(text, after, hasContact)
  {
    var t := Lower(text);
    HitsAsSet(before, t);
    HitsAsSet(after, t);
    SubsetCard(Matching(before, t), Matching(after, t));
  }

  lemma SubsetCard<T>(b: set<T>, a: set<T>)
    requires b <= a
    ensures |b| <= |a|
  {
    assert a == b + (a - b);
  }

  // ---------------------------------------------------------------- spam

  function Distinct(s: String): set<char>
  {
    set i | 0 <= i < |s| :: s[i]
  }

  function CountIn(s: String, chars: set<char>): (n: nat)
    ensures n <= |s|
  {
    if |s| == 0 then 0 else (if s[0] in chars then 1 else 0) + CountIn(s[1..], chars)
  }

  const Punctuation: set<char> := {'!', '！', '?', '？'}

  const AsciiLetters: set<char> := set c: char | 'a' <= c <= 'z' || 'A' <= c <= 'Z'

  const AsciiUpper: set<char> := set c: char | 'A' <= c <= 'Z'

  /**
   * Spam, in integer form: more than 10 characters with fewer than 30%
   * distinct, or more than 20% of the characters `! ！ ? ？`, or more than 10
   * ASCII letters of which more than 80% are upper case.
   */
  predicate IsSpam(text: String)
  {
    (|text| > 10 && 10 * |Distinct(text)| < 3 * |text|)
    || 5 * CountIn(text, Punctuation) > |text|
    || (CountIn(text, AsciiLetters) > 10 && 5 * CountIn(text, AsciiUpper) > 4 * CountIn(text, AsciiLetters))
  }

  /** The same three tests with the ratios the source writes, over exact reals. */
  predicate IsSpamByRatio(text: String)
    requires |text| > 0
  {
    var n := |text| as real;
    ((|Distinct(text)| as real) / n < 0.3 && |text| > 10)
    || (CountIn(text, Punctuation) as real) > n * 0.2
    || (CountIn(text, AsciiLetters) > 10
        && (CountIn(text, AsciiUpper) as real) / (CountIn(text, AsciiLetters) as real) > 0.8)
  }

  lemma SpamMatchesRatios(text: String)
    requires |text| > 0
    ensures IsSpam(text) <==> IsSpamByRatio(text)
  {
    var n := |text| as real;
    var d := |Distinct(text)| as real;
    RatioBelow(d, n, 0.3);
    var letters := CountIn(text, AsciiLetters) as real;
    var upper := CountIn(text, AsciiUpper) as real;
    if CountIn(text, AsciiLetters) > 10 {
      RatioAbove(upper, letters, 0.8);
    }
  }

  lemma RatioBelow(d: real, n: real, k: real)
    requires n > 0.0
    ensures d / n < k <==> d < k * n
  {
    var q := d / n;
    assert d == q * n;
    if q < k {
      assert (k - q) * n > 0.0;
    } else {
      assert (q - k) * n >= 0.0;
    }
  }

  lemma RatioAbove(d: real, n: real, k: real)
    requires n > 0.0
    ensures d / n > k <==> d > k * n
  {
    var q := d / n;
    assert d == q * n;
    if q > k {
      assert (q - k) * n > 0.0;
    } else {
      assert (k - q) * n >= 0.0;
    }
  }

  // ---------------------------------------------------------------- custom rules

  /** `[line for line in text.split('\n') if pattern not in line]`, joined back. */
  function RemoveLines(text: String, pattern: String): String
  {
    Join(KeepLines(Split(text, "\n"), pattern), "\n")
  }

  function KeepLines(lines: seq<String>, pattern: String): (r: seq<String>)
    ensures forall l :: l in r ==> l in lines && !Contains(l, pattern)
    ensures forall l :: l in lines && !Contains(l, pattern) ==> l in r
  {
    if |lines| == 0 then []
    else (if Contains(lines[0], pattern) then [] else [lines[0]]) + KeepLines(lines[1..], pattern)
  }

  /** One rule; `None` when `re.sub` raises. Empty patterns and unknown types change nothing. */
  function ApplyRule(text: String, rule: Rule, regexSub: (String, String, String) -> Option<String>): Option<String>
  {
    if rule.pattern == "" then Some(text)
    else if rule.kind == "regex" then regexSub(rule.pattern, rule.replacement, text)
    else if rule.kind == "keyword" then Some(ReplaceAll(text, rule.pattern, rule.replacement))
    else if rule.kind == "remove_line" then Some(RemoveLines(text, rule.pattern))
    else Some(text)
  }

  /** The rules in order; an exception stops the loop and returns the text reached so far. */
  function CustomRulesResult(text: String, rules: seq<Rule>, regexSub: (String, String, String) -> Option<String>): String
    decreases |rules|
  {
    if |rules| == 0 then text
    else match ApplyRule(text, rules[0], regexSub)
      case None => text
      case Some(t) => CustomRulesResult(t, rules[1..], regexSub)
  }

  method ApplyCustomRules(text: String, rules: seq<Rule>, regexSub: (String, String, String) -> Option<String>)
    returns (r: String)
    ensures r == CustomRulesResult(text, rules, regexSub)
  {
    r := text;
    var i := 0;
    while i < |rules|
      invariant 0 <= i <= |rules|
      invariant CustomRulesResult(r, rules[i..], regexSub) == CustomRulesResult(text, rules, regexSub)
    {
      match ApplyRule(r, rules[i], regexSub)
      case None =>
        return;
      case Some(t) =>
        assert rules[i..][1..] == rules[i + 1..];
        r := t;
      i := i + 1;
    }
  }

  lemma SplitNewlinePieces(text: String)
    ensures forall l :: l in Split(text, "\n") ==> '\n' !in l
  {
    SplitPiecesLackSep(text, "\n");
    forall l | l in Split(text, "\n") ensures '\n' !in l {
      if '\n' in l {
        var i :| 0 <= i < |l| && l[i] == '\n';
        ContainsAt(l, "\n", i);
      }
    }
  }

  /** After a `remove_line` rule no line of the text contains the pattern. */
  lemma RemoveLinesDropsEveryMatch(text: String, pattern: String)
    requires |pattern| > 0
    ensures forall l :: l in Split(RemoveLines(text, pattern), "\n") ==> !Contains(l, pattern)
  {
    var kept := KeepLines(Split(text, "\n"), pattern);
    SplitNewlinePieces(text);
    if |kept| == 0 {
      assert RemoveLines(text, pattern) == "";
      assert Split("", "\n") == [""];
    } else {
      SplitJoinChar(kept, '\n');
    }
  }

  // ---------------------------------------------------------------- whitespace

  /** One iteration of the cleaning loop: keep a line unless it is blank after a blank or at the start. */
  function CleanStep(acc: seq<String>, line: String): seq<String>
  {
    var l := Strip(line);
    if l != "" || (|acc| > 0 && acc[|acc| - 1] != "") then acc + [l] else acc
  }

  function CleanAcc(lines: seq<String>): seq<String>
  {
    if |lines| == 0 then [] else CleanStep(CleanAcc(lines[..|lines| - 1]), lines[|lines| - 1])
  }

  function DropTrailingBlanks(lines: seq<String>): (r: seq<String>)
    ensures |r| <= |lines| && r == lines[..|r|]
    ensures |r| > 0 ==> r[|r| - 1] != ""
  {
    if |lines| > 0 && lines[|lines| - 1] == "" then DropTrailingBlanks(lines[..|lines| - 1]) else lines
  }

  /** `_clean_whitespace`: strip every line, collapse blank runs, drop leading and trailing blanks. */
  function CleanedText(text: String): String
  {
    Join(DropTrailingBlanks(CleanAcc(Split(text, "\n"))), "\n")
  }

  method CleanWhitespace(text: String) returns (r: String)
    ensures r == CleanedText(text)
  {
    var lines := Split(text, "\n");
    var cleaned: seq<String> := [];
    for i := 0 to |lines|
      invariant cleaned == CleanAcc(lines[..i])
    {
      assert lines[..i + 1][..i] == lines[..i];
      var line := Strip(lines[i]);
      if line != "" || (|cleaned| > 0 && cleaned[|cleaned| - 1] != "") {
        cleaned := cleaned + [line];
      }
    }
    assert lines[..|lines|] == lines;
    while |cleaned| > 0 && cleaned[|cleaned| - 1] == ""
      invariant DropTrailingBlanks(cleaned) == DropTrailingBlanks(CleanAcc(lines))
    {
      cleaned := cleaned[..|cleaned| - 1];
    }
    r := Join(cleaned, "\n");
  }

  /** No whitespace at either end, which is what makes `strip()` leave a line alone. */
  predicate Trimmed(l: String)
  {
    |l| > 0 ==> !IsSpace(l[0]) && !IsSpace(l[|l| - 1])
  }

  /** Lines as the cleaner leaves them: stripped, newline-free, no leading blank, no blank after a blank. */
  predicate TidyLines(ls: seq<String>)
  {
    (forall i :: 0 <= i < |ls| ==> Trimmed(ls[i]) && '\n' !in ls[i])
    && (|ls| > 0 ==> ls[0] != "")
    && (forall i :: 0 <= i < |ls| - 1 && ls[i] == "" ==> ls[i + 1] != "")
  }

  lemma {:induction false} CleanAccTidy(lines: seq<String>)
    requires forall l :: l in lines ==> '\n' !in l
    ensures TidyLines(CleanAcc(lines))
    decreases |lines|
  {
    if |lines| > 0 {
      var init := lines[..|lines| - 1];
      assert forall l :: l in init ==> l in lines;
      CleanAccTidy(init);
      assert lines[|lines| - 1] in lines;
      CleanStepTidy(CleanAcc(init), lines[|lines| - 1]);
    }
  }

  lemma CleanStepTidy(acc: seq<String>, line: String)
    requires TidyLines(acc) && '\n' !in line
    ensures TidyLines(CleanStep(acc, line))
  {
    var l := Strip(line);
    assert Trimmed(l) && '\n' !in l;
    if l != "" || (|acc| > 0 && acc[|acc| - 1] != "") {
      AppendTidy(acc, l);
    }
  }

  lemma AppendTidy(acc: seq<String>, l: String)
    requires TidyLines(acc) && Trimmed(l) && '\n' !in l
    requires l != "" || (|acc| > 0 && acc[|acc| - 1] != "")
    ensures TidyLines(acc + [l])
  {
    var r := acc + [l];
    assert forall i :: 0 <= i < |acc| ==> r[i] == acc[i];
    assert r[|acc|] == l;
  }

  lemma {:induction false} CleanAccFixed(ls: seq<String>)
    requires TidyLines(ls)
    ensures CleanAcc(ls) == ls
    decreases |ls|
  {
    if |ls| > 0 {
      var init := ls[..|ls| - 1];
      var last := ls[|ls| - 1];
      assert TidyLines(init);
      CleanAccFixed(init);
      StripNoOp(last);
      if last == "" {
        assert |ls| >= 2 && ls[|ls| - 2] != "";
        assert init[|init| - 1] == ls[|ls| - 2];
      }
      assert CleanStep(init, last) == init + [last];
      assert ls == init + [last];
    }
  }

  lemma DropTrailingTidy(ls: seq<String>)
    requires TidyLines(ls)
    ensures TidyLines(DropTrailingBlanks(ls))
  {
    var r := DropTrailingBlanks(ls);
    assert forall i :: 0 <= i < |r| ==> r[i] == ls[i];
  }

  /** The cleaned text's lines are tidy and the last one is not blank. */
  lemma CleanedTextShape(text: String)
    ensures var ls := DropTrailingBlanks(CleanAcc(Split(text, "\n")));
      TidyLines(ls) && (|ls| > 0 ==> ls[|ls| - 1] != "")
  {
    SplitNewlinePieces(text);
    CleanAccTidy(Split(text, "\n"));
    DropTrailingTidy(CleanAcc(Split(text, "\n")));
  }

  /** Cleaning a cleaned text changes nothing. */
  lemma CleanIdempotent(text: String)
    ensures CleanedText(CleanedText(text)) == CleanedText(text)
  {
    var ls := DropTrailingBlanks(CleanAcc(Split(text, "\n")));
    CleanedTextShape(text);
    if |ls| == 0 {
      assert CleanedText(text) == "";
      assert Split("", "\n") == [""];
      assert CleanAcc([""]) == [];
    } else {
      SplitJoinChar(ls, '\n');
      CleanAccFixed(ls);
    }
  }

  lemma JoinFirst(ls: seq<String>, sep: String)
    requires |ls| > 0 && ls[0] != ""
    ensures var j := Join(ls, sep); |j| > 0 && j[0] == ls[0][0]
  {
  }

  lemma {:induction false} JoinLast(ls: seq<String>, sep: String)
    requires |ls| > 0 && ls[|ls| - 1] != ""
    ensures var j := Join(ls, sep); |j| > 0 && j[|j| - 1] == ls[|ls| - 1][|ls[|ls| - 1]| - 1]
    decreases |ls|
  {
    if |ls| > 1 {
      JoinLast(ls[1..], sep);
    }
  }

  /** Tidy lines ending in a non-blank one join into a text without surrounding whitespace. */
  lemma TidyJoinStripped(ls: seq<String>)
    requires TidyLines(ls) && |ls| > 0 && ls[|ls| - 1] != ""
    ensures Strip(Join(ls, "\n")) == Join(ls, "\n")
  {
    JoinFirst(ls, "\n");
    JoinLast(ls, "\n");
    assert Trimmed(ls[0]) && Trimmed(ls[|ls| - 1]);
    StripNoOp(Join(ls, "\n"));
  }

  /** A cleaned text has no leading or trailing whitespace, so the final `strip()` keeps it. */
  lemma CleanedTextStripped(text: String)
    ensures Strip(CleanedText(text)) == CleanedText(text)
  {
    var ls := DropTrailingBlanks(CleanAcc(Split(text, "\n")));
    CleanedTextShape(text);
    if |ls| > 0 {
      TidyJoinStripped(ls);
    }
  }

  // ---------------------------------------------------------------- filter_text

  /** `filter_text` as a function of the text, the group's settings and the keyword list. */
  function FilteredText(text: String, cfg: FilterSettings, keywords: seq<String>, ops: RegexOps): String
  {
    if text == "" then ""
    else if Enabled(cfg, "ad_detection") && IsAdvertisement(text, keywords, ops.hasContact) then ""
    else if Enabled(cfg, "smart_filter") && IsSpam(text) then ""
    else
      var t1 := if Enabled(cfg, "remove_links") then ops.removeLinks(text) else text;
      var t2 := if Enabled(cfg, "remove_emojis") then ops.removeEmojis(t1) else t1;
      var t3 := if Enabled(cfg, "remove_special_chars") then ops.removeSpecialChars(t2) else t2;
      var t4 := if "custom_rules" in cfg && cfg["custom_rules"].Rules? then CustomRulesResult(t3, cfg["custom_rules"].rules, ops.regexSub) else t3;
      Strip(CleanedText(t4))
  }

  /** A filtered text is empty or has no surrounding whitespace and tidy lines. */
  lemma FilteredTextIsClean(text: String, cfg: FilterSettings, keywords: seq<String>, ops: RegexOps)
    ensures var r := FilteredText(text, cfg, keywords, ops);
      Strip(r) == r && CleanedText(r) == r
  {
    var r := FilteredText(text, cfg, keywords, ops);
    if r != "" {
      var t1 := if Enabled(cfg, "remove_links") then ops.removeLinks(text) else text;
      var t2 := if Enabled(cfg, "remove_emojis") then ops.removeEmojis(t1) else t1;
      var t3 := if Enabled(cfg, "remove_special_chars") then ops.removeSpecialChars(t2) else t2;
      var t4 := if "custom_rules" in cfg && cfg["custom_rules"].Rules? then CustomRulesResult(t3, cfg["custom_rules"].rules, ops.regexSub) else t3;
      CleanedTextStripped(t4);
      CleanIdempotent(t4);
    } else {
      assert Split("", "\n") == [""];
      assert CleanAcc([""]) == [];
    }
  }

  /** Advertisement and spam suppression return the empty text before any rewriting. */
  lemma SuppressionWins(text: String, cfg: FilterSettings, keywords: seq<String>, ops: RegexOps)
    requires (Enabled(cfg, "ad_detection") && IsAdvertisement(text, keywords, ops.hasContact))
      || (Enabled(cfg, "smart_filter") && IsSpam(text))
    ensures FilteredText(text, cfg, keywords, ops) == ""
  {
  }

  /** The message filter, holding the advertisement keyword list. */
  class MessageFilter {
    var adKeywords: seq<String>
    const ops: RegexOps

    constructor (ops: RegexOps)
      ensures adKeywords == DefaultAdKeywords && this.ops == ops
    {
      adKeywords := DefaultAdKeywords;
      this.ops := ops;
    }

    /** `filter_text`, stage by stage. */
    method FilterText(text: String, cfg: FilterSettings) returns (r: String)
      ensures r == FilteredText(text, cfg, adKeywords, ops)
    {
      if text == "" {
        return "";
      }
      var filtered := text;
      if Enabled(cfg, "ad_detection") && IsAdvertisement(filtered, adKeywords, ops.hasContact) {
        return "";
      }
      if Enabled(cfg, "smart_filter") && IsSpam(filtered) {
        return "";
      }
      if Enabled(cfg, "remove_links") {
        filtered := ops.removeLinks(filtered);
      }
      if Enabled(cfg, "remove_emojis") {
        filtered := ops.removeEmojis(filtered);
      }
      if Enabled(cfg, "remove_special_chars") {
        filtered := ops.removeSpecialChars(filtered);
      }
      if "custom_rules" in cfg && cfg["custom_rules"].Rules? {
        filtered := ApplyCustomRules(filtered, cfg["custom_rules"].rules, ops.regexSub);
      }
      filtered := CleanWhitespace(filtered);
      r := Strip(filtered);
    }

    /** `update_ad_keywords`: extend, then de-duplicate (Python leaves the order unspecified). */
    method UpdateAdKeywords(keywords: seq<String>)
      modifies this
      ensures NoDuplicates(adKeywords)
      ensures forall w :: w in adKeywords <==> w in old(adKeywords) || w in keywords
    {
      var all := adKeywords + keywords;
      var unique: seq<String> := [];
      for i := 0 to |all|
        invariant NoDuplicates(unique)
        invariant forall w :: w in unique <==> w in all[..i]
      {
        assert all[..i + 1] == all[..i] + [all[i]];
        if all[i] !in unique {
          unique := unique + [all[i]];
        }
      }
      assert all[..|all|] == all;
      adKeywords := unique;
    }

    /** `get_ad_keywords` returns a copy: a value the caller cannot use to change the list. */
    method GetAdKeywords() returns (r: seq<String>)
      ensures r == adKeywords
    {
      r := adKeywords;
    }
  }
}
