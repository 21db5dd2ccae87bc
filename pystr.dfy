// The parts of Python's `str` and `int` semantics the forwarder relies on:
// `split`, `join`, `replace`, `strip`, `lower`/`upper` on ASCII letters,
// `isdigit` on ASCII digits, `int(s)` and `str(n)`.
module PyStr {
  import opened Wrappers

  type String = seq<char>

  /** The characters Python's `str.isspace()` accepts. */
  predicate IsSpace(c: char)
  {
    c == ' ' || ('\t' <= c <= '\r') || ('\U{1c}' <= c <= '\U{1f}')
    || c == '\U{85}' || c == '\U{a0}' || c == '\U{1680}'
    || ('\U{2000}' <= c <= '\U{200a}') || c == '\U{2028}' || c == '\U{2029}'
    || c == '\U{202f}' || c == '\U{205f}' || c == '\U{3000}'
  }

  predicate IsDigit(c: char) { '0' <= c <= '9' }

  /** `s.isdigit()` restricted to ASCII digits: false on the empty string. */
  predicate IsDigits(s: String)
  {
    |s| > 0 && forall i :: 0 <= i < |s| ==> IsDigit(s[i])
  }

  predicate StartsWith(s: String, p: String)
  {
    |p| <= |s| && s[..|p|] == p
  }

  predicate EndsWith(s: String, p: String)
  {
    |p| <= |s| && s[|s| - |p|..] == p
  }

  /** `sub in s`. */
  predicate Contains(s: String, sub: String)
    decreases |s|
  {
    StartsWith(s, sub) || (|s| > 0 && Contains(s[1..], sub))
  }

  lemma {:induction false} ContainsAt(s: String, sub: String, i: nat)
    requires i + |sub| <= |s| && s[i..i + |sub|] == sub
    ensures Contains(s, sub)
    decreases i
  {
    if i > 0 {
      assert s[1..][i - 1..i - 1 + |sub|] == s[i..i + |sub|];
      ContainsAt(s[1..], sub, i - 1);
    }
  }

  lemma {:induction false} ContainsPrefix(s: String, t: String, sub: String)
    requires Contains(s, sub)
    ensures Contains(s + t, sub)
    decreases |s|
  {
    if StartsWith(s, sub) {
      assert (s + t)[..|sub|] == s[..|sub|];
    } else {
      assert (s + t)[1..] == s[1..] + t;
      ContainsPrefix(s[1..], t, sub);
    }
  }

  lemma {:induction false} ContainsSuffix(s: String, t: String, sub: String)
    requires Contains(t, sub)
    ensures Contains(s + t, sub)
    decreases |s|
  {
    if |s| > 0 {
      assert (s + t)[1..] == s[1..] + t;
      ContainsSuffix(s[1..], t, sub);
    } else {
      assert s + t == t;
    }
  }

  // ---------------------------------------------------------------- strip

  function LStrip(s: String): (r: String)
    ensures |r| <= |s| && r == s[|s| - |r|..]
    ensures |r| > 0 ==> !IsSpace(r[0])
    ensures forall i :: 0 <= i < |s| - |r| ==> IsSpace(s[i])
  {
    if |s| > 0 && IsSpace(s[0]) then LStrip(s[1..]) else s
  }

  function RStrip(s: String): (r: String)
    ensures |r| <= |s| && r == s[..|r|]
    ensures |r| > 0 ==> !IsSpace(r[|r| - 1])
    ensures forall i :: |r| <= i < |s| ==> IsSpace(s[i])
  {
    if |s| > 0 && IsSpace(s[|s| - 1]) then RStrip(s[..|s| - 1]) else s
  }

  /** `s.strip()`: removes leading and trailing whitespace. */
  function Strip(s: String): (r: String)
    ensures |r| <= |s|
    ensures |r| > 0 ==> !IsSpace(r[0]) && !IsSpace(r[|r| - 1])
    ensures forall c :: c in r ==> c in s
  {
    var l := LStrip(s);
    assert forall c :: c in l ==> c in s;
    RStrip(l)
  }

  /** A string that neither starts nor ends with whitespace is its own strip. */
  lemma StripNoOp(s: String)
    requires |s| > 0 ==> !IsSpace(s[0]) && !IsSpace(s[|s| - 1])
    ensures Strip(s) == s
  {
  }

  lemma StripIdempotent(s: String)
    ensures Strip(Strip(s)) == Strip(s)
  {
    StripNoOp(Strip(s));
  }

  /** `s.strip()` is empty exactly when every character is whitespace. */
  lemma StripEmptyIffBlank(s: String)
    ensures Strip(s) == [] <==> forall i :: 0 <= i < |s| ==> IsSpace(s[i])
  {
    var l := LStrip(s);
    assert |l| > 0 ==> l[0] == s[|s| - |l|];
  }

  // ---------------------------------------------------------------- case

  function LowerChar(c: char): char
  {
    if 'A' <= c <= 'Z' then (c as int + 32) as char else c
  }

  function UpperChar(c: char): char
  {
    if 'a' <= c <= 'z' then (c as int - 32) as char else c
  }

  /** `s.lower()` on ASCII letters; every other character is kept. */
  function Lower(s: String): (r: String)
    ensures |r| == |s|
    ensures forall i :: 0 <= i < |s| ==> r[i] == LowerChar(s[i])
  {
    if |s| == 0 then [] else [LowerChar(s[0])] + Lower(s[1..])
  }

  /** `s.upper()` on ASCII letters; every other character is kept. */
  function Upper(s: String): (r: String)
    ensures |r| == |s|
    ensures forall i :: 0 <= i < |s| ==> r[i] == UpperChar(s[i])
  {
    if |s| == 0 then [] else [UpperChar(s[0])] + Upper(s[1..])
  }

  lemma LowerIdempotent(s: String)
    ensures Lower(Lower(s)) == Lower(s)
  {
  }

  // ---------------------------------------------------------------- split / join

  /**
   * `s.split(sep)` for a non-empty separator: the string is cut at every
   * occurrence of `sep`, found left to right without overlap.
   */
  function Split(s: String, sep: String): (r: seq<String>)
    requires |sep| > 0
    ensures |r| >= 1
    decreases |s|
  {
    if StartsWith(s, sep) then [""] + Split(s[|sep|..], sep)
    else if |s| == 0 then [""]
    else
      var rest := Split(s[1..], sep);
      [[s[0]] + rest[0]] + rest[1..]
  }

  /** `sep.join(parts)`. */
  function Join(parts: seq<String>, sep: String): String
  {
    if |parts| == 0 then ""
    else if |parts| == 1 then parts[0]
    else parts[0] + sep + Join(parts[1..], sep)
  }

  lemma JoinCons(p: String, parts: seq<String>, sep: String)
    requires |parts| >= 1
    ensures Join([p] + parts, sep) == p + sep + Join(parts, sep)
  {
    assert ([p] + parts)[1..] == parts;
  }

  /** Joining the pieces of a split with the same separator gives the string back. */
  lemma {:induction false} JoinSplit(s: String, sep: String)
    requires |sep| > 0
    ensures Join(Split(s, sep), sep) == s
    decreases |s|
  {
    if StartsWith(s, sep) {
      JoinSplit(s[|sep|..], sep);
      JoinSplitSep(s, sep);
    } else if |s| > 0 {
      JoinSplit(s[1..], sep);
      JoinSplitStep(s, sep);
    }
  }

  /** One step of `JoinSplit`: a leading separator opens an empty first piece. */
  lemma JoinSplitSep(s: String, sep: String)
    requires |sep| > 0 && StartsWith(s, sep)
    requires Join(Split(s[|sep|..], sep), sep) == s[|sep|..]
    ensures Join(Split(s, sep), sep) == s
  {
    var tail := s[|sep|..];
    var pieces := Split(tail, sep);
    calc {
      Join(Split(s, sep), sep);
      Join([""] + pieces, sep);
      { JoinCons("", pieces, sep); }
      "" + sep + tail;
      { assert "" + sep == sep; }
      sep + tail;
      { assert s[..|sep|] == sep; }
      s[..|sep|] + s[|sep|..];
      s;
    }
  }

  /** One step of `JoinSplit`: the first character joins the first piece. */
  lemma JoinSplitStep(s: String, sep: String)
    requires |sep| > 0 && |s| > 0 && !StartsWith(s, sep)
    requires Join(Split(s[1..], sep), sep) == s[1..]
    ensures Join(Split(s, sep), sep) == s
  {
    var rest := Split(s[1..], sep);
    var head := [s[0]] + rest[0];
    assert Split(s, sep) == [head] + rest[1..];
    if |rest| == 1 {
      assert [head] + rest[1..] == [head];
      assert s == [s[0]] + s[1..];
    } else {
      JoinHead(rest, sep, [s[0]]);
      assert s == [s[0]] + s[1..];
    }
  }

  /** Prepending to the first piece prepends to the joined string. */
  lemma JoinHead(parts: seq<String>, sep: String, pre: String)
    requires |parts| >= 2
    ensures Join([pre + parts[0]] + parts[1..], sep) == pre + Join(parts, sep)
  {
    var tail := parts[1..];
    var j := Join(tail, sep);
    assert parts == [parts[0]] + tail;
    JoinCons(parts[0], tail, sep);
    JoinCons(pre + parts[0], tail, sep);
    calc {
      Join([pre + parts[0]] + tail, sep);
      (pre + parts[0]) + sep + j;
      pre + (parts[0] + sep + j);
      pre + Join(parts, sep);
    }
  }

  /** A string holding the separator splits into at least two pieces. */
  lemma {:induction false} ContainsSplitsTwo(s: String, sep: String)
    requires |sep| > 0 && Contains(s, sep)
    ensures |Split(s, sep)| >= 2
    decreases |s|
  {
    if !StartsWith(s, sep) {
      ContainsSplitsTwo(s[1..], sep);
    }
  }

  /** A join of two or more pieces ends with the separator and the last piece. */
  lemma {:induction false} JoinEndsWithLast(parts: seq<String>, sep: String)
    requires |parts| >= 2
    ensures EndsWith(Join(parts, sep), sep + parts[|parts| - 1])
    decreases |parts|
  {
    var tail := parts[1..];
    var x := sep + parts[|parts| - 1];
    if |tail| >= 2 {
      JoinEndsWithLast(tail, sep);
      assert tail[|tail| - 1] == parts[|parts| - 1];
      var a, b := parts[0] + sep, Join(tail, sep);
      assert Join(parts, sep) == a + b;
      assert (a + b)[|a + b| - |x|..] == b[|b| - |x|..];
    } else {
      assert Join(parts, sep) == parts[0] + x;
    }
  }

  /**
   * What `s.split(sep)[-1]` is when `sep` occurs in `s`: the text after the
   * last occurrence, so `s` ends with the separator and that piece, and the
   * piece holds no separator.
   */
  lemma SplitLastPiece(s: String, sep: String)
    requires |sep| > 0 && Contains(s, sep)
    ensures var parts := Split(s, sep);
      EndsWith(s, sep + parts[|parts| - 1]) && !Contains(parts[|parts| - 1], sep)
  {
    var parts := Split(s, sep);
    ContainsSplitsTwo(s, sep);
    JoinSplit(s, sep);
    JoinEndsWithLast(parts, sep);
    SplitPiecesLackSep(s, sep);
    assert parts[|parts| - 1] in parts;
  }

  /** No piece produced by `split` contains the separator. */
  lemma {:induction false} SplitPiecesLackSep(s: String, sep: String)
    requires |sep| > 0
    ensures forall p :: p in Split(s, sep) ==> !Contains(p, sep)
    decreases |s|
  {
    if StartsWith(s, sep) {
      SplitPiecesLackSep(s[|sep|..], sep);
    } else if |s| == 0 {
    } else {
      var rest := Split(s[1..], sep);
      SplitPiecesLackSep(s[1..], sep);
      var head := [s[0]] + rest[0];
      JoinSplit(s[1..], sep);
      if |rest| > 1 {
        JoinCons(rest[0], rest[1..], sep);
        assert rest == [rest[0]] + rest[1..];
      }
      assert StartsWith(s[1..], rest[0]);
      assert s[..|head|] == head;
      assert |sep| <= |head| ==> s[..|sep|] == head[..|sep|];
      assert head[1..] == rest[0];
      assert !Contains(head, sep);
    }
  }

  /** A string without the separator splits into itself alone. */
  lemma {:induction false} SplitWithoutSep(s: String, sep: String)
    requires |sep| > 0 && !Contains(s, sep)
    ensures Split(s, sep) == [s]
    decreases |s|
  {
    if |s| > 0 {
      assert !StartsWith(s, sep) && !Contains(s[1..], sep);
      SplitWithoutSep(s[1..], sep);
      assert s == [s[0]] + s[1..];
    }
  }

  /** A string lacking one of the characters of `sub` does not contain `sub`. */
  lemma {:induction false} MissingCharNoMatch(s: String, sub: String, j: nat)
    requires j < |sub| && sub[j] !in s
    ensures !Contains(s, sub)
    decreases |s|
  {
    assert |sub| <= |s| ==> s[..|sub|][j] == s[j];
    if |s| > 0 {
      MissingCharNoMatch(s[1..], sub, j);
    }
  }

  /** Splitting `p + [c] + rest` at `c` when `p` has no `c` yields `p` first. */
  lemma {:induction false} SplitAfterPiece(p: String, rest: String, c: char)
    requires c !in p
    ensures Split(p + [c] + rest, [c]) == [p] + Split(rest, [c])
    decreases |p|
  {
    var s := p + [c] + rest;
    if |p| == 0 {
      assert s == [c] + rest;
      assert StartsWith(s, [c]);
      assert s[1..] == rest;
    } else {
      assert s[0] == p[0] && p[0] in p;
      assert !StartsWith(s, [c]);
      assert s[1..] == p[1..] + [c] + rest;
      SplitAfterPiece(p[1..], rest, c);
      assert [p[0]] + p[1..] == p;
    }
  }

  /** Splitting a join at a one-character separator that no piece contains gives the pieces back. */
  lemma {:induction false} SplitJoinChar(lines: seq<String>, c: char)
    requires |lines| >= 1
    requires forall l :: l in lines ==> c !in l
    ensures Split(Join(lines, [c]), [c]) == lines
    decreases |lines|
  {
    if |lines| == 1 {
      MissingCharNoMatch(lines[0], [c], 0);
      SplitWithoutSep(lines[0], [c]);
    } else {
      SplitJoinChar(lines[1..], c);
      SplitAfterPiece(lines[0], Join(lines[1..], [c]), c);
      assert [lines[0]] + lines[1..] == lines;
    }
  }

  /** `s.replace(pat, repl)`: every occurrence of `pat`, left to right, replaced by `repl`. */
  function ReplaceAll(s: String, pat: String, repl: String): String
    requires |pat| > 0
  {
    Join(Split(s, pat), repl)
  }

  /**
   * The replacement is read off a decomposition of `s` into pieces free of
   * `pat` and glued by `pat`; the same pieces glued by `repl` are the result.
   */
  lemma ReplaceAllSpec(s: String, pat: String, repl: String)
    requires |pat| > 0
    ensures var pieces := Split(s, pat);
      Join(pieces, pat) == s
      && (forall p :: p in pieces ==> !Contains(p, pat))
      && ReplaceAll(s, pat, repl) == Join(pieces, repl)
  {
    JoinSplit(s, pat);
    SplitPiecesLackSep(s, pat);
  }

  lemma ReplaceAllAbsent(s: String, pat: String, repl: String)
    requires |pat| > 0 && !Contains(s, pat)
    ensures ReplaceAll(s, pat, repl) == s
  {
    SplitWithoutSep(s, pat);
  }

  /** The number of non-overlapping occurrences `s.count(sub)` finds. */
  function CountOf(s: String, sub: String): (n: nat)
    requires |sub| > 0
    ensures n == |Split(s, sub)| - 1
    decreases |s|
  {
    if StartsWith(s, sub) then 1 + CountOf(s[|sub|..], sub)
    else if |s| == 0 then 0
    else CountOf(s[1..], sub)
  }

  // ---------------------------------------------------------------- int(s) and str(n)

  function DigitValue(c: char): nat
    requires IsDigit(c)
  {
    c as int - '0' as int
  }

  function DigitChar(d: nat): (c: char)
    requires d < 10
    ensures IsDigit(c) && DigitValue(c) == d
  {
    ('0' as int + d) as char
  }

  /**
   * The digit groups `int()` accepts after the sign: ASCII digits with single
   * underscores allowed between two digits.
   */
  predicate ValidDigits(d: String)
  {
    |d| > 0 && IsDigit(d[0]) && IsDigit(d[|d| - 1])
    && (forall i :: 0 <= i < |d| ==> IsDigit(d[i]) || d[i] == '_')
    && (forall i :: 0 <= i < |d| - 1 && d[i] == '_' ==> d[i + 1] != '_')
  }

  /** The value of a digit group, underscores ignored. */
  function DigitsValue(d: String): nat
    requires forall i :: 0 <= i < |d| ==> IsDigit(d[i]) || d[i] == '_'
  {
    if |d| == 0 then 0
    else if d[|d| - 1] == '_' then DigitsValue(d[..|d| - 1])
    else 10 * DigitsValue(d[..|d| - 1]) + DigitValue(d[|d| - 1])
  }

  /**
   * Python's `int(s)` on a string: surrounding whitespace is ignored, an
   * optional sign, then a digit group. `None` stands for the `ValueError`.
   */
  function ParseInt(s: String): Option<int>
  {
    var t := Strip(s);
    if |t| > 0 && (t[0] == '-' || t[0] == '+') then
      if ValidDigits(t[1..]) then
        Some(if t[0] == '-' then -(DigitsValue(t[1..]) as int) else DigitsValue(t[1..]))
      else None
    else if ValidDigits(t) then Some(DigitsValue(t))
    else None
  }

  /** `str(n)` for a natural number. */
  function NatToString(n: nat): (r: String)
    ensures |r| > 0 && forall i :: 0 <= i < |r| ==> IsDigit(r[i])
  {
    if n < 10 then [DigitChar(n)] else NatToString(n / 10) + [DigitChar(n % 10)]
  }

  /** `str(n)` for any integer. */
  function IntToString(n: int): (r: String)
    ensures |r| > 0
  {
    if n < 0 then "-" + NatToString(-n) else NatToString(n)
  }

  lemma {:induction false} NatToStringValue(n: nat)
    ensures DigitsValue(NatToString(n)) == n
  {
    if n >= 10 {
      var r := NatToString(n);
      NatToStringValue(n / 10);
      assert r[..|r| - 1] == NatToString(n / 10);
    }
  }

  /** `int(str(n)) == n`: the decimal rendering of an integer parses back to it. */
  lemma ParseIntToString(n: int)
    ensures ParseInt(IntToString(n)) == Some(n)
  {
    var s := IntToString(n);
    var d := NatToString(if n < 0 then -n else n);
    NatToStringValue(if n < 0 then -n else n);
    assert !IsSpace(d[|d| - 1]);
    assert s[|s| - 1] == d[|d| - 1];
    StripNoOp(s);
    if n < 0 {
      assert s[1..] == d;
    }
  }

  /** `str` is injective on integers. */
  lemma IntToStringInjective(a: int, b: int)
    requires IntToString(a) == IntToString(b)
    ensures a == b
  {
    ParseIntToString(a);
    ParseIntToString(b);
  }

  /** Two strings equal after the same suffix is dropped from both were equal before. */
  lemma SameSuffix(a: String, b: String, s: String)
    requires a + s == b + s
    ensures a == b
  {
    assert |a| == |b|;
    assert a == (a + s)[..|a|];
    assert b == (b + s)[..|b|];
  }

  /** Two strings equal after the same prefix is dropped from both were equal before. */
  lemma SamePrefix(p: String, a: String, b: String)
    requires p + a == p + b
    ensures a == b
  {
    assert a == (p + a)[|p|..];
    assert b == (p + b)[|p|..];
  }
}
