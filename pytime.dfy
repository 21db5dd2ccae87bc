// Times of day as Python's `datetime.time` sees them, and the schedule window
// rule shared by the group pipeline and the scheduler.
module PyTime {
  import opened Wrappers
  import opened PyStr

  const MicrosPerSecond: nat := 1000000
  const MicrosPerMinute: nat := 60 * MicrosPerSecond
  const MicrosPerDay: nat := 24 * 60 * MicrosPerMinute

  /** A `datetime.time` without time zone, as microseconds since midnight. */
  type TimeOfDay = t: int | 0 <= t < MicrosPerDay

  function Clock(h: nat, m: nat, s: nat, us: nat): int
  {
    ((h * 60 + m) * 60 + s) * MicrosPerSecond + us
  }

  lemma ClockBound(h: nat, m: nat, s: nat, us: nat)
    requires h < 24 && m < 60 && s < 60 && us < MicrosPerSecond
    ensures 0 <= Clock(h, m, s, us) < MicrosPerDay
  {
    assert (h * 60 + m) * 60 + s <= 86399;
  }

  function Pow10(n: nat): nat
  {
    if n == 0 then 1 else 10 * Pow10(n - 1)
  }

  lemma {:induction false} DigitsBound(d: String)
    requires forall i :: 0 <= i < |d| ==> IsDigit(d[i])
    ensures DigitsValue(d) < Pow10(|d|)
  {
    if |d| > 0 {
      DigitsBound(d[..|d| - 1]);
    }
  }

  /** A fixed-width field of ASCII digits. */
  function Field(s: String): Option<nat>
  {
    if IsDigits(s) then Some(DigitsValue(s)) else None
  }

  /**
   * `time.fromisoformat(s)` on the documented grammar
   * `HH[:MM[:SS[.fff[fff]]]]` (no UTC offset): every field has exactly two
   * digits, the fraction three or six, and the hour, minute and second must
   * be in range. `None` stands for the `ValueError`.
   */
  function FromIsoFormat(s: String): (r: Option<TimeOfDay>)
    ensures r.Some? ==> |s| == 2 || |s| == 5 || |s| == 8 || |s| == 12 || |s| == 15
  {
    var n := |s|;
    if !(n == 2 || n == 5 || n == 8 || n == 12 || n == 15) then None
    else if (n >= 5 && s[2] != ':') || (n >= 8 && s[5] != ':') || (n >= 12 && s[8] != '.') then None
    else
      var h := Field(s[0..2]);
      var m := if n >= 5 then Field(s[3..5]) else Some(0);
      var sec := if n >= 8 then Field(s[6..8]) else Some(0);
      var frac := if n >= 12 then Field(s[9..]) else Some(0);
      if h.None? || m.None? || sec.None? || frac.None? then None
      else if h.value < 24 && m.value < 60 && sec.value < 60 then
        var us := if n == 12 then frac.value * 1000 else frac.value;
        assert us < MicrosPerSecond by {
          if n >= 12 { DigitsBound(s[9..]); }
        }
        ClockBound(h.value, m.value, sec.value, us);
        Some(Clock(h.value, m.value, sec.value, us))
      else None
  }

  /** Two-digit zero-padded rendering, as `%02d` writes it. */
  function Pad2(n: nat): (r: String)
    requires n < 100
    ensures |r| == 2 && IsDigits(r)
  {
    [DigitChar(n / 10), DigitChar(n % 10)]
  }

  /** The reduced-accuracy `hh:mm` form of ISO 8601 (section 4.2.2.3 of ISO 8601:2004). */
  function FormatHHMM(h: nat, m: nat): String
    requires h < 24 && m < 60
  {
    Pad2(h) + ":" + Pad2(m)
  }

  /** Every `hh:mm` time parses back to that hour and minute. */
  lemma FromIsoFormatHHMM(h: nat, m: nat)
    requires h < 24 && m < 60
    ensures FromIsoFormat(FormatHHMM(h, m)) == Some(Clock(h, m, 0, 0))
  {
    var s := FormatHHMM(h, m);
    assert s[0..2] == Pad2(h) && s[3..5] == Pad2(m);
    Pad2Value(h);
    Pad2Value(m);
  }

  /** `%02d` reads back as the number it renders. */
  lemma Pad2Value(n: nat)
    requires n < 100
    ensures DigitsValue(Pad2(n)) == n
  {
    var p := Pad2(n);
    var hi := [DigitChar(n / 10)];
    assert p[..1] == hi && p[1] == DigitChar(n % 10);
    assert hi[..0] == [];
    assert DigitsValue(hi) == n / 10;
  }

  /** A one-digit hour such as `9:00` is not in the grammar. */
  lemma FromIsoFormatRejectsShortHour()
    ensures FromIsoFormat("9:00") == None
  {
  }

  /**
   * The schedule window: a same-day window `start <= end` is inclusive at
   * both ends; an overnight window `start > end` holds from `start` through
   * midnight until `end`.
   */
  predicate InWindow(now: TimeOfDay, start: TimeOfDay, end: TimeOfDay)
  {
    if start <= end then start <= now <= end else now >= start || now <= end
  }

  /** An overnight window is the complement of the open interval (end, start). */
  lemma OvernightWindow(now: TimeOfDay, start: TimeOfDay, end: TimeOfDay)
    requires start > end
    ensures InWindow(now, start, end) <==> !(end < now < start)
  {
  }

  /** The window 22:00-08:00 contains midnight, both ends, and nothing from 08:01 to 21:59. */
  lemma OvernightExample(now: TimeOfDay)
    ensures var start := Clock(22, 0, 0, 0);
      var end := Clock(8, 0, 0, 0);
      InWindow(0, start, end) && InWindow(start, start, end) && InWindow(end, start, end)
      && (Clock(8, 1, 0, 0) <= now <= Clock(21, 59, 0, 0) ==> !InWindow(now, start, end))
  {
  }
}
