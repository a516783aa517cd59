/**
 * The clock face of the study timer: `format_time` turns a number of
 * seconds into the text `HH:MM:SS` that the timer shows.
 */
module Clock {
  import opened Wrappers

  /** The three fields that `format_time` prints. */
  datatype Hms = Hms(hours: int, minutes: int, seconds: int)

  /**
   * `divmod(seconds, 3600)` followed by `divmod(rem, 60)`. Python's divmod
   * floors; Dafny's `/` and `%` are Euclidean, and for a positive divisor the
   * two agree, so this is exact for negative totals as well.
   */
  function Split(total: int): (t: Hms)
    ensures t.hours * 3600 + t.minutes * 60 + t.seconds == total
    ensures 0 <= t.minutes < 60 && 0 <= t.seconds < 60
    ensures total >= 0 <==> t.hours >= 0
  {
    var rem := total % 3600;
    Hms(total / 3600, rem / 60, rem % 60)
  }

  predicate IsDigit(c: char) {
    '0' <= c <= '9'
  }

  predicate AllDigits(s: string) {
    forall i :: 0 <= i < |s| ==> IsDigit(s[i])
  }

  function DigitChar(d: int): (c: char)
    requires 0 <= d <= 9
    ensures IsDigit(c) && c as int - '0' as int == d
  {
    ('0' as int + d) as char
  }

  /**
   * The decimal text of `n`, without leading zeros (`str(n)` for n >= 0):
   * all digits, reading back as `n`, one character exactly below 10, and
   * starting with a zero only for zero itself.
   */
  function Digits(n: nat): (s: string)
    ensures |s| >= 1 && AllDigits(s)
    ensures DigitsValue(s) == n
    ensures |s| == 1 <==> n < 10
    ensures 10 <= n < 100 ==> |s| == 2
    ensures n > 0 ==> s[0] != '0'
    decreases n
  {
    if n < 10 then [DigitChar(n)]
    else
      var d := Digits(n / 10);
      var s := d + [DigitChar(n % 10)];
      assert s[..|s| - 1] == d;
      s
  }

  /** The number a string of decimal digits denotes. */
  function DigitsValue(s: string): int
  {
    if s == [] then 0
    else DigitsValue(s[..|s| - 1]) * 10 + (s[|s| - 1] as int - '0' as int)
  }

  /**
   * Python's `f"{n:02}"`: an integer zero-padded to a width of at least two
   * characters. The sign of a negative number counts towards the width, so
   * a negative number is its sign followed by its digits, with no zero
   * between them; only 0..9 get a leading zero.
   */
  function Pad2(n: int): (r: string)
    ensures |r| >= 2 && AllDigits(r[1..])
    ensures IsDigit(r[0]) <==> n >= 0
    ensures n >= 0 ==> DigitsValue(r) == n
    ensures n < 0 ==> r[0] == '-' && DigitsValue(r[1..]) == -n
    ensures 0 <= n < 100 ==> |r| == 2
    ensures n < 0 ==> r[1] != '0'
    ensures n >= 10 ==> r[0] != '0'
  {
    if n < 0 then
      var r := "-" + Digits(-n);
      assert r[1..] == Digits(-n);
      r
    else if n < 10 then
      var r := "0" + Digits(n);
      assert r[..1] == "0";
      r
    else Digits(n)
  }

  /**
   * `format_time(seconds)` (tracker.py lines 36-39): `HH:MM:SS` whose three
   * fields read back as the hours, minutes and seconds of `Split`. The hour
   * field has exactly two characters below 100 hours, which covers every
   * duration the timer's inputs allow; a negative total prints a signed
   * hour field, so the text starts with a digit exactly when the total is
   * not negative. A wider hour field has no leading zero, and neither has
   * the digits after a minus sign.
   */
  function FormatTime(total: int): (r: string)
    ensures |r| >= 8
    ensures ReadClock(r) == Some(Split(total))
    ensures IsDigit(r[0]) <==> total >= 0
    ensures 0 <= total < 100 * 3600 ==> |r| == 8
    ensures total >= 100 * 3600 ==> r[0] != '0'
    ensures total < 0 ==> r[1] != '0'
  {
    var t := Split(total);
    var hh, mm, ss := Pad2(t.hours), Pad2(t.minutes), Pad2(t.seconds);
    assert 0 <= total < 100 * 3600 ==> 0 <= t.hours < 100;
    assert total >= 100 * 3600 ==> t.hours >= 100;
    Fields(hh, mm, ss, t);
    hh + ":" + mm + ":" + ss
  }

  /**
   * Reads a clock text `HH:MM:SS` back into its three fields: two-digit
   * minutes and seconds, and an hour field of any width, all digits or a
   * minus sign followed by digits.
   */
  function ReadClock(text: string): Option<Hms>
  {
    var n := |text|;
    if n >= 8 && text[n - 6] == ':' && text[n - 3] == ':'
       && AllDigits(text[n - 5..n - 3]) && AllDigits(text[n - 2..])
    then
      var hh := text[..n - 6];
      var minutes, seconds := DigitsValue(text[n - 5..n - 3]), DigitsValue(text[n - 2..]);
      if AllDigits(hh) then Some(Hms(DigitsValue(hh), minutes, seconds))
      else if hh[0] == '-' && AllDigits(hh[1..]) then Some(Hms(-DigitsValue(hh[1..]), minutes, seconds))
      else None
    else None
  }

  /** Reads a clock text back into a number of seconds. */
  function ParseTime(text: string): Option<int>
  {
    match ReadClock(text)
    case Some(t) => Some(t.hours * 3600 + t.minutes * 60 + t.seconds)
    case None => None
  }

  /** The clock text of any count of seconds, negative ones included, reads back as that count. */
  lemma FormatTimeRoundTrip(total: int)
    ensures ParseTime(FormatTime(total)) == Some(total)
  {
    ParseClock(FormatTime(total), Split(total), total);
  }

  lemma ParseClock(text: string, t: Hms, total: int)
    requires ReadClock(text) == Some(t) && t.hours * 3600 + t.minutes * 60 + t.seconds == total
    ensures ParseTime(text) == Some(total)
  {
  }

  /**
   * `hh:mm:ss` reads back as `t` when its fields are the padded hours,
   * minutes and seconds of `t`.
   */
  lemma Fields(hh: string, mm: string, ss: string, t: Hms)
    requires |hh| >= 2 && AllDigits(hh[1..]) && (IsDigit(hh[0]) <==> t.hours >= 0)
    requires t.hours >= 0 ==> DigitsValue(hh) == t.hours
    requires t.hours < 0 ==> hh[0] == '-' && DigitsValue(hh[1..]) == -t.hours
    requires |mm| == 2 && AllDigits(mm) && DigitsValue(mm) == t.minutes
    requires |ss| == 2 && AllDigits(ss) && DigitsValue(ss) == t.seconds
    ensures var r := hh + ":" + mm + ":" + ss;
      |r| == |hh| + 6 && r[0] == hh[0] && r[1] == hh[1] && ReadClock(r) == Some(t)
  {
    var r := hh + ":" + mm + ":" + ss;
    var n := |r|;
    assert r[n - 6] == ':' && r[n - 3] == ':';
    assert r[..n - 6] == hh && r[n - 5..n - 3] == mm && r[n - 2..] == ss;
    if t.hours >= 0 {
      assert AllDigits(hh) by {
        assert forall i :: 1 <= i < |hh| ==> hh[i] == hh[1..][i - 1];
      }
    } else {
      assert !IsDigit(hh[0]);
    }
  }

  /** `Split` is the only decomposition with minutes and seconds in 0..59. */
  lemma SplitUnique(total: int, t: Hms)
    requires t.hours * 3600 + t.minutes * 60 + t.seconds == total
    requires 0 <= t.minutes < 60 && 0 <= t.seconds < 60
    ensures t == Split(total)
  {
    var u := Split(total);
    var r := t.minutes * 60 + t.seconds;
    assert 0 <= r < 3600;
    assert u.minutes * 60 + u.seconds < 3600;
    assert (t.hours - u.hours) * 3600 == u.minutes * 60 + u.seconds - r;
    assert t.hours == u.hours;
    assert t.minutes == u.minutes;
  }
}
