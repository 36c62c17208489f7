/**
 * Time of day as `datetime.strptime(timestamp, "%H:%M")` produces it in
 * set50.test7.py. The page only ever reads the hour back, and the date part
 * strptime fills in (1900-01-01) plays no role, so a time is an hour and a
 * minute. The accepted text is exactly two hour digits, a colon and two
 * minute digits.
 */
module Clock {
  import opened Wrappers

  datatype ClockTime = ClockTime(hour: nat, minute: nat)

  /** Every time the parser can produce lies within one day. */
  predicate Valid(c: ClockTime) {
    c.hour < 24 && c.minute < 60
  }

  predicate IsDigit(ch: char) {
    '0' <= ch <= '9'
  }

  function DigitValue(ch: char): (d: nat)
    requires IsDigit(ch)
    ensures d < 10
  {
    ch as int - '0' as int
  }

  function DigitChar(d: nat): (ch: char)
    requires d < 10
    ensures IsDigit(ch) && DigitValue(ch) == d
  {
    ('0' as int + d) as char
  }

  /** The value of a two-digit field. */
  function TwoDigits(hi: char, lo: char): (n: nat)
    requires IsDigit(hi) && IsDigit(lo)
    ensures n < 100
  {
    10 * DigitValue(hi) + DigitValue(lo)
  }

  /** True when `s` has the shape `DD:DD`. */
  predicate WellShaped(s: string) {
    |s| == 5 && IsDigit(s[0]) && IsDigit(s[1]) && s[2] == ':' && IsDigit(s[3]) && IsDigit(s[4])
  }

  /**
   * Parses an `HH:MM` timestamp; `None` stands for the ValueError strptime
   * raises on text that is not a time of day.
   */
  function ParseClock(s: string): (r: Option<ClockTime>)
    ensures r.Some? ==> WellShaped(s) && Valid(r.value)
    ensures WellShaped(s) && TwoDigits(s[0], s[1]) < 24 && TwoDigits(s[3], s[4]) < 60 ==> r.Some?
  {
    if WellShaped(s) then
      var hour := TwoDigits(s[0], s[1]);
      var minute := TwoDigits(s[3], s[4]);
      if hour < 24 && minute < 60 then Some(ClockTime(hour, minute)) else None
    else
      None
  }

  /** The `HH:MM` text of a time, zero-padded as strftime("%H:%M") writes it. */
  function FormatClock(c: ClockTime): (s: string)
    requires Valid(c)
    ensures WellShaped(s)
  {
    [DigitChar(c.hour / 10), DigitChar(c.hour % 10), ':', DigitChar(c.minute / 10), DigitChar(c.minute % 10)]
  }

  /** Every time of day is read back from its own text. */
  lemma FormatThenParse(c: ClockTime)
    requires Valid(c)
    ensures ParseClock(FormatClock(c)) == Some(c)
  {
    var s := FormatClock(c);
    assert TwoDigits(s[0], s[1]) == c.hour;
    assert TwoDigits(s[3], s[4]) == c.minute;
  }

  /** A timestamp that parses is exactly the text of the time it yields, so parsing loses nothing. */
  lemma ParseThenFormat(s: string)
    requires ParseClock(s).Some?
    ensures FormatClock(ParseClock(s).value) == s
  {
    var c := ParseClock(s).value;
    var t := FormatClock(c);
    assert c.hour / 10 == DigitValue(s[0]) && c.hour % 10 == DigitValue(s[1]);
    assert c.minute / 10 == DigitValue(s[3]) && c.minute % 10 == DigitValue(s[4]);
    assert t[0] == s[0] && t[1] == s[1] && t[3] == s[3] && t[4] == s[4];
  }

  /** Two timestamps that parse to the same time are the same text. */
  lemma ParseInjective(s: string, u: string)
    requires ParseClock(s).Some? && ParseClock(s) == ParseClock(u)
    ensures s == u
  {
    ParseThenFormat(s);
    ParseThenFormat(u);
  }
}
