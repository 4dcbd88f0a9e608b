/**
 * Times of day and the two clock text formats the medication form uses:
 * the 12-hour pattern "h:mm a" (as in "8:00 AM") and the 24-hour pattern "HH:mm".
 */
module Clock {
  import opened Wrappers
  import opened Text

  /** An hour and a minute, not necessarily a valid time of day. */
  datatype TimeOfDay = TimeOfDay(hour: nat, minute: nat)

  /** A `LocalTime` with minute precision: hour 0 to 23, minute 0 to 59. */
  type Time = t: TimeOfDay | t.hour < 24 && t.minute < 60 witness TimeOfDay(0, 0)

  /** Minutes since midnight: the order `LocalTime` values compare in. */
  function MinuteOfDay(t: Time): int {
    t.hour * 60 + t.minute
  }

  /** The hour shown on a 12-hour clock: 12 for midnight and noon. */
  function ClockHour(hour: nat): (h: nat)
    requires hour < 24
    ensures 1 <= h <= 12
    ensures h % 12 == hour % 12
  {
    if hour % 12 == 0 then 12 else hour % 12
  }

  /** A number written without padding, as pattern letter `h` prints it. */
  function NumberText(n: nat): (s: string)
    requires n < 100
    ensures 1 <= |s| <= 2 && AllDigits(s) && DigitsValue(s) == n
  {
    if n < 10 then [DigitChar(n)]
    else
      TwoDigitText(n)
  }

  /** A number written with two digits, as pattern `mm` or `HH` prints it. */
  function TwoDigitText(n: nat): (s: string)
    requires n < 100
    ensures |s| == 2 && AllDigits(s) && DigitsValue(s) == n
  {
    var s := [DigitChar(n / 10), DigitChar(n % 10)];
    assert s[..1] == [DigitChar(n / 10)];
    assert s[..1][..0] == [];
    assert DigitsValue(s[..1]) == n / 10;
    s
  }

  /** `time.format(ofPattern("h:mm a"))` with English AM/PM markers. */
  function FormatClock(t: Time): (s: string)
    ensures 7 <= |s| <= 8
    ensures forall i :: 0 <= i < |s| ==> s[i] !in {',', '|'}
  {
    NumberText(ClockHour(t.hour)) + ":" + TwoDigitText(t.minute) + " " + (if t.hour < 12 then "AM" else "PM")
  }

  /**
   * `LocalTime.parse(s, ofPattern("h:mm a"))`: one or two hour digits (0 to 12;
   * 12 and 0 both stand for the first hour of the half-day, as java.time's
   * default SMART resolver allows), a colon, two minute digits, a space and AM or PM.
   */
  function ParseClock(s: string): (r: Option<Time>)
    ensures r.Some? ==> (|s| == 7 || |s| == 8) && s[|s| - 6] == ':' && s[|s| - 3] == ' '
    ensures r.Some? ==> AllDigits(s[..|s| - 6]) && DigitsValue(s[..|s| - 6]) <= 12 && r.value.hour % 12 == DigitsValue(s[..|s| - 6]) % 12
    ensures r.Some? ==> AllDigits(s[|s| - 5..|s| - 3]) && r.value.minute == DigitsValue(s[|s| - 5..|s| - 3])
    ensures r.Some? ==> (s[|s| - 2..] == "AM" <==> r.value.hour < 12) && (s[|s| - 2..] == "AM" || s[|s| - 2..] == "PM")
  {
    var hd := |s| - 6;
    if hd < 1 || hd > 2 then None
    else if !(AllDigits(s[..hd]) && s[hd] == ':' && AllDigits(s[hd + 1..hd + 3]) && s[hd + 3] == ' ') then None
    else if s[hd + 4..] != "AM" && s[hd + 4..] != "PM" then None
    else
      var h, m := DigitsValue(s[..hd]), DigitsValue(s[hd + 1..hd + 3]);
      if h > 12 || m > 59 then None
      else Some(TimeOfDay(h % 12 + (if s[hd + 4..] == "PM" then 12 else 0), m))
  }

  /**
   * `LocalTime.parse(s, ofPattern("HH:mm"))`: two hour digits, a colon, two minute
   * digits. The SMART resolver reads 00 to 23 as the hour, and "24:00" (the end
   * of the day) as midnight.
   */
  function ParseTwentyFour(s: string): (r: Option<Time>)
    ensures r.Some? ==> |s| == 5 && s[2] == ':' && AllDigits(s[..2]) && AllDigits(s[3..])
    ensures r.Some? ==> r.value.hour == DigitsValue(s[..2]) % 24 && r.value.minute == DigitsValue(s[3..])
    ensures s == "24:00" ==> r == Some(TimeOfDay(0, 0))
  {
    if |s| != 5 || !AllDigits(s[..2]) || s[2] != ':' || !AllDigits(s[3..]) then None
    else
      var h, m := DigitsValue(s[..2]), DigitsValue(s[3..]);
      TwoDigitsValue(s[..2]);
      TwoDigitsValue(s[3..]);
      if h == 24 && m == 0 then Some(TimeOfDay(0, 0))
      else if h > 23 || m > 59 then None else Some(TimeOfDay(h, m))
  }

  /** The value of a two-digit text, digit by digit. */
  lemma TwoDigitsValue(s: string)
    requires |s| == 2 && AllDigits(s)
    ensures DigitsValue(s) == (s[0] as int - '0' as int) * 10 + (s[1] as int - '0' as int)
  {
    assert s[..1][..0] == [] && s[..1][0] == s[0];
    assert DigitsValue(s[..1]) == s[0] as int - '0' as int;
  }

  /** Parsing the 12-hour text of a time gives the time back. */
  lemma ClockRoundTrip(t: Time)
    ensures ParseClock(FormatClock(t)) == Some(t)
  {
    var hs := NumberText(ClockHour(t.hour));
    var ms := TwoDigitText(t.minute);
    var ap := if t.hour < 12 then "AM" else "PM";
    var s := FormatClock(t);
    var hd := |hs|;
    assert s == hs + ":" + ms + " " + ap;
    assert |s| - 6 == hd;
    assert s[..hd] == hs;
    assert s[hd] == ':';
    assert s[hd + 1..hd + 3] == ms;
    assert s[hd + 3] == ' ';
    assert s[hd + 4..] == ap;
  }

  /** Parsing the two-digit 24-hour text of any time gives that time back. */
  lemma TwentyFourRoundTrip(t: Time)
    ensures ParseTwentyFour(TwoDigitText(t.hour) + ":" + TwoDigitText(t.minute)) == Some(t)
  {
    var s := TwoDigitText(t.hour) + ":" + TwoDigitText(t.minute);
    assert s[..2] == TwoDigitText(t.hour);
    assert s[3..] == TwoDigitText(t.minute);
  }

  /** A 12-hour text that parses reads the same once written out again and parsed. */
  lemma ReparseClock(s: string)
    requires ParseClock(s).Some?
    ensures ParseClock(FormatClock(ParseClock(s).value)) == ParseClock(s)
  {
    ClockRoundTrip(ParseClock(s).value);
  }
}
