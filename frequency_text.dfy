/**
 * The text forms of a frequency: the form's `"Daily"` / `"Mon, Wed"` string,
 * its parser, and the card's label.
 */
module FrequencyText {
  import opened Wrappers
  import opened Text
  import opened Lists
  import opened MedicationModel

  /** The short day name, taken to be what `DayOfWeek.toString` prints. */
  function DayName(d: DayOfWeek): string {
    match d
    case Monday => "Mon"
    case Tuesday => "Tue"
    case Wednesday => "Wed"
    case Thursday => "Thu"
    case Friday => "Fri"
    case Saturday => "Sat"
    case Sunday => "Sun"
  }

  /** The `when (dayStr.trim())` of both parsers: a trimmed day name, or nothing. */
  function DayFromToken(token: string): (r: Option<DayOfWeek>)
    ensures r.Some? ==> Trim(token) == DayName(r.value)
    ensures r.None? ==> forall d :: Trim(token) != DayName(d)
  {
    var t := Trim(token);
    if t == "Mon" then Some(Monday)
    else if t == "Tue" then Some(Tuesday)
    else if t == "Wed" then Some(Wednesday)
    else if t == "Thu" then Some(Thursday)
    else if t == "Fri" then Some(Friday)
    else if t == "Sat" then Some(Saturday)
    else if t == "Sun" then Some(Sunday)
    else None
  }

  /** `mapNotNull { … }.toSet()`: the days named by the tokens; unknown tokens are dropped. */
  function TokenDays(tokens: seq<string>): (r: set<DayOfWeek>)
    ensures forall i :: 0 <= i < |tokens| && DayFromToken(tokens[i]).Some? ==> DayFromToken(tokens[i]).value in r
    ensures forall d :: d in r ==> exists i :: 0 <= i < |tokens| && DayFromToken(tokens[i]) == Some(d)
  {
    set i | 0 <= i < |tokens| && DayFromToken(tokens[i]).Some? :: DayFromToken(tokens[i]).value
  }

  /** The modal's `parseFrequencyString`: "Daily" is the whole week; the set may come out empty. */
  function ParseDaySet(s: string): (r: set<DayOfWeek>)
    ensures s == "Daily" ==> r == AllDays
    ensures s != "Daily" ==> r == TokenDays(Split(s, ", "))
  {
    if s == "Daily" then AllDays else TokenDays(Split(s, ", "))
  }

  /** The form's `parseFrequency`: "Daily", or the named days, with no named day read as Daily. */
  function ParseFrequency(s: string): (r: Frequency)
    ensures s == "Daily" ==> r == Daily
    ensures r.SpecificDays? ==> r.days != {} && r.days == ParseDaySet(s)
    ensures r == Daily <==> s == "Daily" || ParseDaySet(s) == {}
  {
    if s == "Daily" then Daily
    else
      var days := TokenDays(Split(s, ", "));
      if days == {} then Daily else SpecificDays(days)
  }

  /** The selected days in calendar order. */
  function Ordered(days: set<DayOfWeek>): (r: seq<DayOfWeek>)
    ensures forall i :: 0 <= i < |r| ==> r[i] in days
    ensures forall d :: d in days ==> d in r
  {
    forall d | d in days ensures d in Week {
      InAllDays(d);
    }
    Filter(Week, d => d in days)
  }

  /** The names of the selected days in calendar order. */
  function Names(days: set<DayOfWeek>): (r: seq<string>)
    ensures |r| == |Ordered(days)|
    ensures forall i :: 0 <= i < |r| ==> r[i] == DayName(Ordered(days)[i])
  {
    var ordered := Ordered(days);
    seq(|ordered|, i requires 0 <= i < |ordered| => DayName(ordered[i]))
  }

  /** `days.joinToString(", ")`, the names in calendar order. */
  function DaysText(days: set<DayOfWeek>): string {
    Join(Names(days), ", ")
  }

  /** The form's `formatFrequencyToString`: a full week collapses to "Daily". */
  function FormatFrequency(f: Frequency): (s: string)
    ensures f == Daily ==> s == "Daily"
    ensures f.SpecificDays? && f.days == AllDays ==> s == "Daily"
    ensures f.SpecificDays? && f.days != AllDays ==> s == DaysText(f.days) && s != "Daily"
  {
    match f
    case Daily => "Daily"
    case SpecificDays(days) =>
      FullWeek(days);
      if |days| == 7 then "Daily" else DaysTextNotDaily(days); DaysText(days)
  }

  /** The card's `formatFrequencyLabel`: "Custom" for no days; a full week is spelled out. */
  function FrequencyLabel(f: Frequency): (s: string)
    ensures f == Daily ==> s == "Daily"
    ensures f.SpecificDays? && f.days == {} ==> s == "Custom"
    ensures f.SpecificDays? && f.days != {} ==> s == DaysText(f.days) && ParseDaySet(s) == f.days
  {
    match f
    case Daily => "Daily"
    case SpecificDays(days) =>
      if days == {} then "Custom" else DaysTextRoundTrip(days); DaysText(days)
  }

  /** Each day name is read back as its day and holds no comma. */
  lemma NameRecognised(d: DayOfWeek)
    ensures DayFromToken(DayName(d)) == Some(d)
    ensures ',' !in DayName(d)
  {
    var n := DayName(d);
    assert |n| == 3 && !IsWhitespace(n[0]) && !IsWhitespace(n[2]);
    TrimUntouched(n);
  }

  /** A list of three-letter names joined by ", " never reads "Daily". */
  lemma JoinedNamesNotDaily(names: seq<string>)
    requires forall i :: 0 <= i < |names| ==> |names[i]| == 3
    ensures Join(names, ", ") != "Daily"
  {
    if |names| > 1 {
      var joined := Join(names, ", ");
      assert joined == names[0] + ", " + Join(names[1..], ", ");
      assert joined[3] == ',';
    }
  }

  /** The text only says "Daily" when it is not a list of day names. */
  lemma DaysTextNotDaily(days: set<DayOfWeek>)
    ensures DaysText(days) != "Daily"
  {
    var names := Names(days);
    assert forall i :: 0 <= i < |names| ==> |names[i]| == 3;
    JoinedNamesNotDaily(names);
  }

  /** No day selected gives the empty text, which names no day. */
  lemma EmptyDaysText(days: set<DayOfWeek>)
    requires Names(days) == []
    ensures days == {}
    ensures ParseDaySet(DaysText(days)) == {}
  {
    assert |Ordered(days)| == 0;
    assert DaysText(days) == "";
    assert Split("", ", ") == [""];
    assert Trim("") == "";
  }

  /** The day names read back as exactly the days. */
  lemma TokenDaysOfNames(days: set<DayOfWeek>)
    ensures TokenDays(Names(days)) == days
  {
    var ordered := Ordered(days);
    var names := Names(days);
    forall i | 0 <= i < |names| ensures DayFromToken(names[i]) == Some(ordered[i]) {
      NameRecognised(ordered[i]);
    }
    forall d | d in days ensures d in TokenDays(names) {
      var i :| 0 <= i < |ordered| && ordered[i] == d;
      assert DayFromToken(names[i]) == Some(d);
    }
  }

  /** The day text splits back into the day names. */
  lemma SplitDaysText(days: set<DayOfWeek>)
    requires |Names(days)| > 0
    ensures Split(DaysText(days), ", ") == Names(days)
  {
    var ordered := Ordered(days);
    var names := Names(days);
    forall i | 0 <= i < |names| ensures ',' !in names[i] {
      NameRecognised(ordered[i]);
    }
    SplitJoin(names, ", ");
  }

  /** Reading the day text back gives exactly the days, for every set, the empty one included. */
  lemma DaysTextRoundTrip(days: set<DayOfWeek>)
    ensures DaysText(days) != "Daily"
    ensures ParseDaySet(DaysText(days)) == days
  {
    DaysTextNotDaily(days);
    if |Names(days)| == 0 {
      EmptyDaysText(days);
    } else {
      SplitDaysText(days);
      TokenDaysOfNames(days);
    }
  }

  /** A frequency whose form text reads back differently only when it has no day or every day. */
  function Normalize(f: Frequency): Frequency {
    if f.SpecificDays? && (f.days == {} || f.days == AllDays) then Daily else f
  }

  /**
   * Formatting then parsing gives the frequency back, except that no day and
   * every day both come back as Daily.
   */
  lemma FormatParseRoundTrip(f: Frequency)
    ensures ParseFrequency(FormatFrequency(f)) == Normalize(f)
  {
    if f.SpecificDays? && f.days != AllDays {
      DaysTextRoundTrip(f.days);
    }
  }

  /** The card and the form disagree on a full week. */
  lemma LabelSpellsOutFullWeek(days: set<DayOfWeek>)
    requires |days| == 7
    ensures FormatFrequency(SpecificDays(days)) == "Daily"
    ensures FrequencyLabel(SpecificDays(days)) != "Daily"
  {
    DaysTextNotDaily(days);
  }
}
