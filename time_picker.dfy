/**
 * The time entry dialog of the medication form: hour and minute text fields,
 * an AM/PM choice, and the OK button that adds a time to the list or
 * replaces the edited one.
 */
module TimePicker {
  import opened Wrappers
  import opened Text
  import opened Lists
  import opened Clock
  import opened MedicationForm

  /** The hour shown for a 24-hour hour: 12 for midnight, the hour less twelve after noon. */
  function DisplayHour(hour: nat): (h: nat)
    requires hour < 24
    ensures 1 <= h <= 12
    ensures h % 12 == hour % 12
  {
    if hour > 12 then hour - 12 else if hour == 0 then 12 else hour
  }

  function IsAM(hour: nat): bool {
    hour < 12
  }

  /** The OK button's 12-hour to 24-hour conversion. */
  function To24(hour: nat, isAM: bool): (h: nat)
    requires 1 <= hour <= 12
    ensures h < 24
    ensures isAM <==> h < 12
    ensures DisplayHour(h) == hour
  {
    if hour == 12 && isAM then 0
    else if hour == 12 && !isAM then 12
    else if isAM then hour
    else hour + 12
  }

  /** Showing an hour and converting it back gives the same hour. */
  lemma DisplayRoundTrip(hour: nat)
    requires hour < 24
    ensures To24(DisplayHour(hour), IsAM(hour)) == hour
  {
  }

  /** The dialog opens on the edited time, or on 9:00 when the index is not a position of the list. */
  function InitialTime(times: seq<string>, index: int): (r: (nat, nat))
    ensures r.0 < 24 && r.1 < 60
    ensures !(0 <= index < |times|) ==> r == (9, 0)
    ensures 0 <= index < |times| ==> r == ParseTimeToHourMinute(times[index])
  {
    if 0 <= index < |times| then ParseTimeToHourMinute(times[index]) else (9, 0)
  }

  /** A field only takes text of at most two digits. */
  predicate Accepts(s: string) {
    |s| <= 2 && AllDigits(s)
  }

  /** The largest value of a Kotlin `Int`. */
  const IntMax: nat := 0x7fff_ffff

  /** `toIntOrNull` on ASCII text: the value of a non-empty digit string that fits an `Int`. */
  function ToIntOrNull(s: string): (r: Option<nat>)
    ensures r.Some? <==> s != [] && AllDigits(s) && DigitsValue(s) <= IntMax
    ensures r.Some? ==> r.value == DigitsValue(s)
  {
    if s == [] || !AllDigits(s) || DigitsValue(s) > IntMax then None else Some(DigitsValue(s))
  }

  /** Text of at most two digits has a value below one hundred. */
  lemma ShortDigitsValue(s: string)
    requires |s| <= 2 && AllDigits(s)
    ensures DigitsValue(s) < 100
  {
    if |s| == 2 {
      TwoDigitsValue(s);
    } else if |s| == 1 {
      assert s[..0] == [];
    }
  }

  /** The error a field shows: required, then a number, then within `lo..hi`. */
  function FieldError(s: string, lo: nat, hi: nat, rangeMessage: string): (e: string)
    requires rangeMessage != ""
    ensures e == "" <==> ToIntOrNull(s).Some? && lo <= ToIntOrNull(s).value <= hi
    ensures s == [] ==> e == "Required"
  {
    if s == [] then "Required"
    else if ToIntOrNull(s).None? then "Invalid"
    else if ToIntOrNull(s).value < lo || ToIntOrNull(s).value > hi then rangeMessage
    else ""
  }

  /** Text a field accepted is never reported as not a number. */
  lemma AcceptedIsNumberOrEmpty(s: string)
    requires Accepts(s)
    ensures FieldError(s, 1, 12, "1-12 only") != "Invalid" && FieldError(s, 0, 59, "0-59 only") != "Invalid"
  {
    ShortDigitsValue(s);
  }

  /** The hour field's error: "Required", "Invalid", "1-12 only" or none. */
  function HourError(s: string): (e: string)
    ensures e == "" <==> ToIntOrNull(s).Some? && 1 <= ToIntOrNull(s).value <= 12
    ensures s == [] ==> e == "Required"
    ensures s != [] && AllDigits(s) && DigitsValue(s) <= IntMax && !(1 <= DigitsValue(s) <= 12) ==> e == "1-12 only"
  {
    FieldError(s, 1, 12, "1-12 only")
  }

  /** The minute field's error: "Required", "Invalid", "0-59 only" or none. */
  function MinuteError(s: string): (e: string)
    ensures e == "" <==> ToIntOrNull(s).Some? && ToIntOrNull(s).value <= 59
    ensures s == [] ==> e == "Required"
    ensures s != [] && AllDigits(s) && 59 < DigitsValue(s) <= IntMax ==> e == "0-59 only"
  {
    FieldError(s, 0, 59, "0-59 only")
  }

  /** Adding a time: a text already in the list changes nothing; otherwise the list grows and is sorted. */
  function AddTime(times: seq<string>, text: string): (r: Option<seq<string>>)
    ensures r.None? <==> text in times
    ensures r.Some? ==> |r.value| == |times| + 1 && multiset(r.value) == multiset(times) + multiset{text}
    ensures r.Some? ==> SortedBy(r.value, SortKey) && text in r.value
  {
    if text in times then None
    else
      var r := SortMedicationTimes(times + [text]);
      assert text in multiset(r);
      Some(r)
  }

  /** Editing a time: that entry is replaced and the list sorted again; its length stays. */
  function EditTime(times: seq<string>, index: nat, text: string): (r: seq<string>)
    requires index < |times|
    ensures |r| == |times| && multiset(r) == multiset(times[index := text])
    ensures SortedBy(r, SortKey) && text in r
  {
    var r := SortMedicationTimes(times[index := text]);
    assert text in multiset(times[index := text]);
    assert text in multiset(r);
    r
  }

  /** The OK button either leaves the dialog open, or closes it, having passed a new list or not. */
  datatype Outcome = StayOpen | Close(selected: Option<seq<string>>)

  /** The text the OK button creates: the 24-hour time written as "h:mm a". */
  function NewTimeText(hour: nat, minute: nat, isAM: bool): (s: string)
    requires 1 <= hour <= 12 && minute < 60
    ensures ParseClock(s) == Some(TimeOfDay(To24(hour, isAM), minute))
    ensures (s[|s| - 2..] == "AM") == isAM
  {
    ClockRoundTrip(TimeOfDay(To24(hour, isAM), minute));
    FormatClock(TimeOfDay(To24(hour, isAM), minute))
  }

  /** OK acts only on an hour 1 to 12 and a minute 0 to 59 with no error shown. */
  predicate CanConfirm(hourText: string, minuteText: string, hourError: string, minuteError: string): (b: bool)
    ensures b <==> HourError(hourText) == "" && MinuteError(minuteText) == "" && hourError == "" && minuteError == ""
  {
    ToIntOrNull(hourText).Some? && ToIntOrNull(minuteText).Some? &&
    1 <= ToIntOrNull(hourText).value <= 12 && ToIntOrNull(minuteText).value <= 59 &&
    hourError == "" && minuteError == ""
  }

  /** What the OK button does for the dialog's state. */
  function ConfirmOutcome(times: seq<string>, index: int, adding: bool, hourText: string, minuteText: string,
                          isAM: bool, hourError: string, minuteError: string): (r: Outcome)
    ensures r == StayOpen <==> !CanConfirm(hourText, minuteText, hourError, minuteError)
    ensures r.Close? && !adding && !(0 <= index < |times|) ==> r.selected == None
    ensures r.Close? && r.selected.Some? && !adding ==> |r.selected.value| == |times|
    ensures CanConfirm(hourText, minuteText, hourError, minuteError) && adding ==>
      r == Close(AddTime(times, NewTimeText(DigitsValue(hourText), DigitsValue(minuteText), isAM)))
    ensures CanConfirm(hourText, minuteText, hourError, minuteError) && !adding && 0 <= index < |times| ==>
      r == Close(Some(EditTime(times, index, NewTimeText(DigitsValue(hourText), DigitsValue(minuteText), isAM))))
  {
    var hour, minute := ToIntOrNull(hourText), ToIntOrNull(minuteText);
    if hour.Some? && minute.Some? && 1 <= hour.value <= 12 && minute.value <= 59 && hourError == "" && minuteError == "" then
      var text := NewTimeText(hour.value, minute.value, isAM);
      if adding then Close(AddTime(times, text))
      else if 0 <= index < |times| then Close(Some(EditTime(times, index, text)))
      else Close(None)
    else StayOpen
  }

  /** The chosen time's text reads back as the chosen 24-hour time. */
  lemma NewTimeTextReadsBack(hour: nat, minute: nat, isAM: bool)
    requires 1 <= hour <= 12 && minute < 60
    ensures ParseTimeToHourMinute(NewTimeText(hour, minute, isAM)) == (To24(hour, isAM), minute)
  {
    HourMinuteOfFormatted(TimeOfDay(To24(hour, isAM), minute));
  }

  /** Opening on an existing time and pressing OK at once yields the same time text. */
  lemma ConfirmUnchangedKeepsTime(t: Time)
    ensures ToIntOrNull(NumberText(DisplayHour(t.hour))) == Some(DisplayHour(t.hour))
    ensures ToIntOrNull(TwoDigitText(t.minute)) == Some(t.minute)
    ensures NewTimeText(DisplayHour(t.hour), t.minute, IsAM(t.hour)) == FormatClock(t)
  {
    DisplayRoundTrip(t.hour);
  }

  class TimePickerDialog {
    const medicationTimes: seq<string>
    const editingTimeIndex: int
    const isAddingNewTime: bool
    var hourText: string
    var minuteText: string
    var isAM: bool
    var hourError: string
    var minuteError: string

    /** Both fields hold at most two digits. */
    predicate Valid()
      reads this
    {
      Accepts(hourText) && Accepts(minuteText)
    }

    /** Opens on `InitialTime`, shown as the 12-hour hour, the two-digit minute and AM or PM. */
    constructor(times: seq<string>, index: int, adding: bool)
      ensures medicationTimes == times && editingTimeIndex == index && isAddingNewTime == adding
      ensures hourText == NumberText(DisplayHour(InitialTime(times, index).0))
      ensures minuteText == TwoDigitText(InitialTime(times, index).1)
      ensures isAM == IsAM(InitialTime(times, index).0)
      ensures hourError == "" && minuteError == ""
      ensures Valid()
    {
      medicationTimes, editingTimeIndex, isAddingNewTime := times, index, adding;
      var current := InitialTime(times, index);
      hourText := NumberText(DisplayHour(current.0));
      minuteText := TwoDigitText(current.1);
      isAM := IsAM(current.0);
      hourError, minuteError := "", "";
    }

    /** Typing in the hour field: text of at most two digits is taken and checked; other text is ignored. */
    method EditHour(newValue: string)
      requires Valid()
      modifies this
      ensures Valid()
      ensures Accepts(newValue) ==> hourText == newValue && hourError == HourError(newValue)
      ensures !Accepts(newValue) ==> hourText == old(hourText) && hourError == old(hourError)
      ensures minuteText == old(minuteText) && minuteError == old(minuteError) && isAM == old(isAM)
    {
      if |newValue| <= 2 && AllDigits(newValue) {
        hourText := newValue;
        hourError := HourError(newValue);
      }
    }

    /** Typing in the minute field, like the hour field with the range 0 to 59. */
    method EditMinute(newValue: string)
      requires Valid()
      modifies this
      ensures Valid()
      ensures Accepts(newValue) ==> minuteText == newValue && minuteError == MinuteError(newValue)
      ensures !Accepts(newValue) ==> minuteText == old(minuteText) && minuteError == old(minuteError)
      ensures hourText == old(hourText) && hourError == old(hourError) && isAM == old(isAM)
    {
      if |newValue| <= 2 && AllDigits(newValue) {
        minuteText := newValue;
        minuteError := MinuteError(newValue);
      }
    }

    /** The AM and PM radio buttons. */
    method SelectAM(am: bool)
      modifies this
      ensures isAM == am
      ensures hourText == old(hourText) && minuteText == old(minuteText)
      ensures hourError == old(hourError) && minuteError == old(minuteError)
    {
      isAM := am;
    }

    /** The OK button. */
    method Confirm() returns (outcome: Outcome)
      ensures outcome == ConfirmOutcome(medicationTimes, editingTimeIndex, isAddingNewTime, hourText, minuteText,
        isAM, hourError, minuteError)
      ensures outcome.Close? && isAddingNewTime && outcome.selected.Some? ==>
        |outcome.selected.value| == |medicationTimes| + 1
    {
      var times, am := medicationTimes, isAM;
      var hour := ToIntOrNull(hourText);
      var minute := ToIntOrNull(minuteText);
      if CanConfirm(hourText, minuteText, hourError, minuteError) {
        var hour24 := if hour.value == 12 && am then 0
          else if hour.value == 12 && !am then 12
          else if am then hour.value
          else hour.value + 12;
        assert hour24 == To24(hour.value, am);
        var newTimeStr := FormatClock(TimeOfDay(hour24, minute.value));
        assert newTimeStr == NewTimeText(hour.value, minute.value, am);
        if isAddingNewTime {
          if newTimeStr !in times {
            outcome := Close(Some(SortMedicationTimes(times + [newTimeStr])));
          } else {
            outcome := Close(None);
          }
        } else if 0 <= editingTimeIndex < |times| {
          var updatedTimes := times[editingTimeIndex := newTimeStr];
          outcome := Close(Some(SortMedicationTimes(updatedTimes)));
        } else {
          outcome := Close(None);
        }
      } else {
        outcome := StayOpen;
      }
    }
  }
}
