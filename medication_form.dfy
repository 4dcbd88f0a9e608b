/**
 * The add/edit medication form: its validation, its time-text helpers and
 * the record the Save button builds and hands to the phone store.
 * Date text ("MM/dd/yyyy") is read by a parser given as a parameter.
 */
module MedicationForm {
  import opened Wrappers
  import opened Text
  import opened Lists
  import opened Clock
  import opened MedicationModel
  import opened FrequencyText
  import opened Schedule
  import opened PhoneStore

  /** `parseDateString`: blank text is no date; other text goes to the date parser. */
  function ParseDateString(s: string, parseDate: string -> Option<Date>): (r: Option<Date>)
    ensures IsBlank(s) ==> r == None
    ensures !IsBlank(s) ==> r == parseDate(s)
  {
    if IsBlank(s) then None else parseDate(s)
  }

  /** The five error texts of the form; "" means no error. */
  datatype FormErrors = FormErrors(name: string, dosage: string, times: string, startDate: string, endDate: string)

  predicate NoErrors(e: FormErrors) {
    e.name == "" && e.dosage == "" && e.times == "" && e.startDate == "" && e.endDate == ""
  }

  /** The start-date message: required, then parseable. */
  function StartDateError(start: string, parseDate: string -> Option<Date>): (e: string)
    ensures e == "" <==> ParseDateString(start, parseDate).Some?
    ensures IsBlank(start) ==> e == "Start date is required"
  {
    if IsBlank(start) then "Start date is required"
    else if ParseDateString(start, parseDate).None? then "Invalid start date format"
    else ""
  }

  /** The end-date message: required, then parseable, then not before a valid start date. */
  function EndDateError(start: string, end: string, parseDate: string -> Option<Date>): (e: string)
    ensures e == "" <==> (!IsBlank(end) && ParseDateString(end, parseDate).Some? &&
      (StartDateError(start, parseDate) == "" ==> ParseDateString(start, parseDate).value <= ParseDateString(end, parseDate).value))
  {
    if IsBlank(end) then "End date is required"
    else if ParseDateString(end, parseDate).None? then "Invalid end date format"
    else if StartDateError(start, parseDate) == "" && ParseDateString(end, parseDate).value < ParseDateString(start, parseDate).value then
      "End date must be after start date"
    else ""
  }

  /** What `validateForm` leaves in the five error texts. */
  function CheckForm(name: string, dosage: string, times: seq<string>, start: string, end: string,
                     parseDate: string -> Option<Date>): (e: FormErrors)
    ensures NoErrors(e) <==>
      !IsBlank(name) && !IsBlank(dosage) && |times| > 0 &&
      ParseDateString(start, parseDate).Some? && ParseDateString(end, parseDate).Some? &&
      ParseDateString(start, parseDate).value <= ParseDateString(end, parseDate).value
    ensures e.name == (if IsBlank(name) then "Medicine name is required" else "")
    ensures e.dosage == (if IsBlank(dosage) then "Dosage is required" else "")
    ensures e.times == (if times == [] then "At least one medication time is required" else "")
  {
    FormErrors(
      if IsBlank(name) then "Medicine name is required" else "",
      if IsBlank(dosage) then "Dosage is required" else "",
      if |times| == 0 then "At least one medication time is required" else "",
      StartDateError(start, parseDate),
      EndDateError(start, end, parseDate))
  }

  /** Equal start and end dates are accepted. */
  lemma SameDayRangeAccepted(start: string, parseDate: string -> Option<Date>)
    requires ParseDateString(start, parseDate).Some?
    ensures EndDateError(start, start, parseDate) == ""
  {
  }

  /** `parseTimeString`: the 12-hour pattern first, then the 24-hour one. */
  function ParseTimeString(s: string): (r: Option<Time>)
    ensures ParseClock(s).Some? ==> r == ParseClock(s)
    ensures ParseClock(s).None? ==> r == ParseTwentyFour(s)
  {
    match ParseClock(s)
    case Some(t) => Some(t)
    case None => ParseTwentyFour(s)
  }

  /** `parseTimeToHourMinute`: the 12-hour text as (hour, minute), or (9, 0) when it does not parse. */
  function ParseTimeToHourMinute(s: string): (r: (nat, nat))
    ensures r.0 < 24 && r.1 < 60
    ensures ParseClock(s).None? ==> r == (9, 0)
    ensures ParseClock(s).Some? ==> r == (ParseClock(s).value.hour, ParseClock(s).value.minute)
  {
    match ParseClock(s)
    case Some(t) => (t.hour, t.minute)
    case None => (9, 0)
  }

  /** The text of a time reads back as its hour and minute. */
  lemma HourMinuteOfFormatted(t: Time)
    ensures ParseTimeToHourMinute(FormatClock(t)) == (t.hour, t.minute)
  {
    ClockRoundTrip(t);
  }

  /** The sort position of a time text: its minute of the day, 09:00 when it does not parse. */
  function SortKey(s: string): int {
    match ParseClock(s)
    case Some(t) => MinuteOfDay(t)
    case None => 9 * 60
  }

  /** `sortMedicationTimes`: a stable reordering by parsed time. */
  function SortMedicationTimes(times: seq<string>): (r: seq<string>)
    ensures SortedBy(r, SortKey)
    ensures multiset(r) == multiset(times) && |r| == |times|
  {
    var r := SortBy(times, SortKey);
    assert |r| == |multiset(r)| == |multiset(times)| == |times|;
    r
  }

  /** Texts that sort to the same position keep their order. */
  lemma SortMedicationTimesStable(times: seq<string>, k: int)
    ensures WithKey(SortMedicationTimes(times), SortKey, k) == WithKey(times, SortKey, k)
  {
    SortByStable(times, SortKey, k);
  }

  /** `mapNotNull { parseTimeString(it) }`. */
  function ParsedTimes(times: seq<string>): (r: seq<Time>)
    ensures |r| <= |times|
    ensures forall i :: 0 <= i < |times| && ParseTimeString(times[i]).Some? ==> ParseTimeString(times[i]).value in r
    ensures forall t :: t in r ==> exists i :: 0 <= i < |times| && ParseTimeString(times[i]) == Some(t)
  {
    if times == [] then []
    else
      var rest := ParsedTimes(times[1..]);
      assert forall i :: 1 <= i < |times| ==> times[i] == times[1..][i - 1];
      match ParseTimeString(times[0])
      case Some(t) => [t] + rest
      case None => rest
  }

  /** Parsing keeps the order of the texts: the times of a concatenation are concatenated. */
  lemma {:induction false} ParsedTimesConcat(a: seq<string>, b: seq<string>)
    ensures ParsedTimes(a + b) == ParsedTimes(a) + ParsedTimes(b)
  {
    if a != [] {
      assert (a + b)[0] == a[0];
      assert (a + b)[1..] == a[1..] + b;
      ParsedTimesConcat(a[1..], b);
      var head: seq<Time> := if ParseTimeString(a[0]).Some? then [ParseTimeString(a[0]).value] else [];
      assert ParsedTimes(a + b) == head + ParsedTimes(a[1..] + b);
      assert ParsedTimes(a) == head + ParsedTimes(a[1..]);
      assert head + (ParsedTimes(a[1..]) + ParsedTimes(b)) == (head + ParsedTimes(a[1..])) + ParsedTimes(b);
    } else {
      assert a + b == b;
    }
  }

  /** One text gives its time, or nothing when it does not parse. */
  lemma ParsedTimesSingle(s: string)
    ensures ParsedTimes([s]) == if ParseTimeString(s).Some? then [ParseTimeString(s).value] else []
  {
    assert [s][1..] == [];
  }

  /** "24:00" does not fit "h:mm a" and is read by "HH:mm" as midnight. */
  lemma EndOfDayIsMidnight()
    ensures ParseTimeString("24:00") == Some(TimeOfDay(0, 0))
  {
  }

  const DefaultTime: Time := TimeOfDay(9, 0)

  /** The saved times: the parseable texts in order, or [09:00] when none parses. */
  function SavedTimes(times: seq<string>): (r: seq<Time>)
    ensures |r| >= 1
    ensures (forall i :: 0 <= i < |times| ==> ParseTimeString(times[i]).None?) ==> r == [DefaultTime]
    ensures (exists i :: 0 <= i < |times| && ParseTimeString(times[i]).Some?) ==> r == ParsedTimes(times)
  {
    var parsed := ParsedTimes(times);
    if parsed == [] then [DefaultTime]
    else
      assert parsed[0] in parsed;
      parsed
  }

  /** The text of every time reads back as that time. */
  lemma {:induction false} ParsedFormattedTimes(ts: seq<Time>)
    ensures ParsedTimes(TimeTexts(ts)) == ts
  {
    if ts != [] {
      var texts := TimeTexts(ts);
      ClockRoundTrip(ts[0]);
      assert ParseTimeString(texts[0]) == Some(ts[0]);
      assert texts[1..] == TimeTexts(ts[1..]);
      ParsedFormattedTimes(ts[1..]);
      assert ParsedTimes(texts) == [ts[0]] + ParsedTimes(texts[1..]);
    }
  }

  /** `trim().takeIf { it.isNotBlank() } ?: fallback`. */
  function TrimmedOr(s: string, fallback: string): (r: string)
    ensures IsBlank(s) ==> r == fallback
    ensures !IsBlank(s) ==> r == Trim(s) && !IsBlank(r)
  {
    var t := Trim(s);
    if IsBlank(t) then fallback else t
  }

  /** The text fields of the form. */
  datatype FormInput = FormInput(
    name: string,
    dosage: string,
    kind: string,
    frequency: string,
    startDate: string,
    endDate: string,
    times: seq<string>,
    specialInstructions: string)

  /**
   * The record Save builds: the edited medication's id is kept, a new one
   * gets `freshId`; every other field comes from the form.
   */
  function BuildMedication(input: FormInput, editing: Option<Medication>, freshId: string,
                           parseDate: string -> Option<Date>): (m: Medication)
    ensures m.id == if editing.Some? then editing.value.id else freshId
    ensures m.name == TrimmedOr(input.name, "Medicine") && m.dosage == TrimmedOr(input.dosage, "1 dose")
    ensures !IsBlank(m.name) && !IsBlank(m.dosage)
    ensures |m.medicationTimes| >= 1 && m.medicationTimes == SavedTimes(input.times)
    ensures m.frequency == ParseFrequency(input.frequency) && m.frequency != SpecificDays({})
    ensures m.startDate == ParseDateString(input.startDate, parseDate)
    ensures m.endDate == ParseDateString(input.endDate, parseDate)
    ensures m.specialInstructions == Trim(input.specialInstructions)
  {
    assert "Medicine"[0] == 'M' && "1 dose"[0] == '1';
    Medication(
      if editing.Some? then editing.value.id else freshId,
      TrimmedOr(input.name, "Medicine"),
      TrimmedOr(input.dosage, "1 dose"),
      input.kind,
      ParseFrequency(input.frequency),
      ParseDateString(input.startDate, parseDate),
      ParseDateString(input.endDate, parseDate),
      SavedTimes(input.times),
      Trim(input.specialInstructions))
  }

  /** A saved record is never dropped by the calendar's malformed-record filter. */
  lemma BuiltIsWellFormed(input: FormInput, editing: Option<Medication>, freshId: string,
                          parseDate: string -> Option<Date>)
    ensures WellFormed(BuildMedication(input, editing, freshId, parseDate))
  {
  }

  /**
   * A record saved from a valid form is due on its start date and on its end
   * date when it is daily, and on no date outside that range.
   */
  lemma ValidSaveSchedule(input: FormInput, editing: Option<Medication>, freshId: string,
                          parseDate: string -> Option<Date>, date: Date)
    requires NoErrors(CheckForm(input.name, input.dosage, input.times, input.startDate, input.endDate, parseDate))
    ensures var m := BuildMedication(input, editing, freshId, parseDate);
      (m.frequency == Daily ==> IsScheduledForDate(m, m.startDate.value) && IsScheduledForDate(m, m.endDate.value)) &&
      (date < m.startDate.value || date > m.endDate.value ==> !IsScheduledForDate(m, date))
  {
    var m := BuildMedication(input, editing, freshId, parseDate);
    RangeIsInclusive(m);
  }

  /** The form's text for a stored medication's times. */
  function TimeTexts(ts: seq<Time>): (r: seq<string>)
    ensures |r| == |ts|
    ensures forall i :: 0 <= i < |ts| ==> r[i] == FormatClock(ts[i])
  {
    seq(|ts|, i requires 0 <= i < |ts| => FormatClock(ts[i]))
  }

  /**
   * Opening a stored medication in the form and saving it unchanged keeps its
   * times (when it has any), and its frequency up to the Daily normalisation.
   */
  lemma ResaveKeepsTimesAndFrequency(m: Medication)
    requires |m.medicationTimes| >= 1
    ensures SavedTimes(TimeTexts(m.medicationTimes)) == m.medicationTimes
    ensures ParseFrequency(FormatFrequency(m.frequency)) == Normalize(m.frequency)
  {
    ParsedFormattedTimes(m.medicationTimes);
    FormatParseRoundTrip(m.frequency);
  }

  const DefaultTimeTexts: seq<string> := ["08:00 AM", "01:00 PM", "08:00 PM"]

  /** A stored date as form text, or "" when absent. */
  function DateText(d: Option<Date>, formatDate: Date -> string): string {
    if d.Some? then formatDate(d.value) else ""
  }

  /**
   * The initial fields: those of the edited medication, else an empty form
   * with today's and the 30-days-later dates and three default times.
   */
  function InitialInput(editing: Option<Medication>, today: Date, formatDate: Date -> string): (r: FormInput)
    ensures editing.None? ==> (r.name == "" && r.dosage == "" && r.kind == "Pill" && r.specialInstructions == "" &&
      r.frequency == "Daily" && r.times == DefaultTimeTexts &&
      r.startDate == formatDate(today) && r.endDate == formatDate(today + 30))
    ensures editing.Some? ==> (r.name == editing.value.name && r.dosage == editing.value.dosage &&
      r.kind == editing.value.kind && r.specialInstructions == editing.value.specialInstructions &&
      r.frequency == FormatFrequency(editing.value.frequency) && r.times == TimeTexts(editing.value.medicationTimes) &&
      r.startDate == DateText(editing.value.startDate, formatDate) && r.endDate == DateText(editing.value.endDate, formatDate))
  {
    match editing
    case None =>
      FormInput("", "", "Pill", "Daily", formatDate(today), formatDate(today + 30), DefaultTimeTexts, "")
    case Some(m) =>
      FormInput(m.name, m.dosage, m.kind, FormatFrequency(m.frequency), DateText(m.startDate, formatDate),
        DateText(m.endDate, formatDate), TimeTexts(m.medicationTimes), m.specialInstructions)
  }

  /** The form's state: its text fields and its five error texts. */
  class AddEditForm {
    var input: FormInput
    var medicineNameError: string
    var dosageError: string
    var timesError: string
    var startDateError: string
    var endDateError: string

    /** Opens the form on `InitialInput`, with no error shown. */
    constructor(editing: Option<Medication>, today: Date, formatDate: Date -> string)
      ensures input == InitialInput(editing, today, formatDate)
      ensures NoErrors(Errors())
    {
      input := InitialInput(editing, today, formatDate);
      medicineNameError, dosageError, timesError, startDateError, endDateError := "", "", "", "", "";
    }

    function Errors(): FormErrors
      reads this
    {
      FormErrors(medicineNameError, dosageError, timesError, startDateError, endDateError)
    }

    /** `validateForm`: sets the five error texts and reports whether all are empty. */
    method ValidateForm(parseDate: string -> Option<Date>) returns (ok: bool)
      modifies this
      ensures input == old(input)
      ensures Errors() == CheckForm(input.name, input.dosage, input.times, input.startDate, input.endDate, parseDate)
      ensures ok <==> NoErrors(Errors())
    {
      var form := input;
      var nameError := if IsBlank(form.name) then "Medicine name is required" else "";
      var doseError := if IsBlank(form.dosage) then "Dosage is required" else "";
      var timeError := if |form.times| == 0 then "At least one medication time is required" else "";
      var startError := StartDateError(form.startDate, parseDate);
      var endError := EndDateError(form.startDate, form.endDate, parseDate);
      var errors := FormErrors(nameError, doseError, timeError, startError, endError);
      medicineNameError, dosageError, timesError, startDateError, endDateError := nameError, doseError, timeError, startError, endError;
      ok := NoErrors(errors);
    }

    /**
     * The Save button: nothing is stored unless the form is valid; then the
     * built record updates the edited entry or is appended.
     */
    method Save(repo: MedicationRepository, editing: Option<Medication>, freshId: string,
                parseDate: string -> Option<Date>) returns (saved: bool)
      modifies this, repo
      ensures input == old(input)
      ensures Errors() == CheckForm(input.name, input.dosage, input.times, input.startDate, input.endDate, parseDate)
      ensures saved <==> NoErrors(CheckForm(input.name, input.dosage, input.times, input.startDate, input.endDate, parseDate))
      ensures !saved ==> repo.medications == old(repo.medications)
      ensures saved && editing.Some? ==>
        repo.medications == ReplaceById(old(repo.medications), BuildMedication(input, editing, freshId, parseDate))
      ensures saved && editing.None? ==>
        repo.medications == old(repo.medications) + [BuildMedication(input, editing, freshId, parseDate)]
    {
      saved := ValidateForm(parseDate);
      if saved {
        var m := BuildMedication(input, editing, freshId, parseDate);
        if editing.Some? {
          repo.UpdateMedication(m);
        } else {
          repo.AddMedication(m);
        }
      }
    }
  }
}
