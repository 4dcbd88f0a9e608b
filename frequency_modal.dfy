/**
 * The frequency selection dialog: the selected weekday set, the "Daily"
 * card, the per-day buttons and the Done button.
 */
module FrequencyModal {
  import opened Wrappers
  import opened MedicationModel
  import opened FrequencyText

  /** The "Daily" card: a full selection is cleared, any other becomes the full week. */
  function DailyCard(days: set<DayOfWeek>): (r: set<DayOfWeek>)
    ensures r == {} <==> days == AllDays
    ensures r == AllDays <==> days != AllDays
  {
    FullWeek(days);
    if |days| == 7 then {} else AllDays
  }

  /** A day button: flips that one day. */
  function Toggle(days: set<DayOfWeek>, d: DayOfWeek): (r: set<DayOfWeek>)
    ensures d in r <==> d !in days
    ensures forall e :: e != d ==> (e in r <==> e in days)
  {
    if d in days then days - {d} else days + {d}
  }

  /** Pressing the same day twice restores the selection. */
  lemma ToggleTwice(days: set<DayOfWeek>, d: DayOfWeek)
    ensures Toggle(Toggle(days, d), d) == days
  {
  }

  /** Presses of two different days commute. */
  lemma ToggleCommutes(days: set<DayOfWeek>, d: DayOfWeek, e: DayOfWeek)
    ensures Toggle(Toggle(days, d), e) == Toggle(Toggle(days, e), d)
  {
  }

  /**
   * Done: disabled (nothing emitted) on an empty selection; otherwise "Daily"
   * for the full week and the day names joined by ", " for the rest.
   */
  function DoneText(days: set<DayOfWeek>): (r: Option<string>)
    ensures r.None? <==> days == {}
    ensures r == Some("Daily") <==> days == AllDays
    ensures r.Some? ==> ParseDaySet(r.value) == days
  {
    FullWeek(days);
    DaysTextRoundTrip(days);
    if days == {} then None
    else if |days| == 7 then Some("Daily")
    else Some(DaysText(days))
  }

  /** What the dialog emits is read by the form as those days, a full week as Daily. */
  lemma DoneThenParseFrequency(days: set<DayOfWeek>)
    requires days != {}
    ensures ParseFrequency(DoneText(days).value) == if days == AllDays then Daily else SpecificDays(days)
  {
  }

  class FrequencyModal {
    var selectedDays: set<DayOfWeek>

    /** Opens on the current frequency text. */
    constructor(currentFrequency: string)
      ensures selectedDays == ParseDaySet(currentFrequency)
    {
      selectedDays := ParseDaySet(currentFrequency);
    }

    /** `isAllDaysSelected`: the size is seven, that is every day is selected. */
    function IsAllDaysSelected(): (r: bool)
      reads this
      ensures r <==> selectedDays == AllDays
    {
      FullWeek(selectedDays);
      |selectedDays| == 7
    }

    method PressDaily()
      modifies this
      ensures selectedDays == DailyCard(old(selectedDays))
    {
      selectedDays := if IsAllDaysSelected() then {} else AllDays;
    }

    method PressDay(d: DayOfWeek)
      modifies this
      ensures selectedDays == Toggle(old(selectedDays), d)
    {
      var isSelected := d in selectedDays;
      selectedDays := if isSelected then selectedDays - {d} else selectedDays + {d};
    }

    /** The Done button: the emitted text, or nothing while it is disabled. */
    method Done() returns (r: Option<string>)
      ensures r == DoneText(selectedDays)
      ensures r.Some? ==> ParseDaySet(r.value) == selectedDays
    {
      if selectedDays == {} {
        r := None;
      } else if IsAllDaysSelected() {
        r := Some("Daily");
      } else {
        r := Some(DaysText(selectedDays));
      }
    }
  }

  /** Reopening the dialog on what it emitted shows the same selection. */
  method ReopenAfterDone(modal: FrequencyModal) returns (reopened: FrequencyModal)
    requires modal.selectedDays != {}
    ensures fresh(reopened) && reopened.selectedDays == modal.selectedDays
  {
    var text := modal.Done();
    reopened := new FrequencyModal(text.value);
  }
}
