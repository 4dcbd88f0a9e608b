/**
 * The schedule evaluator of the calendar screen: whether a medication is due
 * on a date, the filter that drops malformed medications, and the expansion of
 * the due medications into one dose entry per time of day.
 */
module Schedule {
  import opened Wrappers
  import opened Text
  import opened Lists
  import opened Clock
  import opened MedicationModel

  /** The inclusive `startDate..endDate` range; an absent bound does not restrict that side. */
  predicate InDateRange(m: Medication, date: Date) {
    (m.startDate.None? || m.startDate.value <= date) && (m.endDate.None? || date <= m.endDate.value)
  }

  /**
   * `isMedicationScheduledForDate`: outside the date range nothing is due; in
   * range a Daily rule is always due and a SpecificDays rule is due exactly on
   * the weekdays it names. The function is total: every path the source guards
   * with `catch` yields a value, and none of them yields `true`.
   */
  function IsScheduledForDate(m: Medication, date: Date): (r: bool)
    ensures m.startDate.Some? && date < m.startDate.value ==> !r
    ensures m.endDate.Some? && date > m.endDate.value ==> !r
    ensures r ==> InDateRange(m, date)
    ensures m.frequency.Daily? ==> (r <==> InDateRange(m, date))
    ensures m.frequency.SpecificDays? ==> (r <==> InDateRange(m, date) && WeekdayOf(date) in m.frequency.days)
    ensures m.frequency == SpecificDays({}) ==> !r
  {
    if m.startDate.Some? && date < m.startDate.value then false
    else if m.endDate.Some? && date > m.endDate.value then false
    else
      match m.frequency
      case Daily => true
      case SpecificDays(days) => WeekdayOf(date) in days
  }

  /** The bounds themselves pass the range check. */
  lemma RangeIsInclusive(m: Medication)
    requires m.startDate.Some? && m.endDate.Some? && m.startDate.value <= m.endDate.value
    ensures InDateRange(m, m.startDate.value) && InDateRange(m, m.endDate.value)
  {
  }

  /** A medication the calendar accepts: both name and dosage are non-blank. */
  predicate WellFormed(m: Medication) {
    !IsBlank(m.name) && !IsBlank(m.dosage)
  }

  /** `safeMedications`: the well-formed medications, in their original order. */
  function SafeMedications(meds: seq<Medication>): (r: seq<Medication>)
    ensures forall i :: 0 <= i < |r| ==> WellFormed(r[i]) && r[i] in meds
    ensures forall i :: 0 <= i < |meds| && WellFormed(meds[i]) ==> meds[i] in r
    ensures IsSubsequence(r, meds)
  {
    FilterIsSubsequence(meds, WellFormed);
    Filter(meds, WellFormed)
  }

  /** When every medication is well formed, none is dropped. */
  lemma SafeMedicationsKeepsWellFormed(meds: seq<Medication>)
    requires forall i :: 0 <= i < |meds| ==> WellFormed(meds[i])
    ensures SafeMedications(meds) == meds
  {
    FilterKeepsAll(meds, WellFormed);
  }

  /** Filtering twice is filtering once. */
  lemma SafeMedicationsIdempotent(meds: seq<Medication>)
    ensures SafeMedications(SafeMedications(meds)) == SafeMedications(meds)
  {
    FilterIdempotent(meds, WellFormed);
  }

  /** The medications due on `date`, in list order. */
  function ScheduledMedications(meds: seq<Medication>, date: Date): (r: seq<Medication>)
    ensures forall i :: 0 <= i < |r| ==> IsScheduledForDate(r[i], date) && r[i] in meds
    ensures forall i :: 0 <= i < |meds| && IsScheduledForDate(meds[i], date) ==> meds[i] in r
  {
    Filter(meds, m => IsScheduledForDate(m, date))
  }

  /** One `(medication, time)` entry per time of the medication, in time order. */
  function TimesOf(m: Medication): (r: seq<(Medication, Time)>)
    ensures |r| == |m.medicationTimes|
    ensures forall i :: 0 <= i < |r| ==> r[i] == (m, m.medicationTimes[i])
  {
    seq(|m.medicationTimes|, i requires 0 <= i < |m.medicationTimes| => (m, m.medicationTimes[i]))
  }

  /** The number of times over a list of medications. */
  function TotalTimes(meds: seq<Medication>): nat {
    if meds == [] then 0 else |meds[0].medicationTimes| + TotalTimes(meds[1..])
  }

  /** The `flatMap` of the medications into their dose entries. */
  function Expand(meds: seq<Medication>): (r: seq<(Medication, Time)>)
    ensures |r| == TotalTimes(meds)
  {
    if meds == [] then [] else TimesOf(meds[0]) + Expand(meds[1..])
  }

  /** `medicationTimesForDate`: the dose entries of the medications due on `date`. */
  function DosesForDate(meds: seq<Medication>, date: Date): (r: seq<(Medication, Time)>)
    ensures |r| == TotalTimes(ScheduledMedications(meds, date))
  {
    Expand(ScheduledMedications(meds, date))
  }

  /** Expansion keeps list order: the entries of a prefix come before those of the rest. */
  lemma {:induction false} ExpandConcat(a: seq<Medication>, b: seq<Medication>)
    ensures Expand(a + b) == Expand(a) + Expand(b)
  {
    if a == [] {
      assert a + b == b;
    } else {
      assert (a + b)[0] == a[0];
      assert (a + b)[1..] == a[1..] + b;
      ExpandConcat(a[1..], b);
    }
  }

  /** An entry of the expansion is a medication of the list paired with one of its own times. */
  lemma {:induction false} ExpandMembers(meds: seq<Medication>, m: Medication, t: Time)
    ensures (m, t) in Expand(meds) <==> m in meds && t in m.medicationTimes
  {
    if meds != [] {
      ExpandMembers(meds[1..], m, t);
      var head := TimesOf(meds[0]);
      assert (m, t) in head <==> m == meds[0] && t in m.medicationTimes by {
        if (m, t) in head {
          var i :| 0 <= i < |head| && head[i] == (m, t);
        }
        if m == meds[0] && t in m.medicationTimes {
          var i :| 0 <= i < |m.medicationTimes| && m.medicationTimes[i] == t;
          assert head[i] == (m, t);
        }
      }
      assert meds == [meds[0]] + meds[1..];
    }
  }

  /** A dose entry for a date exists exactly for each due medication and each of its times. */
  lemma DosesForDateMembers(meds: seq<Medication>, date: Date, m: Medication, t: Time)
    ensures (m, t) in DosesForDate(meds, date) <==> m in meds && IsScheduledForDate(m, date) && t in m.medicationTimes
  {
    var s := ScheduledMedications(meds, date);
    ExpandMembers(s, m, t);
    assert m in s <==> m in meds && IsScheduledForDate(m, date) by {
      if m in s {
        var i :| 0 <= i < |s| && s[i] == m;
      }
      if m in meds && IsScheduledForDate(m, date) {
        var i :| 0 <= i < |meds| && meds[i] == m;
      }
    }
  }

  /** A medication that is not due contributes no entry. */
  lemma UnscheduledContributesNothing(meds: seq<Medication>, date: Date, m: Medication)
    requires !IsScheduledForDate(m, date)
    ensures forall i :: 0 <= i < |DosesForDate(meds, date)| ==> DosesForDate(meds, date)[i].0 != m
  {
    var r := DosesForDate(meds, date);
    forall i | 0 <= i < |r| ensures r[i].0 != m {
      DosesForDateMembers(meds, date, r[i].0, r[i].1);
    }
  }

  /**
   * A worked example: a Daily medication from
   * 2024-01-01 (epoch day 19723) to 2024-01-10 is due on 2024-01-05 and neither
   * on 2023-12-31 nor on 2024-01-11; a Monday/Wednesday rule is due on Monday
   * 2024-01-01 and not on Tuesday 2024-01-02.
   */
  lemma ScheduleExamples(times: seq<Time>)
    ensures var amox := Medication("1", "Amoxicillin", "500mg", "Pill", Daily, Some(19723), Some(19732), times, "");
      IsScheduledForDate(amox, 19727) && !IsScheduledForDate(amox, 19722) && !IsScheduledForDate(amox, 19733)
    ensures var mw := Medication("2", "Vitamin", "1 tablet", "Tablet", SpecificDays({Monday, Wednesday}), Some(19723), Some(19732), times, "");
      IsScheduledForDate(mw, 19723) && !IsScheduledForDate(mw, 19724)
  {
    assert WeekdayOf(19723) == Monday;
    assert WeekdayOf(19724) == Tuesday;
  }
}
