/**
 * The phone-side medication record and its parts: the domain's seven-value
 * weekday, the frequency rule and calendar dates.
 */
module MedicationModel {
  import opened Wrappers
  import opened Clock

  datatype DayOfWeek = Monday | Tuesday | Wednesday | Thursday | Friday | Saturday | Sunday

  /** The days in calendar order, Monday first. */
  const Week: seq<DayOfWeek> := [Monday, Tuesday, Wednesday, Thursday, Friday, Saturday, Sunday]

  const AllDays: set<DayOfWeek> := {Monday, Tuesday, Wednesday, Thursday, Friday, Saturday, Sunday}

  /** `Frequency.Daily` or `Frequency.SpecificDays(days)`. */
  datatype Frequency = Daily | SpecificDays(days: set<DayOfWeek>)

  /** A calendar date as its epoch day (`LocalDate.toEpochDay`); 0 is 1970-01-01. */
  type Date = int

  /** `date.dayOfWeek` mapped onto the domain's weekday; 1970-01-01 was a Thursday. */
  function WeekdayOf(date: Date): DayOfWeek {
    Week[(date + 3) % 7]
  }

  /** The day after a weekday, Sunday followed by Monday. */
  function NextDay(d: DayOfWeek): DayOfWeek {
    match d
    case Monday => Tuesday
    case Tuesday => Wednesday
    case Wednesday => Thursday
    case Thursday => Friday
    case Friday => Saturday
    case Saturday => Sunday
    case Sunday => Monday
  }

  /**
   * A phone-side medication. The type is kept as the label chosen in the
   * form; the dates may be absent.
   */
  datatype Medication = Medication(
    id: string,
    name: string,
    dosage: string,
    kind: string,
    frequency: Frequency,
    startDate: Option<Date>,
    endDate: Option<Date>,
    medicationTimes: seq<Time>,
    specialInstructions: string)

  /** Every day is one of the seven. */
  lemma InAllDays(d: DayOfWeek)
    ensures d in AllDays
  {
  }

  /** 1970-01-01 is a Thursday, and each next day is the next weekday. */
  lemma WeekdaySuccessor(date: Date)
    ensures WeekdayOf(0) == Thursday
    ensures WeekdayOf(date + 1) == NextDay(WeekdayOf(date))
  {
    var k := (date + 3) % 7;
    assert (date + 1 + 3) % 7 == if k == 6 then 0 else k + 1;
  }

  /** Weekdays repeat every seven days. */
  lemma WeekdayPeriodic(date: Date)
    ensures WeekdayOf(date + 7) == WeekdayOf(date)
  {
    assert (date + 7 + 3) % 7 == (date + 3) % 7;
  }

  lemma AllDaysCount()
    ensures |AllDays| == 7
  {
    var s2 := {Monday, Tuesday};
    var s4 := s2 + {Wednesday, Thursday};
    var s6 := s4 + {Friday, Saturday};
    assert |s4| == 4 by {
      assert s2 !! {Wednesday, Thursday};
    }
    assert |s6| == 6 by {
      assert s4 !! {Friday, Saturday};
    }
    assert AllDays == s6 + {Sunday};
  }

  /** A proper subset is smaller. */
  lemma ProperSubsetSmaller<T>(a: set<T>, b: set<T>, x: T)
    requires a <= b && x in b && x !in a
    ensures |a| < |b|
  {
    assert b == a + (b - a) && a !! (b - a);
    assert x in b - a;
    assert |b - a| >= 1;
  }

  /** A set of weekdays has seven members exactly when it holds every day. */
  lemma FullWeek(s: set<DayOfWeek>)
    ensures s <= AllDays
    ensures |s| == 7 <==> s == AllDays
  {
    AllDaysCount();
    forall d | d in s ensures d in AllDays {
      InAllDays(d);
    }
    if s != AllDays {
      assert exists d :: d in AllDays && d !in s;
      var d :| d in AllDays && d !in s;
      ProperSubsetSmaller(s, AllDays, d);
    }
  }
}
