/**
 * The date strip of the three vitals screens: the list of dates to choose
 * from (today and the history's dates) and the selected position, moved by
 * the previous and next arrows.
 */
module DateNav {
  import opened Lists
  import opened MedicationModel

  datatype DateNavItem = DateNavItem(date: Date, caption: string)

  /** A past day of the history: its date and the label shown for it. */
  datatype HistoryDay = HistoryDay(date: Date, displayDate: string)

  function HistoryItems(history: seq<HistoryDay>): (r: seq<DateNavItem>)
    ensures |r| == |history|
    ensures forall i :: 0 <= i < |history| ==> r[i] == DateNavItem(history[i].date, history[i].displayDate)
  {
    seq(|history|, i requires 0 <= i < |history| => DateNavItem(history[i].date, history[i].displayDate))
  }

  predicate HasDate(items: seq<DateNavItem>, date: Date) {
    exists i :: 0 <= i < |items| && items[i].date == date
  }

  /** Blood pressure: "Today" first, then every history day in order. */
  function BloodPressureItems(today: Date, history: seq<HistoryDay>): (r: seq<DateNavItem>)
    ensures |r| == |history| + 1
    ensures r[0] == DateNavItem(today, "Today")
    ensures r[1..] == HistoryItems(history)
    ensures HasDate(r, today)
  {
    [DateNavItem(today, "Today")] + HistoryItems(history)
  }

  /** Heart rate: the history days, with "Today" put in front only when no day has today's date. */
  function HeartRateItems(today: Date, history: seq<HistoryDay>): (r: seq<DateNavItem>)
    ensures HasDate(HistoryItems(history), today) ==> r == HistoryItems(history)
    ensures !HasDate(HistoryItems(history), today) ==> r == [DateNavItem(today, "Today")] + HistoryItems(history)
    ensures HasDate(r, today) && |r| >= 1
  {
    var items := HistoryItems(history);
    if HasDate(items, today) then items
    else
      var r := [DateNavItem(today, "Today")] + items;
      assert r[0].date == today;
      r
  }

  /** Glucose: the history days, with "Today" added at the end only when no day has today's date. */
  function GlucoseItems(today: Date, history: seq<HistoryDay>): (r: seq<DateNavItem>)
    ensures HasDate(HistoryItems(history), today) ==> r == HistoryItems(history)
    ensures !HasDate(HistoryItems(history), today) ==> r == HistoryItems(history) + [DateNavItem(today, "Today")]
    ensures HasDate(r, today) && |r| >= 1
  {
    var items := HistoryItems(history);
    if HasDate(items, today) then items
    else
      var r := items + [DateNavItem(today, "Today")];
      assert r[|items|].date == today;
      r
  }

  /** Today appears exactly once in the heart-rate and glucose lists when the history has no day of today. */
  lemma TodayAddedOnce(today: Date, history: seq<HistoryDay>)
    requires !HasDate(HistoryItems(history), today)
    ensures forall i :: 0 < i < |HeartRateItems(today, history)| ==> HeartRateItems(today, history)[i].date != today
    ensures forall i :: 0 <= i < |history| ==> GlucoseItems(today, history)[i].date != today
  {
    var items := HistoryItems(history);
    forall i | 0 < i < |HeartRateItems(today, history)| ensures HeartRateItems(today, history)[i].date != today {
      assert HeartRateItems(today, history)[i] == items[i - 1];
    }
  }

  /** The "previous" arrow: one step further back, unless at the last position. */
  function PreviousIndex(index: int, count: nat): int {
    if index < count - 1 then index + 1 else index
  }

  /** The "next" arrow: one step towards today, unless at position 0. */
  function NextIndex(index: int): int {
    if index > 0 then index - 1 else index
  }

  /** A step back and a step forward cancel out. */
  lemma PreviousThenNext(index: int, count: nat)
    requires 0 <= index < count - 1
    ensures NextIndex(PreviousIndex(index, count)) == index
  {
  }

  /** The arrows keep a valid position valid. */
  lemma ArrowsKeepBounds(index: int, count: nat)
    requires 0 <= index < count
    ensures 0 <= PreviousIndex(index, count) < count && 0 <= NextIndex(index) < count
    ensures PreviousIndex(index, count) >= index && NextIndex(index) <= index
  {
  }

  /** What the screen shows for the selection: today's own data, or a synthetic day for that date. */
  datatype Shown = TodayData | SyntheticFor(date: Date)

  function ShownFor(items: seq<DateNavItem>, index: int, today: Date): (s: Shown)
    requires items != [] ==> 0 <= index < |items|
    ensures items == [] ==> s == TodayData
    ensures s.SyntheticFor? ==> s.date != today && s.date == items[index].date
    ensures items != [] && items[index].date == today ==> s == TodayData
  {
    if items == [] then TodayData
    else if items[index].date == today then TodayData
    else SyntheticFor(items[index].date)
  }

  /** The selected position of one screen's date strip. */
  class DateNavigator {
    var items: seq<DateNavItem>
    var selectedNavIndex: int

    /** The index is a position of the list whenever the list has one. */
    predicate Valid()
      reads this
    {
      items != [] ==> 0 <= selectedNavIndex < |items|
    }

    /** A new list starts at position 0. */
    constructor(items: seq<DateNavItem>)
      ensures this.items == items && selectedNavIndex == 0
      ensures Valid()
    {
      this.items := items;
      selectedNavIndex := 0;
    }

    method Previous()
      requires Valid()
      modifies this
      ensures Valid()
      ensures items == old(items) && selectedNavIndex == PreviousIndex(old(selectedNavIndex), |items|)
    {
      if selectedNavIndex < |items| - 1 {
        selectedNavIndex := selectedNavIndex + 1;
      }
    }

    method Next()
      requires Valid()
      modifies this
      ensures Valid()
      ensures items == old(items) && selectedNavIndex == NextIndex(old(selectedNavIndex))
    {
      if selectedNavIndex > 0 {
        selectedNavIndex := selectedNavIndex - 1;
      }
    }

    /** The effect run when the list's size changes: pull the index into `0..lastIndex`. */
    method CoerceIndex()
      modifies this
      ensures Valid()
      ensures items == old(items)
      ensures items != [] ==> selectedNavIndex == CoerceIn(old(selectedNavIndex), 0, |items| - 1)
      ensures items == [] ==> selectedNavIndex == old(selectedNavIndex)
    {
      if items != [] {
        selectedNavIndex := CoerceIn(selectedNavIndex, 0, |items| - 1);
      }
    }

    /** The screen's data for the selection. */
    method Shown(today: Date) returns (s: Shown)
      requires Valid()
      ensures s == ShownFor(items, selectedNavIndex, today)
      ensures s.SyntheticFor? ==> s.date != today
    {
      if items == [] {
        s := TodayData;
      } else {
        var selectedDate := items[selectedNavIndex].date;
        s := if selectedDate == today then TodayData else SyntheticFor(selectedDate);
      }
    }
  }
}
