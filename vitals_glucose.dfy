/**
 * The glucose screen's synthetic day: each of today's readings moves by a
 * bounded random step, is clamped and categorised again; the average,
 * minimum, maximum and current readings are recomputed. The steps come from
 * a random source seeded with the date's epoch day; here they are the input
 * `deltas`.
 */
module Glucose {
  import opened Lists
  import opened MedicationModel

  datatype Category = Low | Normal | High

  datatype GlucoseReading = GlucoseReading(value: int, timestamp: string, category: Category)

  datatype DailyGlucose = DailyGlucose(date: Date, readings: seq<GlucoseReading>, current: GlucoseReading,
                                       average: GlucoseReading, min: GlucoseReading, max: GlucoseReading)

  /** `categorize`: low below 70, normal up to 140, high above. */
  function Categorize(value: int): (c: Category)
    ensures c == Low <==> value < 70
    ensures c == Normal <==> 70 <= value <= 140
    ensures c == High <==> value > 140
  {
    if value < 70 then Low else if value <= 140 then Normal else High
  }

  /** `nextInt(-12, 13)`. */
  predicate DeltaInRange(d: int) {
    -12 <= d <= 12
  }

  /** One synthetic reading: the value moves by the step, is clamped to 70..160 and categorised again. */
  function AdjustReading(r: GlucoseReading, delta: int): (a: GlucoseReading)
    requires DeltaInRange(delta)
    ensures 70 <= a.value <= 160 && a.category == Categorize(a.value) && a.timestamp == r.timestamp
    ensures 70 <= r.value <= 160 ==> -12 <= a.value - r.value <= 12
  {
    var newValue := CoerceIn(r.value + delta, 70, 160);
    GlucoseReading(newValue, r.timestamp, Categorize(newValue))
  }

  function Values(rs: seq<GlucoseReading>): (v: seq<int>)
    ensures |v| == |rs| && forall i :: 0 <= i < |rs| ==> v[i] == rs[i].value
  {
    seq(|rs|, i requires 0 <= i < |rs| => rs[i].value)
  }

  /** The adjusted readings, in order. */
  function AdjustAll(rs: seq<GlucoseReading>, deltas: seq<int>): (a: seq<GlucoseReading>)
    requires |deltas| == |rs| && forall i :: 0 <= i < |deltas| ==> DeltaInRange(deltas[i])
    ensures |a| == |rs|
    ensures forall i :: 0 <= i < |rs| ==> a[i] == AdjustReading(rs[i], deltas[i])
  {
    seq(|rs|, i requires 0 <= i < |rs| => AdjustReading(rs[i], deltas[i]))
  }

  function Value(r: GlucoseReading): int {
    r.value
  }

  /**
   * `generateSyntheticDailyGlucoseData`. The readings must not be empty,
   * as the fallbacks for the extremes take the first and last reading.
   */
  function GenerateDay(template: DailyGlucose, targetDate: Date, deltas: seq<int>): (r: DailyGlucose)
    requires |template.readings| > 0
    requires |deltas| == |template.readings| && forall i :: 0 <= i < |deltas| ==> DeltaInRange(deltas[i])
    ensures r.date == targetDate
    ensures |r.readings| == |template.readings|
    ensures forall i :: 0 <= i < |r.readings| ==>
      r.readings[i] == AdjustReading(template.readings[i], deltas[i]) && r.readings[i].timestamp == template.readings[i].timestamp
    ensures r.current == r.readings[|r.readings| - 1]
    ensures r.average.timestamp == "Average" && r.average.category == Categorize(r.average.value)
    ensures r.average.value == Mean(Values(r.readings)) && IsTruncatedMean(r.average.value, Values(r.readings))
    ensures r.min in r.readings && r.max in r.readings
    ensures forall i :: 0 <= i < |r.readings| ==> r.min.value <= r.readings[i].value <= r.max.value
  {
    var readings := AdjustAll(template.readings, deltas);
    var average := Mean(Values(readings));
    var averageReading := GlucoseReading(average, "Average", Categorize(average));
    template.(date := targetDate, readings := readings, current := readings[|readings| - 1], average := averageReading,
              min := readings[FirstMinIndex(readings, Value)], max := readings[FirstMaxIndex(readings, Value)])
  }

  /** The min and max are the first readings of least and greatest value. */
  lemma ExtremesAreFirst(template: DailyGlucose, targetDate: Date, deltas: seq<int>)
    requires |template.readings| > 0
    requires |deltas| == |template.readings| && forall i :: 0 <= i < |deltas| ==> DeltaInRange(deltas[i])
    ensures var r := GenerateDay(template, targetDate, deltas);
      exists k :: 0 <= k < |r.readings| && r.min == r.readings[k] && forall j :: 0 <= j < k ==> r.readings[j].value > r.min.value
    ensures var r := GenerateDay(template, targetDate, deltas);
      exists k :: 0 <= k < |r.readings| && r.max == r.readings[k] && forall j :: 0 <= j < k ==> r.readings[j].value < r.max.value
  {
    var r := GenerateDay(template, targetDate, deltas);
    var lo := FirstMinIndex(r.readings, Value);
    var hi := FirstMaxIndex(r.readings, Value);
    assert r.min == r.readings[lo];
    assert r.max == r.readings[hi];
  }

  /** Clamping keeps every synthetic reading, and their average, out of the low category. */
  lemma NoSyntheticLow(template: DailyGlucose, targetDate: Date, deltas: seq<int>)
    requires |template.readings| > 0
    requires |deltas| == |template.readings| && forall i :: 0 <= i < |deltas| ==> DeltaInRange(deltas[i])
    ensures var r := GenerateDay(template, targetDate, deltas);
      (forall i :: 0 <= i < |r.readings| ==> r.readings[i].category != Low) && r.average.category != Low &&
      70 <= r.average.value <= 160
  {
    var r := GenerateDay(template, targetDate, deltas);
    MeanBounds(Values(r.readings), 70, 160);
  }
}
