/**
 * The heart-rate screen's synthetic day: each of today's readings moves by a
 * bounded random step, is clamped, and is given its zone again; the day's
 * average, minimum, maximum and current values are recomputed. The steps
 * come from a random source seeded with the date's epoch day; here they are
 * the input `deltas`.
 */
module HeartRate {
  import opened Lists
  import opened MedicationModel

  datatype Zone = Normal | Elevated | High

  datatype HRReading = HRReading(bpm: int, timestamp: string, zone: Zone)

  datatype DailyHR = DailyHR(date: Date, readings: seq<HRReading>, average: int, min: int, max: int, current: int)

  /** The zone of a rate: normal up to 70, elevated up to 85, high above. */
  function ZoneOf(bpm: int): (z: Zone)
    ensures z == Normal <==> bpm <= 70
    ensures z == Elevated <==> 70 < bpm <= 85
    ensures z == High <==> bpm > 85
  {
    if bpm <= 70 then Normal else if bpm <= 85 then Elevated else High
  }

  /** Zones rise with the rate. */
  lemma ZoneMonotone(a: int, b: int)
    requires a <= b
    ensures ZoneOf(a) == High ==> ZoneOf(b) == High
    ensures ZoneOf(b) == Normal ==> ZoneOf(a) == Normal
  {
  }

  /** `nextInt(-6, 7)`. */
  predicate DeltaInRange(d: int) {
    -6 <= d <= 6
  }

  /** One synthetic reading: the rate moves by the step, is clamped to 55..110 and zoned again. */
  function AdjustReading(r: HRReading, delta: int): (a: HRReading)
    requires DeltaInRange(delta)
    ensures 55 <= a.bpm <= 110 && a.zone == ZoneOf(a.bpm) && a.timestamp == r.timestamp
    ensures 55 <= r.bpm <= 110 ==> -6 <= a.bpm - r.bpm <= 6
  {
    var newBpm := CoerceIn(r.bpm + delta, 55, 110);
    HRReading(newBpm, r.timestamp, ZoneOf(newBpm))
  }

  function Rates(rs: seq<HRReading>): (v: seq<int>)
    ensures |v| == |rs| && forall i :: 0 <= i < |rs| ==> v[i] == rs[i].bpm
  {
    seq(|rs|, i requires 0 <= i < |rs| => rs[i].bpm)
  }

  /** The adjusted readings, in order. */
  function AdjustAll(rs: seq<HRReading>, deltas: seq<int>): (a: seq<HRReading>)
    requires |deltas| == |rs| && forall i :: 0 <= i < |deltas| ==> DeltaInRange(deltas[i])
    ensures |a| == |rs|
    ensures forall i :: 0 <= i < |rs| ==> a[i] == AdjustReading(rs[i], deltas[i])
  {
    seq(|rs|, i requires 0 <= i < |rs| => AdjustReading(rs[i], deltas[i]))
  }

  function Bpm(r: HRReading): int {
    r.bpm
  }

  /**
   * `generateSyntheticDailyHeartRateData`. The readings must not be empty,
   * as the minimum and maximum are taken with `minOf` and `maxOf`.
   */
  function GenerateDay(template: DailyHR, targetDate: Date, deltas: seq<int>): (r: DailyHR)
    requires |template.readings| > 0
    requires |deltas| == |template.readings| && forall i :: 0 <= i < |deltas| ==> DeltaInRange(deltas[i])
    ensures r.date == targetDate
    ensures |r.readings| == |template.readings|
    ensures forall i :: 0 <= i < |r.readings| ==>
      r.readings[i] == AdjustReading(template.readings[i], deltas[i]) && r.readings[i].timestamp == template.readings[i].timestamp
    ensures r.average == Mean(Rates(r.readings)) && IsTruncatedMean(r.average, Rates(r.readings))
    ensures forall i :: 0 <= i < |r.readings| ==> r.min <= r.readings[i].bpm <= r.max
    ensures r.min in Rates(r.readings) && r.max in Rates(r.readings)
    ensures r.current == r.readings[|r.readings| - 1].bpm
  {
    var readings := AdjustAll(template.readings, deltas);
    var average := Mean(Rates(readings));
    var lo := FirstMinIndex(readings, Bpm);
    var hi := FirstMaxIndex(readings, Bpm);
    DailyHR(targetDate, readings, average, readings[lo].bpm, readings[hi].bpm, readings[|readings| - 1].bpm)
  }

  /** The day's figures all lie in the clamped range 55..110, and the average between min and max. */
  lemma GeneratedInRange(template: DailyHR, targetDate: Date, deltas: seq<int>)
    requires |template.readings| > 0
    requires |deltas| == |template.readings| && forall i :: 0 <= i < |deltas| ==> DeltaInRange(deltas[i])
    ensures var r := GenerateDay(template, targetDate, deltas);
      55 <= r.min <= r.average <= r.max <= 110 && 55 <= r.current <= 110
  {
    var r := GenerateDay(template, targetDate, deltas);
    var rates := Rates(r.readings);
    MeanBounds(rates, r.min, r.max);
    var k :| 0 <= k < |r.readings| && r.readings[k].bpm == r.min;
    var m :| 0 <= m < |r.readings| && r.readings[m].bpm == r.max;
    assert 55 <= r.readings[k].bpm && r.readings[m].bpm <= 110;
  }
}
