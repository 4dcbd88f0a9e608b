/**
 * The blood-pressure screen's synthetic day: for a past date it adjusts each
 * of today's readings by a small bounded step, clamps it to a plausible
 * range and recomputes the average, the lowest, the highest and the current
 * reading. The steps come from a random source seeded with the date's epoch
 * day; here they are the input `deltas`.
 */
module BloodPressure {
  import opened Lists
  import opened MedicationModel

  datatype BPReading = BPReading(systolic: int, diastolic: int, pulse: int, timestamp: string)

  /** One reading's random steps. */
  datatype BPDelta = BPDelta(systolic: int, diastolic: int, pulse: int)

  /** `nextInt(-6, 7)`, `nextInt(-4, 5)` and `nextInt(-6, 7)`. */
  predicate DeltaInRange(d: BPDelta) {
    -6 <= d.systolic <= 6 && -4 <= d.diastolic <= 4 && -6 <= d.pulse <= 6
  }

  datatype DailyBP = DailyBP(date: Date, readings: seq<BPReading>, current: BPReading, average: BPReading,
                             lowest: BPReading, highest: BPReading)

  /** The clamped ranges of a synthetic reading. */
  predicate InClampRange(r: BPReading) {
    105 <= r.systolic <= 145 && 65 <= r.diastolic <= 95 && 60 <= r.pulse <= 110
  }

  /** `adjustReading`: each value moves by its step and is clamped; the timestamp stays. */
  function AdjustReading(r: BPReading, d: BPDelta): (a: BPReading)
    requires DeltaInRange(d)
    ensures InClampRange(a)
    ensures a.timestamp == r.timestamp
    ensures InClampRange(r) ==> -6 <= a.systolic - r.systolic <= 6 && -4 <= a.diastolic - r.diastolic <= 4 &&
                                -6 <= a.pulse - r.pulse <= 6
  {
    r.(systolic := CoerceIn(r.systolic + d.systolic, 105, 145),
       diastolic := CoerceIn(r.diastolic + d.diastolic, 65, 95),
       pulse := CoerceIn(r.pulse + d.pulse, 60, 110))
  }

  /** The key `minByOrNull` and `maxByOrNull` compare by. */
  function Load(r: BPReading): int {
    r.systolic + r.diastolic
  }

  function Systolics(rs: seq<BPReading>): (v: seq<int>)
    ensures |v| == |rs| && forall i :: 0 <= i < |rs| ==> v[i] == rs[i].systolic
  {
    seq(|rs|, i requires 0 <= i < |rs| => rs[i].systolic)
  }

  function Diastolics(rs: seq<BPReading>): (v: seq<int>)
    ensures |v| == |rs| && forall i :: 0 <= i < |rs| ==> v[i] == rs[i].diastolic
  {
    seq(|rs|, i requires 0 <= i < |rs| => rs[i].diastolic)
  }

  function Pulses(rs: seq<BPReading>): (v: seq<int>)
    ensures |v| == |rs| && forall i :: 0 <= i < |rs| ==> v[i] == rs[i].pulse
  {
    seq(|rs|, i requires 0 <= i < |rs| => rs[i].pulse)
  }

  /** The adjusted readings, in order. */
  function AdjustAll(rs: seq<BPReading>, deltas: seq<BPDelta>): (a: seq<BPReading>)
    requires |deltas| == |rs| && forall i :: 0 <= i < |deltas| ==> DeltaInRange(deltas[i])
    ensures |a| == |rs|
    ensures forall i :: 0 <= i < |rs| ==> a[i] == AdjustReading(rs[i], deltas[i])
  {
    seq(|rs|, i requires 0 <= i < |rs| => AdjustReading(rs[i], deltas[i]))
  }

  /**
   * `generateSyntheticDailyBPData`. The template must have a reading, as the
   * average copies the first one.
   */
  function GenerateDay(template: DailyBP, targetDate: Date, deltas: seq<BPDelta>): (r: DailyBP)
    requires |template.readings| > 0
    requires |deltas| == |template.readings| && forall i :: 0 <= i < |deltas| ==> DeltaInRange(deltas[i])
    ensures r.date == targetDate
    ensures |r.readings| == |template.readings|
    ensures forall i :: 0 <= i < |r.readings| ==>
      r.readings[i] == AdjustReading(template.readings[i], deltas[i]) && r.readings[i].timestamp == template.readings[i].timestamp
    ensures r.current == r.readings[|r.readings| - 1]
    ensures r.average.timestamp == "Average"
    ensures IsTruncatedMean(r.average.systolic, Systolics(r.readings))
    ensures IsTruncatedMean(r.average.diastolic, Diastolics(r.readings))
    ensures IsTruncatedMean(r.average.pulse, Pulses(r.readings))
    ensures r.lowest in r.readings && r.highest in r.readings
    ensures forall i :: 0 <= i < |r.readings| ==> Load(r.lowest) <= Load(r.readings[i]) <= Load(r.highest)
  {
    var readings := AdjustAll(template.readings, deltas);
    var averageReading := readings[0].(systolic := Mean(Systolics(readings)), diastolic := Mean(Diastolics(readings)),
                                       pulse := Mean(Pulses(readings)), timestamp := "Average");
    var lowest := readings[FirstMinIndex(readings, Load)];
    var highest := readings[FirstMaxIndex(readings, Load)];
    template.(date := targetDate, readings := readings, current := readings[|readings| - 1],
              average := averageReading, lowest := lowest, highest := highest)
  }

  /** The lowest and highest are the first readings of least and greatest load. */
  lemma ExtremesAreFirst(template: DailyBP, targetDate: Date, deltas: seq<BPDelta>)
    requires |template.readings| > 0
    requires |deltas| == |template.readings| && forall i :: 0 <= i < |deltas| ==> DeltaInRange(deltas[i])
    ensures var r := GenerateDay(template, targetDate, deltas);
      exists k :: 0 <= k < |r.readings| && r.lowest == r.readings[k] && forall j :: 0 <= j < k ==> Load(r.readings[j]) > Load(r.lowest)
    ensures var r := GenerateDay(template, targetDate, deltas);
      exists k :: 0 <= k < |r.readings| && r.highest == r.readings[k] && forall j :: 0 <= j < k ==> Load(r.readings[j]) < Load(r.highest)
  {
    var r := GenerateDay(template, targetDate, deltas);
    var lo := FirstMinIndex(r.readings, Load);
    var hi := FirstMaxIndex(r.readings, Load);
    assert r.lowest == r.readings[lo];
    assert r.highest == r.readings[hi];
  }

  /** Every synthetic reading, and the average, lie in the clamped ranges. */
  lemma GeneratedInRange(template: DailyBP, targetDate: Date, deltas: seq<BPDelta>)
    requires |template.readings| > 0
    requires |deltas| == |template.readings| && forall i :: 0 <= i < |deltas| ==> DeltaInRange(deltas[i])
    ensures var r := GenerateDay(template, targetDate, deltas);
      (forall i :: 0 <= i < |r.readings| ==> InClampRange(r.readings[i])) && InClampRange(r.current) && InClampRange(r.average)
  {
    var r := GenerateDay(template, targetDate, deltas);
    MeanBounds(Systolics(r.readings), 105, 145);
    MeanBounds(Diastolics(r.readings), 65, 95);
    MeanBounds(Pulses(r.readings), 60, 110);
  }
}
