/**
 * The phone-to-watch medication text: one record per medication, its five
 * fields `id,name,dosage,time,frequency` joined by commas and the records
 * joined by `|`, with no escaping. The phone encoder, the watch's stored copy
 * and the watch decoder all use this one format.
 */
module WatchCodec {
  import opened Wrappers
  import opened Text
  import opened Clock
  import opened MedicationModel

  /** The watch's reduced medication record. */
  datatype WatchMedication = WatchMedication(id: string, name: string, dosage: string, time: string, frequency: string)

  function Fields(m: WatchMedication): seq<string> {
    [m.id, m.name, m.dosage, m.time, m.frequency]
  }

  /** `"${id},${name},${dosage},${time},${frequency}"`. */
  function RecordText(m: WatchMedication): string {
    Join(Fields(m), ",")
  }

  /** `joinToString("|")` of the records: the watch's `saveMedications` text. */
  function Encode(meds: seq<WatchMedication>): (s: string)
    ensures meds == [] ==> s == ""
  {
    Join(seq(|meds|, i requires 0 <= i < |meds| => RecordText(meds[i])), "|")
  }

  /** A segment with exactly five comma-separated parts becomes a record; any other is skipped. */
  function ParseRecord(segment: string): (r: Option<WatchMedication>)
    ensures r.Some? <==> |Split(segment, ",")| == 5
    ensures r.Some? ==> Fields(r.value) == Split(segment, ",")
  {
    var parts := Split(segment, ",");
    if |parts| == 5 then Some(WatchMedication(parts[0], parts[1], parts[2], parts[3], parts[4])) else None
  }

  /** `mapNotNull` of `ParseRecord` over the segments. */
  function ParseSegments(segments: seq<string>): (r: seq<WatchMedication>)
    ensures |r| <= |segments|
  {
    if segments == [] then []
    else
      match ParseRecord(segments[0])
      case Some(m) => [m] + ParseSegments(segments[1..])
      case None => ParseSegments(segments[1..])
  }

  /** `parseMedications`: "" is the empty list; otherwise each `|`-segment is parsed on its own. */
  function Parse(data: string): (r: seq<WatchMedication>)
    ensures data == "" ==> r == []
    ensures data != "" ==> |r| <= |Split(data, "|")|
  {
    if data == "" then [] else ParseSegments(Split(data, "|"))
  }

  /** A malformed segment is skipped without disturbing the segments around it. */
  lemma {:induction false} ParseSegmentsConcat(a: seq<string>, b: seq<string>)
    ensures ParseSegments(a + b) == ParseSegments(a) + ParseSegments(b)
  {
    if a == [] {
      assert a + b == b;
    } else {
      assert (a + b)[0] == a[0];
      assert (a + b)[1..] == a[1..] + b;
      ParseSegmentsConcat(a[1..], b);
    }
  }

  /** One segment contributes one record when it has five parts and none otherwise. */
  lemma ParseSingleSegment(segment: string)
    ensures ParseSegments([segment]) == if |Split(segment, ",")| == 5 then [ParseRecord(segment).value] else []
  {
    assert [segment][1..] == [];
  }

  /** No field holds a delimiter, so the text can be cut back apart. */
  predicate Clean(m: WatchMedication) {
    forall i :: 0 <= i < |Fields(m)| ==> ',' !in Fields(m)[i] && '|' !in Fields(m)[i]
  }

  lemma RecordRoundTrip(m: WatchMedication)
    requires Clean(m)
    ensures ParseRecord(RecordText(m)) == Some(m)
    ensures '|' !in RecordText(m)
  {
    SplitJoin(Fields(m), ",");
    JoinChars(Fields(m), ",", '|');
  }

  lemma {:induction false} SegmentsRoundTrip(meds: seq<WatchMedication>)
    requires forall i :: 0 <= i < |meds| ==> Clean(meds[i])
    ensures ParseSegments(seq(|meds|, i requires 0 <= i < |meds| => RecordText(meds[i]))) == meds
  {
    if meds != [] {
      var records := seq(|meds|, i requires 0 <= i < |meds| => RecordText(meds[i]));
      RecordRoundTrip(meds[0]);
      SegmentsRoundTrip(meds[1..]);
      assert records[1..] == seq(|meds[1..]|, i requires 0 <= i < |meds[1..]| => RecordText(meds[1..][i]));
      assert meds == [meds[0]] + meds[1..];
    }
  }

  /** Decoding the encoding of clean records gives the same records, in order, including none. */
  lemma RoundTrip(meds: seq<WatchMedication>)
    requires forall i :: 0 <= i < |meds| ==> Clean(meds[i])
    ensures Parse(Encode(meds)) == meds
  {
    if meds != [] {
      var records := seq(|meds|, i requires 0 <= i < |meds| => RecordText(meds[i]));
      forall i | 0 <= i < |records| ensures '|' !in records[i] {
        RecordRoundTrip(meds[i]);
      }
      SplitJoin(records, "|");
      SegmentsRoundTrip(meds);
      assert RecordText(meds[0]) != "";
    }
  }

  /** The encoding of clean records has one `|`-segment per record. */
  lemma SegmentCount(meds: seq<WatchMedication>)
    requires |meds| >= 1
    requires forall i :: 0 <= i < |meds| ==> Clean(meds[i])
    ensures |Split(Encode(meds), "|")| == |meds|
  {
    var records := seq(|meds|, i requires 0 <= i < |meds| => RecordText(meds[i]));
    forall i | 0 <= i < |records| ensures '|' !in records[i] {
      RecordRoundTrip(meds[i]);
    }
    SplitJoin(records, "|");
  }

  /** Every record decoded from segments without `|` is clean. */
  lemma {:induction false} ParsedSegmentsClean(segments: seq<string>)
    requires forall i :: 0 <= i < |segments| ==> '|' !in segments[i]
    ensures forall i :: 0 <= i < |ParseSegments(segments)| ==> Clean(ParseSegments(segments)[i])
  {
    if segments != [] {
      ParsedSegmentsClean(segments[1..]);
      SplitPartsChars(segments[0], ',', '|');
    }
  }

  /** Whatever text is decoded, no decoded field holds a delimiter. */
  lemma ParsedIsClean(data: string)
    ensures forall i :: 0 <= i < |Parse(data)| ==> Clean(Parse(data)[i])
  {
    if data != "" {
      SplitPartsChars(data, '|', '|');
      ParsedSegmentsClean(Split(data, "|"));
    }
  }

  /** What the watch decodes, it re-encodes and decodes again to the same list. */
  lemma ReparseIsStable(data: string)
    ensures Parse(Encode(Parse(data))) == Parse(data)
  {
    ParsedIsClean(data);
    RoundTrip(Parse(data));
  }

  /** The time field the phone sends: the first time as "h:mm a", or "No time". */
  function FirstTimeText(m: Medication): (s: string)
    ensures m.medicationTimes == [] ==> s == "No time"
    ensures m.medicationTimes != [] ==> s == FormatClock(m.medicationTimes[0])
  {
    if m.medicationTimes == [] then "No time" else FormatClock(m.medicationTimes[0])
  }

  /**
   * The watch record the phone sends for a medication. The frequency's text is
   * its `toString`, which this model takes as the parameter `freqText`.
   */
  function Project(m: Medication, freqText: Frequency -> string): (r: WatchMedication)
    ensures r.id == m.id && r.name == m.name && r.dosage == m.dosage && r.time == FirstTimeText(m)
    ensures Clean(r) <==> SendsCleanly(m, freqText)
  {
    var t := FirstTimeText(m);
    assert ',' !in t && '|' !in t;
    var r := WatchMedication(m.id, m.name, m.dosage, t, freqText(m.frequency));
    assert Fields(r) == [m.id, m.name, m.dosage, t, freqText(m.frequency)];
    assert Clean(r) ==> SendsCleanly(m, freqText) by {
      if Clean(r) {
        assert Fields(r)[0] == m.id && Fields(r)[1] == m.name && Fields(r)[2] == m.dosage;
        assert Fields(r)[4] == freqText(m.frequency);
      }
    }
    r
  }

  function ProjectAll(meds: seq<Medication>, freqText: Frequency -> string): (r: seq<WatchMedication>)
    ensures |r| == |meds|
    ensures forall i :: 0 <= i < |meds| ==> r[i] == Project(meds[i], freqText)
  {
    seq(|meds|, i requires 0 <= i < |meds| => Project(meds[i], freqText))
  }

  /** `medicationsToJson` of the phone's `MedicationDataService`. */
  function MedicationsToJson(meds: seq<Medication>, freqText: Frequency -> string): (s: string)
    ensures meds == [] ==> s == ""
  {
    Encode(ProjectAll(meds, freqText))
  }

  /** Times after the first are not sent. */
  lemma OnlyFirstTimeSent(m: Medication, freqText: Frequency -> string)
    requires |m.medicationTimes| > 1
    ensures Project(m, freqText) == Project(m.(medicationTimes := m.medicationTimes[..1]), freqText)
  {
  }

  /** A medication whose id, name, dosage and frequency text hold no delimiter. */
  predicate SendsCleanly(m: Medication, freqText: Frequency -> string) {
    ',' !in m.id && '|' !in m.id && ',' !in m.name && '|' !in m.name &&
    ',' !in m.dosage && '|' !in m.dosage && ',' !in freqText(m.frequency) && '|' !in freqText(m.frequency)
  }

  /**
   * Phone to watch: when no field holds a delimiter, the watch decodes exactly
   * the records the phone projected, the same number and in the same order.
   */
  lemma SyncRoundTrip(meds: seq<Medication>, freqText: Frequency -> string)
    requires forall i :: 0 <= i < |meds| ==> SendsCleanly(meds[i], freqText)
    ensures Parse(MedicationsToJson(meds, freqText)) == ProjectAll(meds, freqText)
    ensures |Parse(MedicationsToJson(meds, freqText))| == |meds|
  {
    RoundTrip(ProjectAll(meds, freqText));
  }
}
