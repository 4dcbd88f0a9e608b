/**
 * The watch side: the medication repository that keeps the decoded list and
 * its stored text, and the data listener that feeds it from the phone.
 */
module WatchStore {
  import opened Wrappers
  import opened WatchCodec

  /**
   * The watch's `MedicationRepository`. `stored` is the value under the
   * `medications_data` preference key (`None` when nothing was ever written).
   */
  class WatchMedicationRepository {
    var medications: seq<WatchMedication>
    var stored: Option<string>

    /** `init { loadMedications() }`: a missing key reads as "". */
    constructor(stored: Option<string>)
      ensures this.stored == stored
      ensures medications == Parse(stored.GetOr(""))
    {
      this.stored := stored;
      medications := Parse(stored.GetOr(""));
    }

    /** The in-memory list is the decoding of the stored text. */
    predicate Consistent()
      reads this
    {
      medications == Parse(stored.GetOr(""))
    }

    /** Publishes the new list and writes its encoding. */
    method UpdateMedications(meds: seq<WatchMedication>)
      modifies this
      ensures medications == meds
      ensures stored == Some(Encode(meds))
    {
      medications := meds;
      stored := Some(Encode(meds));
    }

    /** Re-reads the stored text. */
    method LoadMedications()
      modifies this
      ensures stored == old(stored)
      ensures medications == Parse(stored.GetOr(""))
      ensures Consistent()
    {
      medications := Parse(stored.GetOr(""));
    }
  }

  /**
   * After an update with clean records, a repository opened on the stored
   * text (the app restarted) holds exactly the list that was written.
   */
  method RestartAfterUpdate(repo: WatchMedicationRepository, meds: seq<WatchMedication>) returns (reopened: WatchMedicationRepository)
    requires forall i :: 0 <= i < |meds| ==> Clean(meds[i])
    modifies repo
    ensures repo.medications == meds && repo.Consistent()
    ensures fresh(reopened) && reopened.medications == meds && reopened.stored == repo.stored
  {
    repo.UpdateMedications(meds);
    RoundTrip(meds);
    reopened := new WatchMedicationRepository(repo.stored);
  }

  datatype EventKind = Changed | Deleted

  /** A data event: its type, the data item's path and its `medications` string. */
  datatype DataEvent = DataEvent(kind: EventKind, path: Option<string>, payload: Option<string>)

  const MedicationPath := "/medication_data"

  /** The listener acts on changed items whose path is `/medication_data`. */
  predicate Relevant(e: DataEvent) {
    e.kind == Changed && e.path == Some(MedicationPath)
  }

  /** Event `i` is relevant and no later one is. */
  predicate IsLastRelevant(events: seq<DataEvent>, i: int) {
    0 <= i < |events| && Relevant(events[i]) && forall j :: i < j < |events| ==> !Relevant(events[j])
  }

  /** Dropping an irrelevant last event keeps which event is the last relevant one. */
  lemma IrrelevantLast(events: seq<DataEvent>)
    requires events != [] && !Relevant(events[|events| - 1])
    ensures forall i :: IsLastRelevant(events[..|events| - 1], i) ==> IsLastRelevant(events, i)
    ensures forall i :: 0 <= i < |events| - 1 ==> events[..|events| - 1][i] == events[i]
  {
    var prefix := events[..|events| - 1];
    assert forall i :: 0 <= i < |prefix| ==> prefix[i] == events[i];
  }

  /** The text of the last relevant event (a missing string reads as ""), if any. */
  function LastUpdate(events: seq<DataEvent>): (r: Option<string>)
    ensures r.None? <==> forall i :: 0 <= i < |events| ==> !Relevant(events[i])
    ensures r.Some? ==> exists i :: IsLastRelevant(events, i) && r.value == events[i].payload.GetOr("")
  {
    if events == [] then None
    else
      var e := events[|events| - 1];
      if Relevant(e) then
        assert IsLastRelevant(events, |events| - 1);
        Some(e.payload.GetOr(""))
      else
        IrrelevantLast(events);
        LastUpdate(events[..|events| - 1])
  }

  lemma {:induction false} LastUpdateAppend(events: seq<DataEvent>, e: DataEvent)
    ensures LastUpdate(events + [e]) == if Relevant(e) then Some(e.payload.GetOr("")) else LastUpdate(events)
  {
    assert (events + [e])[..|events|] == events;
  }

  /**
   * `onDataChanged`: every relevant event replaces the watch's list with its
   * decoding, so the last one wins; other events change nothing.
   */
  method OnDataChanged(events: seq<DataEvent>, repo: WatchMedicationRepository)
    modifies repo
    ensures LastUpdate(events).None? ==> repo.medications == old(repo.medications) && repo.stored == old(repo.stored)
    ensures LastUpdate(events).Some? ==>
      repo.medications == Parse(LastUpdate(events).value) && repo.stored == Some(Encode(repo.medications))
    ensures LastUpdate(events).Some? ==> repo.Consistent()
  {
    var k := 0;
    while k < |events|
      invariant 0 <= k <= |events|
      invariant LastUpdate(events[..k]).None? ==> repo.medications == old(repo.medications) && repo.stored == old(repo.stored)
      invariant LastUpdate(events[..k]).Some? ==>
        repo.medications == Parse(LastUpdate(events[..k]).value) && repo.stored == Some(Encode(repo.medications))
    {
      var e := events[k];
      if e.kind == Changed && e.path == Some(MedicationPath) {
        var meds := Parse(e.payload.GetOr(""));
        repo.UpdateMedications(meds);
      }
      assert events[..k + 1] == events[..k] + [e];
      LastUpdateAppend(events[..k], e);
      k := k + 1;
    }
    assert events[..k] == events;
    if LastUpdate(events).Some? {
      ReparseIsStable(LastUpdate(events).value);
    }
  }
}
