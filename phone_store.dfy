/**
 * The phone's in-memory medication store: a list that add, update and delete
 * replace wholesale, and a lookup by id.
 */
module PhoneStore {
  import opened Wrappers
  import opened Lists
  import opened MedicationModel

  /** The list after `updateMedication(m)`: every entry with `m`'s id is replaced by `m`. */
  function ReplaceById(s: seq<Medication>, m: Medication): (r: seq<Medication>)
    ensures |r| == |s|
    ensures forall i :: 0 <= i < |s| ==> r[i] == if s[i].id == m.id then m else s[i]
  {
    seq(|s|, i requires 0 <= i < |s| => if s[i].id == m.id then m else s[i])
  }

  /** An update whose id is not in the list leaves the list as it was. */
  lemma ReplaceAbsentId(s: seq<Medication>, m: Medication)
    requires forall i :: 0 <= i < |s| ==> s[i].id != m.id
    ensures ReplaceById(s, m) == s
  {
  }

  /** The list after `deleteMedication(id)`: the entries with another id, in order. */
  function RemoveById(s: seq<Medication>, id: string): (r: seq<Medication>)
    ensures forall i :: 0 <= i < |r| ==> r[i].id != id && r[i] in s
    ensures forall i :: 0 <= i < |s| && s[i].id != id ==> s[i] in r
    ensures IsSubsequence(r, s)
  {
    FilterIsSubsequence(s, (x: Medication) => x.id != id);
    Filter(s, (x: Medication) => x.id != id)
  }

  /** Deleting the same id twice is deleting it once. */
  lemma RemoveByIdIdempotent(s: seq<Medication>, id: string)
    ensures RemoveById(RemoveById(s, id), id) == RemoveById(s, id)
  {
    FilterIdempotent(s, (x: Medication) => x.id != id);
  }

  /** `getMedicationById`: the first entry with that id, or none. */
  function FindById(s: seq<Medication>, id: string): (r: Option<Medication>)
    ensures r.None? <==> forall i :: 0 <= i < |s| ==> s[i].id != id
    ensures r.Some? ==> exists k :: 0 <= k < |s| && s[k] == r.value && r.value.id == id &&
                                    forall j :: 0 <= j < k ==> s[j].id != id
  {
    if s == [] then None
    else if s[0].id == id then Some(s[0])
    else
      var r := FindById(s[1..], id);
      assert r.Some? ==> exists k :: 0 <= k < |s| && s[k] == r.value && forall j :: 0 <= j < k ==> s[j].id != id by {
        if r.Some? {
          var k :| 0 <= k < |s[1..]| && s[1..][k] == r.value && r.value.id == id &&
                   forall j :: 0 <= j < k ==> s[1..][j].id != id;
          assert s[k + 1] == r.value;
          assert forall j :: 0 <= j < k + 1 ==> s[j].id != id by {
            forall j | 0 <= j < k + 1 ensures s[j].id != id {
              if j > 0 { assert s[j] == s[1..][j - 1]; }
            }
          }
        }
      }
      r
  }

  /** After a delete, the id is not found. */
  lemma DeletedIsNotFound(s: seq<Medication>, id: string)
    ensures FindById(RemoveById(s, id), id) == None
  {
  }

  /** After an update of a stored id, the lookup finds the new record. */
  lemma UpdatedIsFound(s: seq<Medication>, m: Medication)
    requires exists i :: 0 <= i < |s| && s[i].id == m.id
    ensures FindById(ReplaceById(s, m), m.id) == Some(m)
  {
  }

  /** An appended record with a new id is found; an earlier record with the same id would shadow it. */
  lemma {:induction false} AddedIsFound(s: seq<Medication>, m: Medication)
    ensures FindById(s + [m], m.id) == if FindById(s, m.id).Some? then FindById(s, m.id) else Some(m)
  {
    if s != [] {
      assert (s + [m])[0] == s[0];
      assert (s + [m])[1..] == s[1..] + [m];
      AddedIsFound(s[1..], m);
    }
  }

  /** The phone repository: its medication list, replaced by each change. */
  class MedicationRepository {
    var medications: seq<Medication>

    constructor ()
      ensures medications == []
    {
      medications := [];
    }

    /** `addMedication`: appends, without checking for a duplicate id. */
    method AddMedication(m: Medication)
      modifies this
      ensures medications == old(medications) + [m]
    {
      medications := medications + [m];
    }

    /** `updateMedication`: replaces every entry with the same id. */
    method UpdateMedication(m: Medication)
      modifies this
      ensures medications == ReplaceById(old(medications), m)
    {
      medications := ReplaceById(medications, m);
    }

    /** `deleteMedication`: removes every entry with that id. */
    method DeleteMedication(id: string)
      modifies this
      ensures medications == RemoveById(old(medications), id)
    {
      medications := RemoveById(medications, id);
    }

    /** `getMedicationById`: the first stored medication with the id, if any. */
    function GetMedicationById(id: string): (r: Option<Medication>)
      reads this
      ensures r.None? <==> forall i :: 0 <= i < |medications| ==> medications[i].id != id
      ensures r.Some? ==> r.value in medications && r.value.id == id
      ensures r.Some? ==> exists k :: 0 <= k < |medications| && medications[k] == r.value &&
                                      forall j :: 0 <= j < k ==> medications[j].id != id
    {
      FindById(medications, id)
    }
  }
}
