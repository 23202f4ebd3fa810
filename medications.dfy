/** The medication reminders: a list of medications, each with the time it
    was last taken; "Mark as Taken" stamps one of them. */
module Medications {

  import opened Text

  /** `lastTaken` is `null` until the first dose, then an ISO-8601 timestamp. */
  datatype Medication = Medication(id: int, name: string, frequency: string, lastTaken: Option<string>)

  /** The ids of `meds`, in list order. */
  function Ids(meds: seq<Medication>): (ids: seq<int>)
    ensures |ids| == |meds|
    ensures forall i :: 0 <= i < |meds| ==> ids[i] == meds[i].id
  {
    seq(|meds|, i requires 0 <= i < |meds| => meds[i].id)
  }

  /** `handleTakeMedication(id)`: a new list in which every medication with
      that id has `lastTaken` set to `now` (the clock reading, as
      `new Date().toISOString()` renders it) and nothing else changes. */
  function MarkTaken(meds: seq<Medication>, id: int, now: string): (r: seq<Medication>)
    ensures |r| == |meds|
    ensures forall i :: 0 <= i < |meds| && meds[i].id == id ==>
      r[i].lastTaken == Some(now) && r[i].id == id &&
      r[i].name == meds[i].name && r[i].frequency == meds[i].frequency
    ensures forall i :: 0 <= i < |meds| && meds[i].id != id ==> r[i] == meds[i]
  {
    seq(|meds|, i requires 0 <= i < |meds| =>
      if meds[i].id == id then meds[i].(lastTaken := Some(now)) else meds[i])
  }

  /** `med.lastTaken && ...`: the "Last taken" line is shown exactly for a
      truthy timestamp; `null` and the empty string are falsy. */
  predicate ShowsLastTaken(med: Medication): (r: bool)
    ensures med.lastTaken.None? ==> !r
    ensures med.lastTaken.Some? ==> (r <==> |med.lastTaken.value| > 0)
  {
    med.lastTaken.Some? && med.lastTaken.value != ""
  }

  /** The list keeps its ids, in order; so distinct ids stay distinct. */
  lemma MarkTakenKeepsIds(meds: seq<Medication>, id: int, now: string)
    ensures Ids(MarkTaken(meds, id, now)) == Ids(meds)
    ensures Distinct(Ids(meds)) ==> Distinct(Ids(MarkTaken(meds, id, now)))
  {
    var r := MarkTaken(meds, id, now);
    assert forall i :: 0 <= i < |meds| ==> r[i].id == meds[i].id;
  }

  /** An id that names no medication changes nothing. */
  lemma MarkTakenAbsentId(meds: seq<Medication>, id: int, now: string)
    requires forall i :: 0 <= i < |meds| ==> meds[i].id != id
    ensures MarkTaken(meds, id, now) == meds
  {
  }

  /** Pressing the button twice at the same instant is the same as once. */
  lemma MarkTakenIdempotent(meds: seq<Medication>, id: int, now: string)
    ensures MarkTaken(MarkTaken(meds, id, now), id, now) == MarkTaken(meds, id, now)
  {
  }

  /** Marking with a later reading overrides the earlier one. */
  lemma MarkTakenLastWins(meds: seq<Medication>, id: int, earlier: string, later: string)
    ensures MarkTaken(MarkTaken(meds, id, earlier), id, later) == MarkTaken(meds, id, later)
  {
  }

  /** After marking, the marked medications show their time. */
  lemma MarkedShowsLastTaken(meds: seq<Medication>, id: int, now: string, i: int)
    requires now != ""
    requires 0 <= i < |meds| && meds[i].id == id
    ensures ShowsLastTaken(MarkTaken(meds, id, now)[i])
  {
  }

  /** A medication that has never been taken shows no time. */
  lemma NeverTakenShowsNothing(med: Medication)
    requires med.lastTaken == None
    ensures !ShowsLastTaken(med)
  {
  }
}
