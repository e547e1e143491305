/** The patient generator.

    The program keeps one process-wide id counter, starting at 1.  Each call
    builds a patient from a severity and a symptom chosen from two fixed
    lists and the counter's current value, then increments the counter.  The
    random choices are the indices `Draw` carries. */
module Randomizer {
  import opened Patients

  const Severities: seq<string> := [Critical, Severe, Mild]
  const Symptoms: seq<string> := [ChestPain, Fracture, Lump, RespiratoryDifficulty, SoreThroat]

  /** The positions the two random choices pick in `Severities` and `Symptoms`. */
  datatype Draw = Draw(severity: nat, symptom: nat) {
    predicate InRange() {
      severity < |Severities| && symptom < |Symptoms|
    }
  }

  /** The patient a draw yields when the counter stands at `id`. */
  function Drawn(d: Draw, id: int): (p: Patient)
    requires d.InRange()
    ensures p.id == id
    ensures p.severity == Critical || p.severity == Severe || p.severity == Mild
    ensures p.symptom in {ChestPain, Fracture, Lump, RespiratoryDifficulty, SoreThroat}
  {
    Patient(Severities[d.severity], Symptoms[d.symptom], id)
  }

  /** The ids handed out by the first `n` calls: 1, 2, ..., n. */
  function IssuedIds(n: nat): seq<int> {
    seq(n, i => i + 1)
  }

  /** Ids handed out are positive and strictly increasing, hence distinct. */
  lemma IssuedIdsIncreasing(n: nat)
    ensures forall i :: 0 <= i < n ==> IssuedIds(n)[i] >= 1
    ensures forall i, j :: 0 <= i < j < n ==> IssuedIds(n)[i] < IssuedIds(n)[j]
    ensures forall i, j :: 0 <= i < n && 0 <= j < n && i != j ==> IssuedIds(n)[i] != IssuedIds(n)[j]
  {
  }

  class PatientGenerator {
    /** The id the next patient gets. */
    var counter: int
    /** The ids handed out so far, in order. */
    ghost var issued: seq<int>

    ghost predicate Valid()
      reads this
    {
      counter >= 1 && issued == IssuedIds(counter - 1)
    }

    /** The counter as the module is loaded. */
    constructor ()
      ensures Valid() && counter == 1 && issued == []
    {
      counter := 1;
      issued := [];
    }

    method Generate(d: Draw) returns (p: Patient)
      requires Valid() && d.InRange()
      modifies this
      ensures Valid()
      ensures p == Drawn(d, old(counter))
      ensures counter == old(counter) + 1
      ensures issued == old(issued) + [p.id]
    {
      var severity := Severities[d.severity];
      var symptom := Symptoms[d.symptom];
      p := Patient(severity, symptom, counter);
      counter := counter + 1;
      issued := issued + [p.id];
    }
  }
}
