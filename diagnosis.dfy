/** The diagnosis stage of a patient's journey.

    A patient whose symptom is "Fracture" or "Respiratory Difficulty" first
    goes through the hospital's X-ray sub-process; every patient then spends
    the diagnostic evaluation delay, drawn between 10 and 20 minutes. */
module DiagnosisStage {
  import opened Patients
  import opened Journey

  /** The symptoms that call for an X-ray before diagnosis. */
  const XRaySymptoms: seq<string> := [Fracture, RespiratoryDifficulty]

  /** How long the X-ray sub-process takes, and the drawn evaluation delay. */
  datatype DiagnosisTimes = DiagnosisTimes(xray: real, evaluation: real) {
    predicate InRange() {
      xray >= 0.0 && 10.0 <= evaluation <= 20.0
    }
  }

  /** The diagnosis of `p`, starting at `now`. */
  function PerformDiagnosis(p: Patient, now: real, d: DiagnosisTimes): (r: Run)
    requires d.InRange()
    ensures r.Valid() && r.start == now && 1 <= |r.trace| <= 2
    // the evaluation delay is always spent, and it is the last step
    ensures r.trace[|r.trace| - 1] == Entry(Diagnosis, r.end - d.evaluation, d.evaluation)
  {
    var imaged := if p.symptom in XRaySymptoms then Then(Begin(now), XRay, d.xray) else Begin(now);
    Then(imaged, Diagnosis, d.evaluation)
  }

  /** An X-ray happens exactly for the symptoms "Fracture" and "Respiratory
      Difficulty" (so never for "Chest Pain", "Lump" or "Sore Throat"), it
      comes first, and the evaluation happens exactly once. */
  lemma DiagnosisXRay(p: Patient, now: real, d: DiagnosisTimes)
    requires d.InRange()
    ensures var r := PerformDiagnosis(p, now, d);
      && (XRay in r.Steps() <==> p.symptom == Fracture || p.symptom == RespiratoryDifficulty)
      && (XRay in r.Steps() ==> r.trace[0] == Entry(XRay, now, d.xray))
      && Count(r.Steps(), Diagnosis) == 1
      && forall s :: s in r.Steps() ==> s == XRay || s == Diagnosis
  {
    var steps := PerformDiagnosis(p, now, d).Steps();
    assert steps == steps[..|steps| - 1] + [Diagnosis];
    CountAppend(steps[..|steps| - 1], [Diagnosis], Diagnosis);
  }

  /** Diagnosis lasts the X-ray time (none without an X-ray) plus the
      evaluation delay, so at least ten minutes. */
  lemma DiagnosisElapsed(p: Patient, now: real, d: DiagnosisTimes)
    requires d.InRange()
    ensures var r := PerformDiagnosis(p, now, d);
      && r.end - now == (if p.symptom in XRaySymptoms then d.xray else 0.0) + d.evaluation
      && r.end >= now + 10.0
  {
  }
}
