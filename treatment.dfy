/** The treatment stage of a patient's journey.

    A "Critical" patient goes through the hospital's surgery sub-process;
    every other patient spends the standard treatment delay, drawn between
    10 and 30 minutes.  Both branches end in the discharge sub-process. */
module TreatmentStage {
  import opened Patients
  import opened Journey

  /** How long surgery and discharge take, and the drawn standard treatment
      delay (drawn, and so bounded, only for a patient who is not critical). */
  datatype TreatmentTimes = TreatmentTimes(surgery: real, standard: real, discharge: real)

  predicate InRange(p: Patient, d: TreatmentTimes) {
    d.surgery >= 0.0 && d.discharge >= 0.0 && (p.severity != Critical ==> 10.0 <= d.standard <= 30.0)
  }

  /** The treatment of `p`, starting at `now`. */
  function PerformTreatment(p: Patient, now: real, d: TreatmentTimes): (r: Run)
    requires InRange(p, d)
    ensures r.Valid() && r.start == now && |r.trace| == 2
    // discharge is the last step and follows the treatment proper
    ensures r.trace[1].step == Discharge && r.trace[0].step in {Surgery, StdTreatment}
  {
    var treated :=
      if p.severity == Critical then Then(Begin(now), Surgery, d.surgery)
      else Then(Begin(now), StdTreatment, d.standard);
    Then(treated, Discharge, d.discharge)
  }

  /** Surgery happens exactly for "Critical" patients and standard treatment
      exactly for the others; discharge happens exactly once. */
  lemma TreatmentBranch(p: Patient, now: real, d: TreatmentTimes)
    requires InRange(p, d)
    ensures var steps := PerformTreatment(p, now, d).Steps();
      && (Surgery in steps <==> p.severity == Critical)
      && (StdTreatment in steps <==> p.severity != Critical)
      && Count(steps, Discharge) == 1
  {
    var steps := PerformTreatment(p, now, d).Steps();
    assert steps == [steps[0]] + [Discharge];
    CountAppend([steps[0]], [Discharge], Discharge);
  }

  /** A patient who is not critical is discharged between 10 and 30 minutes
      after treatment starts. */
  lemma TreatmentStandardDelay(p: Patient, now: real, d: TreatmentTimes)
    requires InRange(p, d) && p.severity != Critical
    ensures var r := PerformTreatment(p, now, d);
      now + 10.0 <= r.trace[1].at <= now + 30.0 && r.end >= now + 10.0
  {
  }
}
