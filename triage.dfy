/** The triage stage of a patient's journey.

    Triage registers a "Triage" event at the current time, waits the triage
    delay, and then sends the patient by severity to exactly one kind of
    care: emergency care for "Critical", urgent consultation for "Severe",
    and general consultation for every other label.  Only the general
    branch ends in discharge within triage itself. */
module TriageStage {
  import opened Patients
  import opened Journey

  /** The delays a triage consumes: the drawn triage time, and how long the
      hospital's consultation and discharge sub-processes take. */
  datatype TriageTimes = TriageTimes(triage: real, consultation: real, discharge: real) {
    predicate InRange() {
      3.0 <= triage <= 7.0 && consultation >= 0.0 && discharge >= 0.0
    }
  }

  /** The triage of `p`, starting at `now`. */
  function PerformTriage(p: Patient, now: real, d: TriageTimes): (r: Run)
    requires d.InRange()
    ensures r.Valid() && r.start == now && 2 <= |r.trace| <= 3
    // the triage event carries the start time; the triage delay follows it
    ensures r.trace[0] == Entry(Triage, now, d.triage)
  {
    var triaged := Then(Begin(now), Triage, d.triage);
    if p.severity == Critical then
      Then(triaged, Emergency, d.consultation)
    else if p.severity == Severe then
      Then(triaged, Urgent, d.consultation)
    else
      Then(Then(triaged, General, d.consultation), Discharge, d.discharge)
  }

  /** The steps triage performs, by branch. */
  lemma TriageSteps(p: Patient, now: real, d: TriageTimes)
    requires d.InRange()
    ensures var steps := PerformTriage(p, now, d).Steps();
      && (p.severity == Critical ==> steps == [Triage, Emergency])
      && (p.severity == Severe ==> steps == [Triage, Urgent])
      && (p.severity != Critical && p.severity != Severe ==> steps == [Triage, General, Discharge])
  {
  }

  /** Severity alone picks the consultation: "Critical" goes to emergency
      care, "Severe" to urgent consultation, anything else to general
      consultation, and exactly one of the three happens. */
  lemma TriageRouting(p: Patient, now: real, d: TriageTimes)
    requires d.InRange()
    ensures var steps := PerformTriage(p, now, d).Steps();
      && (Emergency in steps <==> p.severity == Critical)
      && (Urgent in steps <==> p.severity == Severe)
      && (General in steps <==> p.severity != Critical && p.severity != Severe)
      && Consultations(steps) == 1
      && IsConsultation(steps[1])
      && forall s :: s in steps ==> s == Triage || IsConsultation(s) || s == Discharge
  {
    TriageSteps(p, now, d);
    var steps := PerformTriage(p, now, d).Steps();
    assert steps == [Triage] + steps[1..];
    ConsultationsAppend([Triage], steps[1..]);
    if |steps| == 3 {
      assert steps[1..] == [General] + [Discharge];
      ConsultationsAppend([General], [Discharge]);
    }
  }

  /** Discharge happens inside triage exactly on the general branch, at most
      once, as the last step and after the general consultation. */
  lemma TriageDischarge(p: Patient, now: real, d: TriageTimes)
    requires d.InRange()
    ensures var r := PerformTriage(p, now, d);
      && (Discharge in r.Steps() <==> General in r.Steps())
      && Count(r.Steps(), Discharge) <= 1
      && (Discharge in r.Steps() ==> r.trace[|r.trace| - 1].step == Discharge)
      && forall i, j ::
           0 <= i < |r.trace| && 0 <= j < |r.trace| && r.trace[i].step == General && r.trace[j].step == Discharge
           ==> i < j
  {
    TriageSteps(p, now, d);
    var steps := PerformTriage(p, now, d).Steps();
    assert steps == [Triage] + [steps[1]] + steps[2..];
    CountAppend([Triage] + [steps[1]], steps[2..], Discharge);
    CountAppend([Triage], [steps[1]], Discharge);
  }

  /** The care step starts once the triage delay has elapsed, and nothing
      that follows starts earlier; triage lasts at least three minutes. */
  lemma TriageTiming(p: Patient, now: real, d: TriageTimes)
    requires d.InRange()
    ensures var r := PerformTriage(p, now, d);
      && r.trace[1].at == now + d.triage
      && (forall i :: 1 <= i < |r.trace| ==> r.trace[i].at >= now + d.triage)
      && r.end >= now + 3.0
  {
  }
}
