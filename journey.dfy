/** Step traces of a patient's journey on the virtual clock.

    A stage of the journey is a straight-line sequence of steps, each of
    which occupies the patient for some stretch of virtual time: a timeout
    of the simulator, or a hospital sub-process whose length (service plus
    any queueing) the stage cannot see.  A `Run` records the steps in order
    with the time each one starts and how long it lasts; it is valid when
    the steps are contiguous: the first starts at the run's start, each next
    one starts exactly when the previous one finishes, and the last one
    finishes at the run's end.  This is how a single simulator process sees
    its own clock: it only moves forward, and only by the delays it waits. */
module Journey {

  datatype Step =
    | Triage        // triage registration followed by the triage delay
    | Emergency     // emergency care
    | Urgent        // urgent consultation
    | General       // general consultation
    | XRay          // X-ray examination
    | Diagnosis     // the diagnostic evaluation delay
    | Surgery       // surgery
    | StdTreatment  // the standard treatment delay
    | Discharge     // discharge

  predicate IsConsultation(s: Step) {
    s == Emergency || s == Urgent || s == General
  }

  /** One step of a trace: what happens, when it starts, how long it lasts. */
  datatype Entry = Entry(step: Step, at: real, dur: real)

  /** `t` fills the interval from `start` to `end` without gaps or overlaps. */
  predicate Contiguous(t: seq<Entry>, start: real, end: real)
    decreases |t|
  {
    if t == [] then start == end
    else t[0].at == start && t[0].dur >= 0.0 && Contiguous(t[1..], start + t[0].dur, end)
  }

  function TotalDuration(t: seq<Entry>): real
    decreases |t|
  {
    if t == [] then 0.0 else t[0].dur + TotalDuration(t[1..])
  }

  function StepsOf(t: seq<Entry>): seq<Step> {
    seq(|t|, i requires 0 <= i < |t| => t[i].step)
  }

  /** How often `s` occurs in `steps`. */
  function Count(steps: seq<Step>, s: Step): nat
    decreases |steps|
  {
    if steps == [] then 0 else (if steps[0] == s then 1 else 0) + Count(steps[1..], s)
  }

  /** How many consultation steps occur in `steps`. */
  function Consultations(steps: seq<Step>): nat
    decreases |steps|
  {
    if steps == [] then 0 else (if IsConsultation(steps[0]) then 1 else 0) + Consultations(steps[1..])
  }

  lemma {:induction false} CountAppend(a: seq<Step>, b: seq<Step>, s: Step)
    ensures Count(a + b, s) == Count(a, s) + Count(b, s)
    decreases |a|
  {
    if a == [] {
      assert a + b == b;
    } else {
      assert (a + b)[1..] == a[1..] + b;
      CountAppend(a[1..], b, s);
    }
  }

  lemma {:induction false} ConsultationsAppend(a: seq<Step>, b: seq<Step>)
    ensures Consultations(a + b) == Consultations(a) + Consultations(b)
    decreases |a|
  {
    if a == [] {
      assert a + b == b;
    } else {
      assert (a + b)[1..] == a[1..] + b;
      ConsultationsAppend(a[1..], b);
    }
  }

  /** The steps one simulator process performs between `start` and `end`. */
  datatype Run = Run(start: real, trace: seq<Entry>, end: real) {
    predicate Valid() {
      Contiguous(trace, start, end)
    }

    function Steps(): seq<Step> {
      StepsOf(trace)
    }
  }

  /** A process that has done nothing yet at time `now`. */
  function Begin(now: real): Run {
    Run(now, [], now)
  }

  /** Performs step `s` for `d` time units after everything in `r`. */
  function Then(r: Run, s: Step, d: real): (r': Run)
    requires r.Valid() && d >= 0.0
    ensures r'.Valid()
    ensures r'.start == r.start && r'.end == r.end + d
    ensures r'.trace == r.trace + [Entry(s, r.end, d)]
  {
    ContiguousSnoc(r.trace, r.start, r.end, Entry(s, r.end, d));
    Run(r.start, r.trace + [Entry(s, r.end, d)], r.end + d)
  }

  /** Appending a step that starts at the current end keeps a trace contiguous. */
  lemma {:induction false} ContiguousSnoc(t: seq<Entry>, start: real, end: real, e: Entry)
    requires Contiguous(t, start, end)
    requires e.at == end && e.dur >= 0.0
    ensures Contiguous(t + [e], start, end + e.dur)
    decreases |t|
  {
    if t == [] {
      assert [] + [e] == [e];
      assert [e][1..] == [];
    } else {
      assert (t + [e])[1..] == t[1..] + [e];
      ContiguousSnoc(t[1..], start + t[0].dur, end, e);
    }
  }

  /** A contiguous trace lasts exactly the sum of its steps' durations. */
  lemma {:induction false} ContiguousElapsed(t: seq<Entry>, start: real, end: real)
    requires Contiguous(t, start, end)
    ensures end == start + TotalDuration(t)
    decreases |t|
  {
    if t != [] {
      ContiguousElapsed(t[1..], start + t[0].dur, end);
    }
  }

  /** In a contiguous trace time never runs backward: every step lies inside
      the interval, and a step finishes no later than any later step starts. */
  lemma {:induction false} ContiguousChronological(t: seq<Entry>, start: real, end: real)
    requires Contiguous(t, start, end)
    ensures start <= end
    ensures forall i :: 0 <= i < |t| ==> start <= t[i].at && t[i].at + t[i].dur <= end
    ensures forall i, j :: 0 <= i < j < |t| ==> t[i].at + t[i].dur <= t[j].at
    decreases |t|
  {
    if t != [] {
      var rest := t[1..];
      ContiguousChronological(rest, start + t[0].dur, end);
      assert forall i :: 1 <= i < |t| ==> t[i] == rest[i - 1];
    }
  }
}
