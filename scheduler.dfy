/** The scheduler's event log.

    The scheduler keeps every event it is given in a list, in the order it
    is given them, and starts a simulator process per event that waits for
    the event's `time` field, taken as a delay from the moment it starts. */
module Scheduling {
  import opened Patients
  import opened Wrappers

  /** A logged event: its kind (such as "Arrival"), its time stamp, and the
      patient it concerns. */
  datatype Event = Event(kind: string, time: real, patientId: int)

  ghost predicate SortedByTime(events: seq<Event>) {
    forall i, j :: 0 <= i < j < |events| ==> events[i].time <= events[j].time
  }

  /** A log in which each event is no earlier than the one before it is
      sorted by time throughout. */
  lemma {:induction false} StepwiseSorted(events: seq<Event>)
    requires forall k :: 0 <= k < |events| - 1 ==> events[k].time <= events[k + 1].time
    ensures SortedByTime(events)
    decreases |events|
  {
    if |events| > 1 {
      var rest := events[1..];
      assert forall k :: 0 <= k < |rest| ==> rest[k] == events[k + 1];
      StepwiseSorted(rest);
      assert forall j :: 1 <= j < |events| ==> events[j] == rest[j - 1];
      assert forall j :: 1 <= j < |events| ==> events[0].time <= events[j].time by {
        forall j | 1 <= j < |events| ensures events[0].time <= events[j].time {
          assert events[0].time <= events[1].time;
          if j > 1 { assert rest[0].time <= rest[j - 1].time; }
        }
      }
    }
  }

  /** When the process started for `e` at time `now` finishes: it waits
      `e.time` itself, not `e.time - now`.  The simulator refuses a negative
      delay, so then there is no finish time. */
  function ProcessEvent(e: Event, now: real): (finish: Option<real>)
    ensures finish.Some? <==> e.time >= 0.0
    ensures finish.Some? ==> finish.value - now == e.time
  {
    if e.time < 0.0 then None else Some(now + e.time)
  }

  /** An event stamped with the current time, as arrivals are, finishes at
      twice that time, which is later than its own stamp once time has
      passed. */
  lemma StampedEventFinishesLate(e: Event, now: real)
    requires e.time == now && now > 0.0
    ensures ProcessEvent(e, now) == Some(2.0 * now)
    ensures ProcessEvent(e, now).value > e.time
  {
  }

  class Scheduler {
    var events: seq<Event>

    constructor ()
      ensures events == []
    {
      events := [];
    }

    /** Logs `e` for `patient` at time `now` and starts its process; returns
        when that process finishes. */
    method ScheduleEvent(e: Event, patient: Patient, now: real) returns (finish: Option<real>)
      modifies this
      ensures events == old(events) + [e]
      ensures |events| == |old(events)| + 1
      ensures forall i :: 0 <= i < |old(events)| ==> events[i] == old(events)[i]
      ensures SortedByTime(old(events)) && (old(events) == [] || old(events)[|old(events)| - 1].time <= e.time)
              ==> SortedByTime(events)
      ensures finish == ProcessEvent(e, now)
    {
      events := events + [e];
      finish := ProcessEvent(e, now);
    }
  }
}
