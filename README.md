# Hospital patient-flow simulation: a Dafny model of its routing and bookkeeping

The program simulates patients moving through a hospital with a discrete-event
simulator. This project models the parts that the program's own files decide:

- **the journey stages**: triage, diagnosis and treatment, as decision rules over a patient's severity and symptom labels;
- **the patient generator**, with its process-wide id counter;
- **the scheduler's event log**;
- **the driver's lookup tables**: scenario, menu choice and numeric encodings;
- **the capacity sweep**: 2000 hospital configurations, with five new patients each.

Each stage is a function. It takes the patient, the current virtual time and
the durations the stage consumes, and returns a `Journey.Run`: the ordered
steps (`Triage`, `Emergency`, `Urgent`, `General`, `XRay`, `Diagnosis`,
`Surgery`, `StdTreatment`, `Discharge`), each with its start time and
duration. A run is valid when its steps are contiguous on the virtual clock:
each step starts exactly when the previous one finishes. That is how a
simulator process that waits on one timeout or sub-process at a time sees
its own clock.

The random draws of the program become parameters:

- a uniform duration becomes a `real` whose bounds are a precondition;
- a `random.choice` becomes an index into its list (`Randomizer.Draw`).

The hospital's own sub-processes (emergency care, consultations, X-ray,
surgery, discharge) are not shown. Each becomes a labelled step of opaque,
non-negative length.

The stateful parts are classes:

- `Randomizer.PatientGenerator` holds the id counter and a ghost record of the ids handed out.
- `Scheduling.Scheduler` holds the event list as a `seq<Event>`.

Modules: `Patients` (the patient record and the labels), `Journey`,
`TriageStage`, `DiagnosisStage`, `TreatmentStage`, `Randomizer`, `Scheduling`,
`Simulation` and `Encodings` (both in `simulation.dfy`, for main.py), `Wrappers`.

Two behaviours of the program that the model keeps:

- The program keeps severity and symptom as plain strings, so triage sends every label other than "Critical" and "Severe" to general consultation.
- `process_event` waits `event.time` as a delay from when it starts, so an arrival stamped at t finishes at 2t.

## Model

| member | source | states |
|---|---|---|
| `Journey.ContiguousChronological` | triage.py:25-38 | in a stage's sequence of waits, time never runs backward: every step lies between the stage's start and end, and each step finishes no later than any later step starts |
| `Journey.ContiguousElapsed` | diagnosis.py:22-26 | a stage lasts exactly the sum of the durations of its steps |
| `TriageStage.PerformTriage` | triage.py:19-38 | the triage run is valid on the clock and starts at the current time; its first step is the Triage registration at that time, lasting the triage delay (drawn in [3, 7]); it has two or three steps |
| `TriageStage.TriageSteps` | triage.py:27-38 | the exact step sequence per branch: Critical gives Triage then Emergency; Severe gives Triage then Urgent; any other label gives Triage, General, Discharge |
| `TriageStage.TriageRouting` | triage.py:27-35 | emergency care occurs iff severity is "Critical"; urgent consultation iff "Severe"; general consultation iff neither (including unknown labels); exactly one consultation occurs, right after triage; no other kind of step occurs |
| `TriageStage.TriageDischarge` | triage.py:33-38 | discharge occurs inside triage iff the general branch is taken; it occurs at most once, and it is the last step, after the general consultation |
| `TriageStage.TriageTiming` | triage.py:23-25 | the care step starts exactly when the triage delay has elapsed; no later step starts earlier; triage lasts at least 3 minutes |
| `DiagnosisStage.PerformDiagnosis` | diagnosis.py:22-26 | the diagnosis run is valid on the clock and starts at the current time; its last step is always the evaluation delay (drawn in [10, 20]), ending the run |
| `DiagnosisStage.DiagnosisXRay` | diagnosis.py:22-23 | an X-ray occurs iff the symptom is exactly "Fracture" or "Respiratory Difficulty", so never for "Chest Pain", "Lump" or "Sore Throat"; when it occurs it is the first step, at the start time; the evaluation occurs exactly once |
| `DiagnosisStage.DiagnosisElapsed` | diagnosis.py:22-26 | elapsed time equals the X-ray time (0 without an X-ray) plus the evaluation delay, hence at least 10 |
| `TreatmentStage.PerformTreatment` | treatment.py:21-31 | the treatment run is valid on the clock and has two steps: surgery or standard treatment, then discharge as the final step |
| `TreatmentStage.TreatmentBranch` | treatment.py:21-31 | surgery occurs iff severity is "Critical"; standard treatment occurs iff it is not; discharge occurs exactly once |
| `TreatmentStage.TreatmentStandardDelay` | treatment.py:24-26 | for a non-critical patient, discharge starts between 10 and 30 minutes after treatment starts, so the stage lasts at least 10 |
| `Randomizer.Drawn` | randomizer.py:19-25 | a generated patient carries the counter's value as id, a severity from {Critical, Severe, Mild} and a symptom from the five listed names |
| `Randomizer.IssuedIdsIncreasing` | randomizer.py:25-28 | the ids handed out, 1, 2, ..., are positive, strictly increasing and pairwise distinct |
| `Randomizer.PatientGenerator.constructor` | randomizer.py:5 | the counter starts at 1 and no id has been handed out |
| `Randomizer.PatientGenerator.Generate` | randomizer.py:7-30 | returns the patient for the drawn labels with id equal to the counter before the call; increments the counter by exactly 1; appends that id to the ids handed out, which stays the sequence 1 .. counter-1 |
| `Scheduling.StepwiseSorted` | scheduler.py:31 | a log in which each event is no earlier than the one before it is sorted by time throughout |
| `Scheduling.ProcessEvent` | scheduler.py:34-44 | the event's process finishes exactly `event.time` after it starts; a negative time, which the simulator refuses as a delay, gives no finish |
| `Scheduling.StampedEventFinishesLate` | scheduler.py:44 | an event stamped with the current time t > 0 (as arrivals are) finishes at 2t, after its own stamp |
| `Scheduling.Scheduler.constructor` | scheduler.py:15-22 | a new scheduler has an empty event list |
| `Scheduling.Scheduler.ScheduleEvent` | scheduler.py:24-32 | the list becomes the old list plus exactly the given event at the end (length + 1, earlier events unchanged); a time-sorted list stays sorted when the new event is no earlier than the last; returns the finish of the started process |
| `Simulation.ArrivalRate` | main.py:52-58 | "mass_emergency" gives the emergency interval (1) and "normal" the normal interval (5); any other scenario falls back to the normal interval |
| `Simulation.ChooseScenario` | main.py:68-81 | "1" gives "normal", "2" gives "mass_emergency", anything else "normal"; the result is always a key of the arrival-rate table |
| `Simulation.ChosenRate` | main.py:75-81 | on the menu's path the table lookup decides the rate (the default is never needed): 1 for answer "2", else 5 |
| `Simulation.Arrive` | main.py:31-35 | one arrival at time now: a fresh patient whose id is the counter's value before the call, after which the counter moves up by 1; an "Arrival" event with that id stamped now is appended to the log, which stays time-sorted if it was and held nothing later than now; its process finishes at now + now |
| `Simulation.ExtendLength` | main.py:115 | extending every prefix by every element yields as many entries as there are prefixes times elements |
| `Simulation.ProductLength` | main.py:115 | the cartesian product of the capacity lists has as many entries as the product of their lengths |
| `Simulation.ExtendComplete` | main.py:115 | every prefix followed by every element occurs in the extension |
| `Simulation.ProductComplete` | main.py:115 | every choice of one element from each list, in list order, occurs in the product |
| `Simulation.ExtendMembers` | main.py:115 | each extended entry is one prefix followed by one element |
| `Simulation.ProductMembers` | main.py:115-117 | each entry of the product takes, at every position, an element of the list at that position |
| `Simulation.SweepLengths` | main.py:100-112 | `total_simulations`, 5·5·5·4·4, equals the product's size, 2000 |
| `Simulation.Configurations` | main.py:100-115 | the sweep runs 2000 configurations, `total_simulations` of them |
| `Simulation.ConfigurationsShape` | main.py:115-117 | a capacity vector is a configuration of the sweep iff it has five capacities, one from each list in constructor order: every configuration is of that shape and every such combination is run |
| `Simulation.SmallestConfigurationRun` | main.py:100-117 | the combination 1 emergency bed, 1 doctor, 2 nurses, waiting room 5, 1 operating room is among the configurations run |
| `Simulation.Batch` | main.py:120-122 | a run's patients have ids counting up from the counter's value, strictly increasing, each with a severity and a symptom from the generator's lists |
| `Simulation.BatchesDisjoint` | main.py:115-122 | consecutive runs of the sweep hand out disjoint ids: every id of one run is below every id of the next |
| `Simulation.GenerateBatch` | main.py:120-122 | each configuration generates exactly 5 patients, so the counter advances by 5 |
| `Simulation.RunSweep` | main.py:115-126 | after the sweep the counter has advanced by 5·2000; the collected data are the hospital reports for each configuration and its batch, concatenated in sweep order |
| `Encodings.EncodeSeverity` | main.py:136 | Mild gets 0, Severe 1 and Critical 2; every other label gets no code |
| `Encodings.SeverityEncodingInjective` | main.py:136 | distinct severities get distinct codes |
| `Encodings.GeneratedSeveritiesEncoded` | main.py:146 | every generated severity gets a code |
| `Encodings.EncodeSymptom` | main.py:137-143 | as written: Chest Pain gets 0, Fracture 1, Sore Throat 2, "Difficulty Breathing" 3, Lump 4; every other label, "Respiratory Difficulty" included, gets no code |
| `Encodings.SymptomEncodingInjective` | main.py:137-143 | distinct symptoms get distinct codes |
| `Encodings.RespiratoryDifficultyUnencoded` | main.py:137-147 | a generated symptom has no code exactly when it is "Respiratory Difficulty" |
| `Encodings.EncodeSymptomCorrected` | main.py:137-143 | corrected: Chest Pain gets 0, Fracture 1, Sore Throat 2, "Respiratory Difficulty" 3, Lump 4; every other label gets no code |
| `Encodings.CorrectedSymptomEncoding` | main.py:137-147 | with the corrected table, every generated symptom gets a code; codes are injective; every code 0..4 is used |

## Left out

- The discrete-event simulator: event queue, `env.timeout`, `env.process`, `env.run(until=...)`, resource pools and their FIFO queues. It is a foreign library. Its waits appear only as the contiguous step traces.
- The hospital, patient and event classes (models/hospital.py, models/patient.py, models/event.py are not part of this model). Their methods are opaque labelled steps of non-negative length. `Patient` and `Event` are records of their constructor arguments. `register_event` is the time stamp of the Triage step.
- Random draws (`np.random.uniform`, `np.random.exponential`, `random.choice`) and seeding. They become parameters. The uniform bounds are taken as closed intervals, a superset of what is drawn.
- The arrival process's unbounded `while True` loop and its exponential wait (main.py:30-31). `Simulation.Arrive` models one round of its body.
- `patient_arrival`'s call `hospital.receive_patient`, the same call in the sweep (main.py:122), and `hospital.silent()` in the sweep. Both run hospital code that is not shown; the sweep takes the report as a function of the configuration and the patients.
- `main(scenario)` beyond its arrival-rate lookup: building the environment and running it to the horizon.
- Console output and input, the progress bar, the DataFrame and CSV export, and directory creation. The encodings model only the two label tables and what a lookup yields.
- config.py: its two arrival intervals are inlined as constants; the other settings only feed the hospital, which is not modelled.
- The unused `self` parameter of `perform_treatment` and the `env`/`hospital` parameters of the stages. The stages take the current time instead.
- Floating point: durations and times are exact reals.
- Scheduling.ProcessEvent: a negative `event.time` makes the simulator raise an error inside the process, which halts the whole run; the model shows it only as `None`, and the event stays in the log. The driver only ever stamps events with the current time, which is never negative.

## Findings

| source | as written | input that shows it | evidently intended | confidence | as-written member | corrected member |
|---|---|---|---|---|---|---|
| main.py:137-143 | the symptom code table's fourth key is "Difficulty Breathing" | a patient generated with symptom "Respiratory Difficulty" (randomizer.py:22) gets no symptom code in the exported data | the fourth key is "Respiratory Difficulty", so all five generated symptoms get codes 0..4 | high, not executed | `Encodings.RespiratoryDifficultyUnencoded` | `Encodings.CorrectedSymptomEncoding` |
