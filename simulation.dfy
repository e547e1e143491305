/** The driver of the simulation: the scenario tables, the arrival step, the
    capacity sweep and the numeric encodings of its results.

    The simulator itself (its event queue, processes and resources) and the
    hospital's own processes are not modelled here; where the driver hands
    work to them, the model takes the outcome as a parameter. */
module Simulation {
  import opened Wrappers
  import opened Patients
  import opened Randomizer
  import opened Scheduling

  // ---------------------------------------------------------------------
  // Scenarios

  /** Mean minutes between arrivals in the two scenarios. */
  const NormalArrivalInterval: int := 5
  const EmergencyArrivalInterval: int := 1

  const NormalScenario: string := "normal"
  const MassEmergencyScenario: string := "mass_emergency"

  const ArrivalRateMap: map<string, int> :=
    map[MassEmergencyScenario := EmergencyArrivalInterval, NormalScenario := NormalArrivalInterval]

  /** The mean arrival interval for `scenario`; an unknown scenario falls
      back to the normal interval. */
  function ArrivalRate(scenario: string): (rate: int)
    ensures scenario in ArrivalRateMap ==> rate == ArrivalRateMap[scenario]
    ensures scenario !in ArrivalRateMap ==> rate == NormalArrivalInterval
    ensures rate == (if scenario == MassEmergencyScenario then 1 else 5)
  {
    if scenario in ArrivalRateMap then ArrivalRateMap[scenario] else NormalArrivalInterval
  }

  /** The scenario picked by the menu answer `choice`: "1" is normal, "2" is
      a mass emergency, and any other answer is normal. */
  function ChooseScenario(choice: string): (scenario: string)
    ensures scenario in ArrivalRateMap
    ensures scenario == MassEmergencyScenario <==> choice == "2"
    ensures scenario == NormalScenario <==> choice != "2"
  {
    if choice == "1" then NormalScenario
    else if choice == "2" then MassEmergencyScenario
    else NormalScenario
  }

  /** The menu always yields a scenario the table knows, so the fallback of
      `ArrivalRate` is never what decides the rate on this path. */
  lemma ChosenRate(choice: string)
    ensures ChooseScenario(choice) in ArrivalRateMap
    ensures ArrivalRate(ChooseScenario(choice)) == ArrivalRateMap[ChooseScenario(choice)]
    ensures ArrivalRate(ChooseScenario(choice)) == if choice == "2" then EmergencyArrivalInterval else NormalArrivalInterval
  {
  }

  // ---------------------------------------------------------------------
  // One arrival

  /** One round of the arrival process at time `now`, once its exponential
      wait is over: a new patient, an "Arrival" event for it stamped `now`,
      scheduled (the patient's own journey is handed to the hospital, which
      is not modelled).  Returns the patient and when the event's process
      finishes. */
  method Arrive(gen: PatientGenerator, scheduler: Scheduler, now: real, d: Draw)
    returns (p: Patient, finish: Option<real>)
    requires gen.Valid() && d.InRange() && now >= 0.0
    modifies gen, scheduler
    ensures gen.Valid() && gen.counter == old(gen.counter) + 1
    ensures p == Drawn(d, old(gen.counter))
    ensures scheduler.events == old(scheduler.events) + [Event("Arrival", now, p.id)]
    ensures SortedByTime(old(scheduler.events)) && (forall e :: e in old(scheduler.events) ==> e.time <= now)
            ==> SortedByTime(scheduler.events)
    ensures finish == Some(now + now)
  {
    p := gen.Generate(d);
    var event := Event("Arrival", now, p.id);
    finish := scheduler.ScheduleEvent(event, p, now);
  }

  // ---------------------------------------------------------------------
  // The capacity sweep

  const CapacitiesEmergencies: seq<int> := [1, 2, 3, 4, 5]
  const CapacitiesDoctors: seq<int> := [1, 2, 3, 4, 5]
  const CapacitiesNurses: seq<int> := [2, 4, 6, 8, 10]
  const CapacitiesWaitingRoom: seq<int> := [5, 10, 20, 30]
  const CapacitiesOperatingRoom: seq<int> := [1, 2, 3, 5]

  const CapacityLists: seq<seq<int>> :=
    [CapacitiesEmergencies, CapacitiesDoctors, CapacitiesNurses, CapacitiesWaitingRoom, CapacitiesOperatingRoom]

  const TotalSimulations: nat :=
    |CapacitiesEmergencies| * |CapacitiesDoctors| * |CapacitiesNurses| * |CapacitiesWaitingRoom| * |CapacitiesOperatingRoom|

  /** How many patients each configuration of the sweep generates. */
  const PatientsPerRun: nat := 5

  /** Every prefix in `prefixes`, in order, extended by every element of
      `xs`, in order. */
  function Extend(prefixes: seq<seq<int>>, xs: seq<int>): seq<seq<int>>
    decreases |prefixes|
  {
    if prefixes == [] then []
    else seq(|xs|, i requires 0 <= i < |xs| => prefixes[0] + [xs[i]]) + Extend(prefixes[1..], xs)
  }

  /** The cartesian product of `lists`, in the order in which the last list
      varies fastest. */
  function Product(lists: seq<seq<int>>): seq<seq<int>>
    decreases |lists|
  {
    if lists == [] then [[]] else Extend(Product(lists[..|lists| - 1]), lists[|lists| - 1])
  }

  function LengthsProduct(lists: seq<seq<int>>): nat
    decreases |lists|
  {
    if lists == [] then 1 else LengthsProduct(lists[..|lists| - 1]) * |lists[|lists| - 1]|
  }

  lemma {:induction false} ExtendLength(prefixes: seq<seq<int>>, xs: seq<int>)
    ensures |Extend(prefixes, xs)| == |prefixes| * |xs|
    decreases |prefixes|
  {
    if prefixes != [] {
      ExtendLength(prefixes[1..], xs);
      calc {
        |Extend(prefixes, xs)|;
        |xs| + |Extend(prefixes[1..], xs)|;
        |xs| + (|prefixes| - 1) * |xs|;
        { assert (|prefixes| - 1) * |xs| == |prefixes| * |xs| - |xs|; }
        |prefixes| * |xs|;
      }
    }
  }

  /** The product has one entry per choice of one element from each list. */
  lemma {:induction false} ProductLength(lists: seq<seq<int>>)
    ensures |Product(lists)| == LengthsProduct(lists)
    decreases |lists|
  {
    if lists != [] {
      ProductLength(lists[..|lists| - 1]);
      ExtendLength(Product(lists[..|lists| - 1]), lists[|lists| - 1]);
    }
  }

  lemma {:induction false} ExtendMembers(prefixes: seq<seq<int>>, xs: seq<int>, n: nat)
    requires forall c :: c in prefixes ==> |c| == n
    ensures forall c :: c in Extend(prefixes, xs) ==>
              |c| == n + 1 && c[..n] in prefixes && c[n] in xs
    decreases |prefixes|
  {
    if prefixes != [] {
      ExtendMembers(prefixes[1..], xs, n);
      forall c | c in Extend(prefixes, xs)
        ensures |c| == n + 1 && c[..n] in prefixes && c[n] in xs
      {
        var front := seq(|xs|, i requires 0 <= i < |xs| => prefixes[0] + [xs[i]]);
        if c in front {
          var i :| 0 <= i < |xs| && c == front[i];
          assert c[..n] == prefixes[0];
        } else {
          assert c in Extend(prefixes[1..], xs);
        }
      }
    }
  }

  lemma {:induction false} ExtendComplete(prefixes: seq<seq<int>>, xs: seq<int>, p: seq<int>, x: int)
    requires p in prefixes && x in xs
    ensures p + [x] in Extend(prefixes, xs)
    decreases |prefixes|
  {
    if p == prefixes[0] {
      var i :| 0 <= i < |xs| && xs[i] == x;
      var front := seq(|xs|, i requires 0 <= i < |xs| => prefixes[0] + [xs[i]]);
      assert front[i] == p + [x];
    } else {
      ExtendComplete(prefixes[1..], xs, p, x);
    }
  }

  /** Every choice of one element from each list, in list order, is an
      entry of the product. */
  lemma {:induction false} ProductComplete(lists: seq<seq<int>>, c: seq<int>)
    requires |c| == |lists| && forall i :: 0 <= i < |lists| ==> c[i] in lists[i]
    ensures c in Product(lists)
    decreases |lists|
  {
    if lists == [] {
      assert c == [];
    } else {
      var n := |lists| - 1;
      var init := lists[..n];
      assert forall i :: 0 <= i < n ==> c[..n][i] == c[i] && init[i] == lists[i];
      ProductComplete(init, c[..n]);
      ExtendComplete(Product(init), lists[n], c[..n], c[n]);
      assert c[..n] + [c[n]] == c;
    }
  }

  /** Every entry of the product picks, at each position, an element of the
      list at that position. */
  lemma {:induction false} ProductMembers(lists: seq<seq<int>>)
    ensures forall c :: c in Product(lists) ==>
              |c| == |lists| && forall i :: 0 <= i < |lists| ==> c[i] in lists[i]
    decreases |lists|
  {
    if lists != [] {
      var init := lists[..|lists| - 1];
      var last := lists[|lists| - 1];
      assert Product(lists) == Extend(Product(init), last);
      ProductMembers(init);
      ExtendMembers(Product(init), last, |init|);
      forall c | c in Product(lists)
        ensures |c| == |lists| && forall i :: 0 <= i < |lists| ==> c[i] in lists[i]
      {
        var front := c[..|init|];
        assert front in Product(init);
        forall i | 0 <= i < |lists| ensures c[i] in lists[i] {
          if i < |init| {
            assert front[i] in init[i];
            assert front[i] == c[i] && init[i] == lists[i];
          }
        }
      }
    }
  }

  lemma SweepLengths()
    ensures LengthsProduct(CapacityLists) == TotalSimulations == 2000
  {
    var l := CapacityLists;
    assert l[..0] == [];
    assert l[..1][..0] == l[..0];
    assert l[..2][..1] == l[..1];
    assert l[..3][..2] == l[..2];
    assert l[..4][..3] == l[..3];
    assert l[..5] == l;
    assert LengthsProduct(l[..1]) == 5;
    assert LengthsProduct(l[..2]) == 25;
    assert LengthsProduct(l[..3]) == 125;
    assert LengthsProduct(l[..4]) == 500;
  }

  /** The configurations the sweep runs, one hospital per entry: 2000 of
      them. */
  function Configurations(): (configs: seq<seq<int>>)
    ensures |configs| == TotalSimulations == 2000
  {
    ProductLength(CapacityLists);
    SweepLengths();
    Product(CapacityLists)
  }

  /** The configurations are exactly the choices of one capacity from each
      of the five lists, in the order of the hospital's constructor
      arguments. */
  lemma ConfigurationsShape(c: seq<int>)
    ensures c in Configurations() <==>
              |c| == 5 && forall i :: 0 <= i < 5 ==> c[i] in CapacityLists[i]
  {
    ProductMembers(CapacityLists);
    if |c| == 5 && forall i :: 0 <= i < 5 ==> c[i] in CapacityLists[i] {
      ProductComplete(CapacityLists, c);
    }
  }

  /** For instance, the configuration with one emergency bed, one doctor, two
      nurses, a waiting room of five and one operating room is run. */
  lemma SmallestConfigurationRun()
    ensures [1, 1, 2, 5, 1] in Configurations()
  {
    ConfigurationsShape([1, 1, 2, 5, 1]);
  }

  // Patients of the sweep

  predicate ValidDraws(draws: seq<Draw>) {
    forall i :: 0 <= i < |draws| ==> draws[i].InRange()
  }

  /** The patients `draws` yield when the counter stands at `firstId`. */
  function Batch(draws: seq<Draw>, firstId: int): (ps: seq<Patient>)
    requires ValidDraws(draws)
    ensures |ps| == |draws|
    ensures forall i :: 0 <= i < |ps| ==> ps[i].id == firstId + i
    ensures forall i, j :: 0 <= i < j < |ps| ==> ps[i].id < ps[j].id
    ensures forall i :: 0 <= i < |ps| ==> ps[i].severity in Severities && ps[i].symptom in Symptoms
  {
    seq(|draws|, i requires 0 <= i < |draws| => Drawn(draws[i], firstId + i))
  }

  /** Consecutive runs of the sweep hand out disjoint ids: every id of a
      run comes before every id of the run after it. */
  lemma BatchesDisjoint(draws: seq<Draw>, next: seq<Draw>, firstId: int)
    requires ValidDraws(draws) && ValidDraws(next)
    ensures var run, after := Batch(draws, firstId), Batch(next, firstId + |draws|);
      forall i, j :: 0 <= i < |run| && 0 <= j < |after| ==> run[i].id < after[j].id
  {
  }

  /** Generates the `PatientsPerRun` patients of one configuration. */
  method GenerateBatch(gen: PatientGenerator, draws: seq<Draw>) returns (ps: seq<Patient>)
    requires gen.Valid() && |draws| == PatientsPerRun && ValidDraws(draws)
    modifies gen
    ensures gen.Valid() && gen.counter == old(gen.counter) + PatientsPerRun
    ensures ps == Batch(draws, old(gen.counter))
  {
    ps := [];
    for i := 0 to PatientsPerRun
      invariant gen.Valid() && gen.counter == old(gen.counter) + i
      invariant ps == Batch(draws[..i], old(gen.counter))
    {
      var p := gen.Generate(draws[i]);
      ps := ps + [p];
    }
    assert draws[..PatientsPerRun] == draws;
  }

  /** Draws for every configuration of the sweep. */
  predicate ValidSweepDraws(draws: seq<seq<Draw>>) {
    forall k :: 0 <= k < |draws| ==> |draws[k]| == PatientsPerRun && ValidDraws(draws[k])
  }

  /** What the sweep collects from its first `|draws|` configurations when the
      counter starts at `firstId`: for each configuration in turn, what the
      hospital's run reports (`silent`) for that configuration and its batch
      of patients. */
  function SweepData<R>(configs: seq<seq<int>>, draws: seq<seq<Draw>>, firstId: int,
                        silent: (seq<int>, seq<Patient>) -> seq<R>): seq<R>
    requires |draws| <= |configs| && ValidSweepDraws(draws)
    decreases |draws|
  {
    if draws == [] then []
    else
      var k := |draws| - 1;
      SweepData(configs, draws[..k], firstId, silent) + silent(configs[k], Batch(draws[k], firstId + PatientsPerRun * k))
  }

  /** Collecting one more configuration appends its report. */
  lemma SweepDataStep<R>(configs: seq<seq<int>>, draws: seq<seq<Draw>>, k: nat, firstId: int,
                         silent: (seq<int>, seq<Patient>) -> seq<R>)
    requires k < |draws| <= |configs| && ValidSweepDraws(draws)
    ensures SweepData(configs, draws[..k + 1], firstId, silent)
            == SweepData(configs, draws[..k], firstId, silent)
               + silent(configs[k], Batch(draws[k], firstId + PatientsPerRun * k))
  {
    assert draws[..k + 1][..k] == draws[..k];
  }

  /** The sweep: one hospital per configuration, five new patients each,
      and the hospital's report appended to the collected data. */
  method RunSweep<R>(gen: PatientGenerator, draws: seq<seq<Draw>>, silent: (seq<int>, seq<Patient>) -> seq<R>)
    returns (allData: seq<R>)
    requires gen.Valid() && |draws| == TotalSimulations && ValidSweepDraws(draws)
    modifies gen
    ensures gen.Valid() && gen.counter == old(gen.counter) + PatientsPerRun * TotalSimulations
    ensures allData == SweepData(Configurations(), draws, old(gen.counter), silent)
  {
    var configs := Configurations();
    allData := [];
    for k := 0 to |configs|
      invariant gen.Valid() && gen.counter == old(gen.counter) + PatientsPerRun * k
      invariant allData == SweepData(configs, draws[..k], old(gen.counter), silent)
    {
      var ps := GenerateBatch(gen, draws[k]);
      SweepDataStep(configs, draws, k, old(gen.counter), silent);
      allData := allData + silent(configs[k], ps);
    }
    assert draws[..|configs|] == draws;
  }
}

/** The numeric codes the collected severity and symptom columns are mapped
    to.  A label outside a table maps to nothing (a missing value in the
    exported column). */
module Encodings {
  import opened Wrappers
  import opened Patients
  import Randomizer

  const SeverityMap: map<string, nat> := map[Mild := 0, Severe := 1, Critical := 2]

  /** The symptom table as written: its fourth key is "Difficulty Breathing",
      a label the generator never produces. */
  const SymptomMap: map<string, nat> :=
    map[ChestPain := 0, Fracture := 1, SoreThroat := 2, "Difficulty Breathing" := 3, Lump := 4]

  /** The symptom table with the generator's own label as its fourth key. */
  const CorrectedSymptomMap: map<string, nat> :=
    map[ChestPain := 0, Fracture := 1, SoreThroat := 2, RespiratoryDifficulty := 3, Lump := 4]

  function Lookup(m: map<string, nat>, name: string): Option<nat> {
    if name in m then Some(m[name]) else None
  }

  function EncodeSeverity(name: string): (code: Option<nat>)
    ensures code.Some? <==> name == Mild || name == Severe || name == Critical
    ensures code.Some? ==> code.value <= 2
    ensures code == if name == Mild then Some(0) else if name == Severe then Some(1)
                    else if name == Critical then Some(2) else None
  {
    Lookup(SeverityMap, name)
  }

  /** Distinct severities get distinct codes, and every generated severity
      gets one. */
  lemma SeverityEncodingInjective(a: string, b: string)
    requires EncodeSeverity(a).Some? && EncodeSeverity(a) == EncodeSeverity(b)
    ensures a == b
  {
  }

  lemma GeneratedSeveritiesEncoded(d: Randomizer.Draw, id: int)
    requires d.InRange()
    ensures EncodeSeverity(Randomizer.Drawn(d, id).severity).Some?
  {
  }

  function EncodeSymptom(name: string): (code: Option<nat>)
    ensures code.Some? <==> name in {ChestPain, Fracture, SoreThroat, "Difficulty Breathing", Lump}
    ensures code.Some? ==> code.value <= 4
    ensures code == if name == ChestPain then Some(0) else if name == Fracture then Some(1)
                    else if name == SoreThroat then Some(2) else if name == "Difficulty Breathing" then Some(3)
                    else if name == Lump then Some(4) else None
  {
    Lookup(SymptomMap, name)
  }

  lemma SymptomEncodingInjective(a: string, b: string)
    requires EncodeSymptom(a).Some? && EncodeSymptom(a) == EncodeSymptom(b)
    ensures a == b
  {
  }

  /** The table as written leaves the generator's "Respiratory Difficulty"
      patients without a symptom code; every other generated symptom has one. */
  lemma RespiratoryDifficultyUnencoded(d: Randomizer.Draw, id: int)
    requires d.InRange()
    ensures EncodeSymptom(Randomizer.Drawn(d, id).symptom).None?
            <==> Randomizer.Drawn(d, id).symptom == RespiratoryDifficulty
    ensures EncodeSymptom(Randomizer.Symptoms[3]) == None
  {
  }

  function EncodeSymptomCorrected(name: string): (code: Option<nat>)
    ensures code.Some? <==> name in {ChestPain, Fracture, SoreThroat, RespiratoryDifficulty, Lump}
    ensures code.Some? ==> code.value <= 4
    ensures code == if name == ChestPain then Some(0) else if name == Fracture then Some(1)
                    else if name == SoreThroat then Some(2) else if name == RespiratoryDifficulty then Some(3)
                    else if name == Lump then Some(4) else None
  {
    Lookup(CorrectedSymptomMap, name)
  }

  /** With the corrected table every generated symptom has a code, distinct
      symptoms have distinct codes, and the codes are exactly 0 to 4. */
  lemma CorrectedSymptomEncoding(d: Randomizer.Draw, id: int, a: string, b: string)
    requires d.InRange()
    ensures EncodeSymptomCorrected(Randomizer.Drawn(d, id).symptom).Some?
    ensures EncodeSymptomCorrected(a).Some? && EncodeSymptomCorrected(a) == EncodeSymptomCorrected(b) ==> a == b
    ensures forall k :: 0 <= k <= 4 ==> k in CorrectedSymptomMap.Values
  {
    var keys := [ChestPain, Fracture, SoreThroat, RespiratoryDifficulty, Lump];
    forall k | 0 <= k <= 4 ensures k in CorrectedSymptomMap.Values {
      assert CorrectedSymptomMap[keys[k]] == k;
    }
  }
}
