/** Patients and the labels the stages branch on.

    A patient is a record of the three values it is constructed from
    (severity, symptom, id).  Severity and symptom stay plain strings, as in
    the program: the stages compare them with string literals, so a label
    outside the known sets is a value the model must route too. */
module Patients {

  datatype Patient = Patient(severity: string, symptom: string, id: int)

  // Severity labels
  const Critical: string := "Critical"
  const Severe: string := "Severe"
  const Mild: string := "Mild"

  // Symptom labels
  const ChestPain: string := "Chest Pain"
  const Fracture: string := "Fracture"
  const Lump: string := "Lump"
  const RespiratoryDifficulty: string := "Respiratory Difficulty"
  const SoreThroat: string := "Sore Throat"
}
