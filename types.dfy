/** The application's records (app/lib/types.ts) and the fixed medication catalog. */
module Types {
  import opened Wrappers

  /** A medication as stored on a prescription; `notes` is optional. */
  datatype Medication = Medication(
    name: string,
    dosage: string,
    frequency: string,
    duration: string,
    notes: Option<string>)

  /** `gender` is free text ('' until chosen); `contactNumber` is optional. */
  datatype Patient = Patient(
    name: string,
    age: int,
    gender: string,
    contactNumber: Option<string>)

  /**
   * A prescription record. `id` is optional, `prescriptionCode` is the lookup key and
   * `medications` keeps entry order.
   */
  datatype Prescription = Prescription(
    id: Option<string>,
    doctorId: string,
    doctorName: string,
    patient: Patient,
    medications: seq<Medication>,
    date: string,
    notes: Option<string>,
    prescriptionCode: string)

  /** A drop-down option; `shown` is the option's `label` (a reserved word in Dafny). */
  datatype MedicationOption = MedicationOption(value: string, shown: string)

  /** One row of the medication editor: every `Medication` field, with `notes` required. */
  datatype MedicationOptionField = MedicationOptionField(
    name: string,
    dosage: string,
    frequency: string,
    duration: string,
    notes: string)

  /** The medication names offered by the editor's drop-down, in display order. */
  const MEDICATION_OPTIONS: seq<MedicationOption> := [
    MedicationOption("Aspirin", "Aspirin"),
    MedicationOption("Paracetamol", "Paracetamol"),
    MedicationOption("Naproxen", "Naproxen"),
    MedicationOption("Metoprolol", "Metoprolol"),
    MedicationOption("Dolo", "Dolo")
  ]

  /** An editor row read as the `Medication` it is stored as (its notes present). */
  function ToMedication(f: MedicationOptionField): (m: Medication)
    ensures m.name == f.name && m.dosage == f.dosage && m.frequency == f.frequency
    ensures m.duration == f.duration && m.notes == Some(f.notes)
  {
    Medication(f.name, f.dosage, f.frequency, f.duration, Some(f.notes))
  }

  /** A medication with notes read back as an editor row. */
  function ToOptionField(m: Medication): (f: MedicationOptionField)
    requires m.notes.Some?
  {
    MedicationOptionField(m.name, m.dosage, m.frequency, m.duration, m.notes.value)
  }

  /**
   * Every editor row is a valid `Medication` and loses nothing on the way: reading it back
   * gives the same row, so distinct rows stay distinct medications.
   */
  lemma OptionFieldIsMedication(f: MedicationOptionField, g: MedicationOptionField)
    ensures ToMedication(f).notes.Some? && ToOptionField(ToMedication(f)) == f
    ensures ToMedication(f) == ToMedication(g) ==> f == g
  {
  }

  /** Each editor row of a list, as a `Medication`, in the same order. */
  function ToMedications(fs: seq<MedicationOptionField>): (ms: seq<Medication>)
    ensures |ms| == |fs|
    ensures forall k :: 0 <= k < |fs| ==> ms[k] == ToMedication(fs[k])
  {
    seq(|fs|, k requires 0 <= k < |fs| => ToMedication(fs[k]))
  }

  /** The catalog: exactly five options, in this order. */
  lemma CatalogNames()
    ensures |MEDICATION_OPTIONS| == 5
    ensures MEDICATION_OPTIONS[0].value == "Aspirin"
    ensures MEDICATION_OPTIONS[1].value == "Paracetamol"
    ensures MEDICATION_OPTIONS[2].value == "Naproxen"
    ensures MEDICATION_OPTIONS[3].value == "Metoprolol"
    ensures MEDICATION_OPTIONS[4].value == "Dolo"
  {
  }

  /** The catalog shows each option under its own value, and no value is offered twice. */
  lemma CatalogWellFormed()
    ensures forall k :: 0 <= k < |MEDICATION_OPTIONS| ==> MEDICATION_OPTIONS[k].value == MEDICATION_OPTIONS[k].shown
    ensures forall j, k :: 0 <= j < k < |MEDICATION_OPTIONS| ==> MEDICATION_OPTIONS[j].value != MEDICATION_OPTIONS[k].value
  {
  }

  /** The outcome of a document-store query: the matching documents, or a failure. */
  datatype QueryResult = Docs(docs: seq<Prescription>) | QueryFailed
}
