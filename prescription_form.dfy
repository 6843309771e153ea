/**
 * The prescription form component's state and handlers
 * (app/components/prescriptions/prescription-form.tsx). It repeats the new-prescription
 * page's editor; the document it saves also carries the code as its `id`.
 */
module PrescriptionForm {
  import opened Wrappers
  import opened Types
  import opened MedicationList

  /** `{...prescriptionData, id: prescriptionCode}`: the record with its code as its `id`. */
  function WithCodeAsId(p: Prescription): (d: Prescription)
    ensures d.id == Some(p.prescriptionCode)
    ensures d.prescriptionCode == p.prescriptionCode
    ensures d.(id := p.id) == p
  {
    p.(id := Some(p.prescriptionCode))
  }

  /** The stored document is the assembled record, named by its code, with the named entries in order. */
  lemma StoredDocument(user: AuthUser, patient: Patient, entries: seq<MedicationOptionField>,
                       now: string, notes: string, code: string)
    ensures var d := WithCodeAsId(Assemble(user, patient, entries, now, notes, code));
            d.id == Some(code) && d.prescriptionCode == code &&
            d.(id := None) == Assemble(user, patient, entries, now, notes, code) &&
            d.medications == ToMedications(Named(entries))
  {
  }

  class PrescriptionFormState {
    var patient: Patient
    var medications: seq<MedicationOptionField>
    var notes: string
    var isLoading: bool

    /** The editor always shows at least one entry. */
    ghost predicate Valid()
      reads this
    {
      |medications| >= 1
    }

    /** The form opens with an empty patient, one blank entry and no notes. */
    constructor ()
      ensures Valid()
      ensures patient == INITIAL_PATIENT && medications == [BLANK] && notes == "" && !isLoading
    {
      patient := INITIAL_PATIENT;
      medications := [BLANK];
      notes := "";
      isLoading := false;
    }

    /** `handlePatientChange`: the age input is parsed, the other inputs are kept as typed. */
    method HandlePatientChange(f: PatientFieldName, value: string)
      modifies this`patient
      ensures patient == WithPatientInput(old(patient), f, value)
    {
      patient := WithPatientInput(patient, f, value);
    }

    /** `handleMedicationChange`: field `f` of entry `index` becomes `value`; nothing else changes. */
    method HandleMedicationChange(index: nat, f: MedicationFieldName, value: string)
      requires Valid() && index < |medications|
      modifies this`medications
      ensures Valid() && |medications| == |old(medications)|
      ensures medications[index] == WithField(old(medications[index]), f, value)
      ensures forall k :: 0 <= k < |medications| && k != index ==> medications[k] == old(medications[k])
    {
      var updated := medications;
      updated := updated[index := WithField(updated[index], f, value)];
      medications := updated;
    }

    /** `addMedication`: one blank entry at the end; the existing entries stay as they are. */
    method AddMedication()
      requires Valid()
      modifies this`medications
      ensures Valid() && medications == old(medications) + [BLANK]
    {
      medications := medications + [BLANK];
    }

    /**
     * `removeMedication`: with more than one entry, `splice(index, 1)` removes the entry where
     * the splice starts, if any; a single entry is never removed.
     */
    method RemoveMedication(index: int)
      requires Valid()
      modifies this`medications
      ensures Valid()
      ensures var start := SpliceStart(|old(medications)|, index);
              medications == if |old(medications)| > 1 && start < |old(medications)|
                             then RemovedAt(old(medications), start)
                             else old(medications)
    {
      if |medications| > 1 {
        var updated := medications;
        var start := SpliceStart(|updated|, index);
        if start < |updated| {
          updated := RemovedAt(updated, start);
        }
        medications := updated;
      }
    }

    /** The notes text area. */
    method HandleNotesChange(value: string)
      modifies this`notes
      ensures notes == value
    {
      notes := value;
    }

    /**
     * `handleSubmit`: without a signed-in user nothing is built or saved; otherwise the record
     * around `generatedCode` is saved (`saved` is the store's answer) and, once saved, the page
     * moves to the prescription's own page. Loading is off again at the end.
     */
    method HandleSubmit(user: Option<AuthUser>, generatedCode: string, now: string, saved: bool)
      returns (outcome: SubmitOutcome)
      modifies this`isLoading
      ensures !isLoading
      ensures outcome.NotAuthenticated? <==> user.None?
      ensures outcome.Saved? <==> user.Some? && saved
      ensures user.Some? ==> outcome.document == WithCodeAsId(Assemble(user.value, patient, medications, now, notes, generatedCode))
      ensures outcome.Saved? ==> outcome.target == PrescriptionPath(generatedCode)
    {
      isLoading := true;
      if user.None? {
        outcome := NotAuthenticated;
      } else {
        var prescriptionData := Assemble(user.value, patient, medications, now, notes, generatedCode);
        var document := WithCodeAsId(prescriptionData);
        if saved {
          outcome := Saved(document, PrescriptionPath(generatedCode));
        } else {
          outcome := SaveFailed(document);
        }
      }
      isLoading := false;
    }
  }
}
