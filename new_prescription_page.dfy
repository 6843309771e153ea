/** The new-prescription page's form state and handlers (app/prescriptions/new/page.tsx). */
module NewPrescriptionPage {
  import opened Wrappers
  import opened Types
  import opened MedicationList

  class NewPrescriptionForm {
    var patient: Patient
    var medications: seq<MedicationOptionField>
    var notes: string
    var isLoading: bool

    /** The editor always shows at least one entry. */
    ghost predicate Valid()
      reads this
    {
      |medications| >= 1
    }

    /** The page opens with an empty patient, one blank entry and no notes. */
    constructor ()
      ensures Valid()
      ensures patient == INITIAL_PATIENT && medications == [BLANK] && notes == "" && !isLoading
    {
      patient := INITIAL_PATIENT;
      medications := [BLANK];
      notes := "";
      isLoading := false;
    }

    /** `handlePatientChange`: the age input is parsed, the other inputs are kept as typed. */
    method HandlePatientChange(f: PatientFieldName, value: string)
      modifies this`patient
      ensures patient == WithPatientInput(old(patient), f, value)
    {
      patient := WithPatientInput(patient, f, value);
    }

    /** `handlePatientSelectChange`: the page's only caller is the gender drop-down. */
    method HandlePatientSelectChange(value: string)
      modifies this`patient
      ensures patient == old(patient).(gender := value)
    {
      patient := patient.(gender := value);
    }

    /** `handleMedicationChange`: field `f` of entry `index` becomes `value`; nothing else changes. */
    method HandleMedicationChange(index: nat, f: MedicationFieldName, value: string)
      requires Valid() && index < |medications|
      modifies this`medications
      ensures Valid() && |medications| == |old(medications)|
      ensures medications[index] == WithField(old(medications[index]), f, value)
      ensures forall k :: 0 <= k < |medications| && k != index ==> medications[k] == old(medications[k])
    {
      var updated := medications;
      updated := updated[index := WithField(updated[index], f, value)];
      medications := updated;
    }

    /** `handleMedicationSelectChange`: the same update, fired by the medication-name drop-down. */
    method HandleMedicationSelectChange(index: nat, f: MedicationFieldName, value: string)
      requires Valid() && index < |medications|
      modifies this`medications
      ensures Valid() && |medications| == |old(medications)|
      ensures medications[index] == WithField(old(medications[index]), f, value)
      ensures forall k :: 0 <= k < |medications| && k != index ==> medications[k] == old(medications[k])
    {
      HandleMedicationChange(index, f, value);
    }

    /** `addMedication`: one blank entry at the end; the existing entries stay as they are. */
    method AddMedication()
      requires Valid()
      modifies this`medications
      ensures Valid() && medications == old(medications) + [BLANK]
    {
      medications := medications + [BLANK];
    }

    /**
     * `removeMedication`: with more than one entry, `splice(index, 1)` removes the entry where
     * the splice starts, if any; a single entry is never removed.
     */
    method RemoveMedication(index: int)
      requires Valid()
      modifies this`medications
      ensures Valid()
      ensures var start := SpliceStart(|old(medications)|, index);
              medications == if |old(medications)| > 1 && start < |old(medications)|
                             then RemovedAt(old(medications), start)
                             else old(medications)
    {
      if |medications| > 1 {
        var updated := medications;
        var start := SpliceStart(|updated|, index);
        if start < |updated| {
          updated := RemovedAt(updated, start);
        }
        medications := updated;
      }
    }

    /** The notes text area. */
    method HandleNotesChange(value: string)
      modifies this`notes
      ensures notes == value
    {
      notes := value;
    }

    /**
     * `handleSubmit`: without a signed-in user nothing is built or saved; otherwise the record
     * around `generatedCode` is saved (`saved` is the store's answer) and, once saved, the page
     * moves to the prescription's own page. Loading is off again at the end.
     */
    method HandleSubmit(user: Option<AuthUser>, generatedCode: string, now: string, saved: bool)
      returns (outcome: SubmitOutcome)
      modifies this`isLoading
      ensures !isLoading
      ensures outcome.NotAuthenticated? <==> user.None?
      ensures outcome.Saved? <==> user.Some? && saved
      ensures user.Some? ==> outcome.document == Assemble(user.value, patient, medications, now, notes, generatedCode)
      ensures outcome.Saved? ==> outcome.target == PrescriptionPath(generatedCode)
    {
      isLoading := true;
      if user.None? {
        outcome := NotAuthenticated;
      } else {
        var record := Assemble(user.value, patient, medications, now, notes, generatedCode);
        if saved {
          outcome := Saved(record, PrescriptionPath(generatedCode));
        } else {
          outcome := SaveFailed(record);
        }
      }
      isLoading := false;
    }
  }
}
