/** The prescription lookup page's state and its lookup (app/scan/page.tsx). */
module ScanPage {
  import opened Wrappers
  import opened Types
  import JsText
  import MedicationList

  const BLANK_CODE_ERROR: string := "Please enter a prescription code"
  const NOT_FOUND_ERROR: string := "No prescription found with this code"
  const FETCH_ERROR: string := "Failed to fetch prescription. Please try again."

  /** The page looks the URL's code up as soon as it opens when that code is non-empty. */
  predicate LooksUpOnOpen(codeFromUrl: Option<string>): (b: bool)
    ensures b <==> codeFromUrl.GetOr("") != ""
  {
    codeFromUrl.Some? && codeFromUrl.value != ""
  }

  class PrescriptionLookup {
    var prescriptionCode: string
    var prescription: Option<Prescription>
    var loading: bool
    var error: string

    /**
     * The page opens showing the URL's `code` parameter (`codeFromUrl || ''`), with nothing
     * found, not loading and no error.
     */
    constructor (codeFromUrl: Option<string>)
      ensures codeFromUrl.Some? ==> prescriptionCode == codeFromUrl.value
      ensures codeFromUrl.None? ==> prescriptionCode == ""
      ensures prescription == None && !loading && error == ""
    {
      prescriptionCode := codeFromUrl.GetOr("");
      prescription := None;
      loading := false;
      error := "";
    }

    /** The code input. */
    method SetPrescriptionCode(value: string)
      modifies this`prescriptionCode
      ensures prescriptionCode == value
    {
      prescriptionCode := value;
    }

    /**
     * The part of `lookupPrescription` before the query: a blank code is refused with an error
     * and nothing else changes; otherwise loading starts, the error is cleared and the query
     * is to be made.
     */
    method StartLookup(code: string) returns (query: bool)
      modifies this`loading, this`error
      ensures query <==> !JsText.IsBlank(code)
      ensures !query ==> error == BLANK_CODE_ERROR && loading == old(loading)
      ensures query ==> loading && error == ""
    {
      JsText.TrimEmptyIffBlank(code);
      if JsText.Trim(code) == [] {
        error := BLANK_CODE_ERROR;
        return false;
      }
      loading := true;
      error := "";
      query := true;
    }

    /**
     * The part of `lookupPrescription` after the query: the first matching document is shown;
     * no match clears the prescription with an error; a failed query keeps the prescription
     * with another error. Loading always ends.
     */
    method FinishLookup(result: QueryResult)
      modifies this`prescription, this`loading, this`error
      ensures !loading
      ensures result.Docs? && result.docs != [] ==> prescription == Some(result.docs[0]) && error == old(error)
      ensures result.Docs? && result.docs == [] ==> prescription == None && error == NOT_FOUND_ERROR
      ensures result.QueryFailed? ==> prescription == old(prescription) && error == FETCH_ERROR
    {
      match result {
        case Docs(docs) =>
          if docs != [] {
            prescription := Some(docs[0]);
          } else {
            error := NOT_FOUND_ERROR;
            prescription := None;
          }
        case QueryFailed =>
          error := FETCH_ERROR;
      }
      loading := false;
    }

    /**
     * `lookupPrescription(code)`, where `result` is what the query for `code` returns: a blank
     * code sets the prompt error and makes no query; otherwise the outcome of the query is shown
     * and loading is off at the end.
     */
    method Lookup(code: string, result: QueryResult)
      modifies this`prescription, this`loading, this`error
      ensures JsText.IsBlank(code) ==>
        error == BLANK_CODE_ERROR && loading == old(loading) && prescription == old(prescription)
      ensures !JsText.IsBlank(code) ==> !loading
      ensures !JsText.IsBlank(code) && result.Docs? && result.docs != [] ==>
        prescription == Some(result.docs[0]) && error == ""
      ensures !JsText.IsBlank(code) && result.Docs? && result.docs == [] ==>
        prescription == None && error == NOT_FOUND_ERROR
      ensures !JsText.IsBlank(code) && result.QueryFailed? ==>
        prescription == old(prescription) && error == FETCH_ERROR
    {
      var query := StartLookup(code);
      if query {
        FinishLookup(result);
      }
    }

    /** `handleSubmit`: looks up the code in the input. */
    method HandleSubmit(result: QueryResult)
      modifies this`prescription, this`loading, this`error
      ensures JsText.IsBlank(prescriptionCode) ==>
        error == BLANK_CODE_ERROR && loading == old(loading) && prescription == old(prescription)
      ensures !JsText.IsBlank(prescriptionCode) ==> !loading
      ensures !JsText.IsBlank(prescriptionCode) && result.Docs? && result.docs != [] ==>
        prescription == Some(result.docs[0]) && error == ""
      ensures !JsText.IsBlank(prescriptionCode) && result.Docs? && result.docs == [] ==>
        prescription == None && error == NOT_FOUND_ERROR
      ensures !JsText.IsBlank(prescriptionCode) && result.QueryFailed? ==>
        prescription == old(prescription) && error == FETCH_ERROR
    {
      Lookup(prescriptionCode, result);
    }

    /** The search button is disabled while the trimmed code is empty or a lookup is running. */
    function SubmitDisabled(): (disabled: bool)
      reads this
      ensures disabled <==> JsText.IsBlank(prescriptionCode) || loading
    {
      JsText.TrimEmptyIffBlank(prescriptionCode);
      JsText.Trim(prescriptionCode) == [] || loading
    }

    /** `handleViewFull`: the full record's page, only when a prescription with a code is shown. */
    function ViewFullTarget(): (target: Option<string>)
      reads this
      ensures target.Some? <==> prescription.Some? && prescription.value.prescriptionCode != ""
      ensures target.Some? ==> target.value == MedicationList.PrescriptionPath(prescription.value.prescriptionCode)
    {
      if prescription.Some? && prescription.value.prescriptionCode != "" then
        Some(MedicationList.PrescriptionPath(prescription.value.prescriptionCode))
      else None
    }
  }
}
