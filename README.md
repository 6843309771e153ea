# Prescription app: editor, lookup link, lookup page and dashboard, in Dafny

This project models the logic that sits inside the prescription web application's pages and
helpers. The model covers:

- the medication editor. Both the new-prescription page and the prescription form component
  contain one, and each is modelled as a class with a `seq` of entries whose handlers add,
  remove and edit entries.
- the record assembled on submit. It keeps only the named entries, in order, around a freshly
  generated prescription code. The component also stores that code as the document's `id`.
- `generateQRCodeData`, the lookup link a QR code carries, and the reading of a code back
  out of such a link.
- the lookup page's state machine: code, prescription, loading and error.
- the dashboard's distinct-patient count, its "Last Activity" choice and its search guard.
- the records and the five-entry medication catalog.

Two JavaScript built-ins are modelled as well, because the handlers' behaviour depends on
them. `String.prototype.trim` is used by every blank-input guard. `parseInt(value) || 0` is
how the age field is read. Both use ECMAScript's exact set of white-space and
line-terminator characters.

Module by module:

- `Wrappers`: `Option`.
- `JsText`: `trim` and decimal `parseInt`.
- `Types`: the records, the catalog, and the `QueryResult` shape of a document-store answer.
- `Utils`: the lookup link.
- `MedicationList`: the editor and submission logic that both forms share.
- `NewPrescriptionPage`, `PrescriptionForm`, `ScanPage`, `DashboardPage`: one per page.
- `PrescriptionDetail`: the QR code on a prescription's own page, which is the one finding below.

The document store and sign-in service are not modelled. A query's answer is an input of the
handler (`Docs(seq)` or `QueryFailed`). The store's answer to a save is a boolean input. The
signed-in user, the clock and the generated code are inputs too.

The patient's age is not kept non-negative: `parseInt("-5") || 0` stores -5.

## Model

| member | source | states |
|---|---|---|
| `JsText.TrimEmptyIffBlank` | app/scan/page.tsx:45 | `!code.trim()` holds exactly when every character of the code is white space, in both directions |
| `JsText.ParseInt` | app/prescriptions/new/page.tsx:61 | `parseInt` yields NaN exactly when no decimal digit follows the leading white space and optional sign |
| `JsText.ParseIntOfDigits` | app/prescriptions/new/page.tsx:61 | any run of digits, leading zeros included, optionally padded with white space, signed with `-`, and followed by a non-digit, parses to the run's value with that sign, and `parseInt(v) \|\| 0` keeps it |
| `JsText.DigitsValueLeadingZeros` | app/prescriptions/new/page.tsx:61 | leading zeros do not change the value of a digit run, so `"007"` reads as 7 |
| `JsText.ParseIntOfNumeral` | app/prescriptions/new/page.tsx:61 | a numeral, optionally padded with white space, signed with `-`, and followed by a non-digit, parses to its number, and `parseInt(v) \|\| 0` keeps that number |
| `JsText.ParseIntWithoutDigits` | app/prescriptions/new/page.tsx:61 | text with no digit after the white space and sign parses to NaN, so `parseInt(v) \|\| 0` gives 0 |
| `JsText.DigitsValueOfDecimal` | app/prescriptions/new/page.tsx:61 | reading back the decimal numeral of n gives n |
| `Types.ToMedication` | app/lib/types.ts:2-8 | an editor row is stored as a `Medication` with the same name, dosage, frequency and duration, and with its notes present |
| `Types.OptionFieldIsMedication` | app/lib/types.ts:33-39 | every `MedicationOptionField` is a valid `Medication`; reading it back gives the same row, so the conversion is injective |
| `Types.ToMedications` | app/prescriptions/new/page.tsx:120 | a list of editor rows is stored entry by entry, in the same order and at the same length |
| `Types.CatalogNames` | app/lib/types.ts:42-48 | the catalog has exactly five options: Aspirin, Paracetamol, Naproxen, Metoprolol and Dolo, in that order |
| `Types.CatalogWellFormed` | app/lib/types.ts:43-47 | every option's value equals its label, and no value appears twice |
| `Utils.BaseUrl` | app/lib/utils.ts:29-31 | the base is the origin followed by `/scan?code=` when there is a window, and `localhost:3000/scan?code=` otherwise; it always ends in `/scan?code=` |
| `Utils.GenerateQRCodeData` | app/lib/utils.ts:28-34 | the link starts with the base, ends with the code, and is exactly as long as the two together |
| `Utils.CodeOfQRCodeData` | app/lib/utils.ts:33 | a code is read back exactly from the links that start with the base |
| `Utils.QRCodeDataRoundTrip` | app/lib/utils.ts:33 | removing the base from a link gives back its code, and a link that reads back as a code is the link for that code |
| `Utils.QRCodeDataInjective` | app/lib/utils.ts:33 | for a fixed origin, two links are equal exactly when their codes are equal |
| `Utils.QRCodeDataTargetsScan` | app/lib/utils.ts:30-31 | every link carries `/scan?code=` immediately before the code, so it always targets the `code` parameter of `/scan` |
| `MedicationList.WithField` | app/prescriptions/new/page.tsx:75-78 | the updated entry shows the new value in the named field and the old value in every other field |
| `MedicationList.WithFieldSameValue` | app/components/prescriptions/prescription-form.tsx:45-48 | writing a field's current value back leaves the entry unchanged |
| `MedicationList.SpliceStart` | app/prescriptions/new/page.tsx:98 | `splice(index, 1)` starts at an in-range index, counts a negative index from the end (clamped to 0), and clamps a large index to the length, where nothing is removed |
| `MedicationList.RemovedAt` | app/prescriptions/new/page.tsx:97-99 | removal is one entry shorter; entries before the index stay in place, and entries after it move down by one, in order |
| `MedicationList.RemovedAtMultiset` | app/components/prescriptions/prescription-form.tsx:58-60 | removal loses exactly one copy of the removed entry and keeps every other entry |
| `MedicationList.Named` | app/prescriptions/new/page.tsx:120 | the filter keeps exactly the entries with a non-empty name: every kept entry is named, and every named entry is kept |
| `MedicationList.NamedIsOrderedSelection` | app/components/prescriptions/prescription-form.tsx:81 | the submitted entries are an order-preserving selection of the editor's list |
| `MedicationList.NamedLength` | app/prescriptions/new/page.tsx:120 | the filter drops exactly as many entries as have an empty name |
| `MedicationList.NamedAppend` | app/prescriptions/new/page.tsx:120 | filtering a concatenation gives the concatenation of the filtered parts, so order is kept |
| `MedicationList.NamedExtremes` | app/prescriptions/new/page.tsx:120 | a list with every entry named is submitted unchanged; a list with no named entry submits nothing |
| `MedicationList.DoctorName` | app/prescriptions/new/page.tsx:118 | the doctor name is never empty; it is the display name when that is non-empty, and `'Doctor'` otherwise |
| `MedicationList.PrescriptionPath` | app/prescriptions/new/page.tsx:130 | the navigation target is `/prescriptions/` followed by exactly the code |
| `MedicationList.Assemble` | app/prescriptions/new/page.tsx:116-124 | the record carries the generated code, no id, the user's uid, the doctor name, the patient, the notes, the submission time, and the named entries in order |
| `MedicationList.AssembledMedications` | app/components/prescriptions/prescription-form.tsx:77-85 | every stored medication has a name and is one of the editor's entries |
| `MedicationList.WithPatientInput` | app/prescriptions/new/page.tsx:57-63 | the age input stores `parseInt(v) \|\| 0`, and every other patient input stores its raw text |
| `MedicationList.AgeInputNumeral` | app/components/prescriptions/prescription-form.tsx:34-40 | typing a numeral stores its number as the age, and the other patient fields stay unchanged |
| `MedicationList.AgeInputNotNumeric` | app/components/prescriptions/prescription-form.tsx:38 | typing text that starts with neither white space, a sign nor a digit stores age 0 |
| `NewPrescriptionPage.NewPrescriptionForm.constructor` | app/prescriptions/new/page.tsx:32-43 | the form starts with an empty patient (age 0), exactly one entry whose fields are all empty, no notes, and not loading |
| `NewPrescriptionPage.NewPrescriptionForm.HandlePatientChange` | app/prescriptions/new/page.tsx:57-63 | only the patient changes, and only by the input's field |
| `NewPrescriptionPage.NewPrescriptionForm.HandlePatientSelectChange` | app/prescriptions/new/page.tsx:65-70 | the gender drop-down stores its raw value as the gender |
| `NewPrescriptionPage.NewPrescriptionForm.HandleMedicationChange` | app/prescriptions/new/page.tsx:72-80 | only the named field of the indexed entry changes; the length and every other entry stay the same, and the list stays non-empty |
| `NewPrescriptionPage.NewPrescriptionForm.HandleMedicationSelectChange` | app/prescriptions/new/page.tsx:82-89 | the drop-down update has the same effect as a typed change |
| `NewPrescriptionPage.NewPrescriptionForm.AddMedication` | app/prescriptions/new/page.tsx:91-93 | the list becomes the old list followed by one blank entry |
| `NewPrescriptionPage.NewPrescriptionForm.RemoveMedication` | app/prescriptions/new/page.tsx:95-101 | with more than one entry, exactly the entry where the splice starts is removed and the rest keep their order; a single entry is never removed, so the list never becomes empty |
| `NewPrescriptionPage.NewPrescriptionForm.HandleNotesChange` | app/prescriptions/new/page.tsx:334 | the notes become the typed text |
| `NewPrescriptionPage.NewPrescriptionForm.HandleSubmit` | app/prescriptions/new/page.tsx:103-137 | with no user, the outcome is "not authenticated" and no record is built; otherwise the assembled record is saved and navigation to `/prescriptions/<code>` follows only a successful save; loading ends false |
| `PrescriptionForm.WithCodeAsId` | app/components/prescriptions/prescription-form.tsx:89-92 | the stored document is the record with `id` set to its prescription code, and nothing else changed |
| `PrescriptionForm.StoredDocument` | app/components/prescriptions/prescription-form.tsx:77-92 | the stored document's id and code are the generated code; apart from the id it is the assembled record; its medications are the named entries in order |
| `PrescriptionForm.PrescriptionFormState.constructor` | app/components/prescriptions/prescription-form.tsx:21-32 | the form starts with exactly one blank entry, an empty patient, no notes, and not loading |
| `PrescriptionForm.PrescriptionFormState.HandlePatientChange` | app/components/prescriptions/prescription-form.tsx:34-40 | the age input is parsed and every other input is stored as typed; nothing else changes |
| `PrescriptionForm.PrescriptionFormState.HandleMedicationChange` | app/components/prescriptions/prescription-form.tsx:42-50 | only the named field of the indexed entry changes; the length and the other entries stay the same |
| `PrescriptionForm.PrescriptionFormState.AddMedication` | app/components/prescriptions/prescription-form.tsx:52-54 | one blank entry is appended and nothing else changes |
| `PrescriptionForm.PrescriptionFormState.RemoveMedication` | app/components/prescriptions/prescription-form.tsx:56-62 | removal happens only when there is more than one entry, and it deletes exactly the entry where the splice starts |
| `PrescriptionForm.PrescriptionFormState.HandleNotesChange` | app/components/prescriptions/prescription-form.tsx:285 | the notes become the typed text |
| `PrescriptionForm.PrescriptionFormState.HandleSubmit` | app/components/prescriptions/prescription-form.tsx:64-100 | with no user, nothing is built; otherwise the record, with its code as its id, is saved, and navigation follows only a successful save; loading ends false |
| `ScanPage.LooksUpOnOpen` | app/scan/page.tsx:29-33 | the page looks up on opening exactly when the URL carries a non-empty `code` parameter |
| `ScanPage.PrescriptionLookup.constructor` | app/scan/page.tsx:22-27 | the input starts as the URL's `code` parameter, or `''` when that is absent; no prescription, not loading, no error |
| `ScanPage.PrescriptionLookup.SetPrescriptionCode` | app/scan/page.tsx:116 | the input holds the typed code |
| `ScanPage.PrescriptionLookup.StartLookup` | app/scan/page.tsx:45-51 | a blank or white-space-only code sets the prompt error and makes no query, with loading unchanged; any other code sets loading and clears the error |
| `ScanPage.PrescriptionLookup.FinishLookup` | app/scan/page.tsx:58-70 | a non-empty result shows its first record; an empty result clears the prescription and sets the not-found error; a failure keeps the prescription and sets the fetch error; loading ends false |
| `ScanPage.PrescriptionLookup.Lookup` | app/scan/page.tsx:44-71 | the whole lookup: a blank code sets the prompt error and leaves loading and prescription unchanged; otherwise the query's outcome is shown and loading ends false |
| `ScanPage.PrescriptionLookup.HandleSubmit` | app/scan/page.tsx:73-76 | submitting looks up the code currently in the input |
| `ScanPage.PrescriptionLookup.SubmitDisabled` | app/scan/page.tsx:124 | the button is disabled exactly when the code is blank or a lookup is loading |
| `ScanPage.PrescriptionLookup.ViewFullTarget` | app/scan/page.tsx:78-82 | "view full" navigates only when the shown prescription has a non-empty code, and then to `/prescriptions/<code>` |
| `DashboardPage.CountUniquePatients` | app/dashboard/page.tsx:86-92 | the loop's count equals the number of distinct patient names among the fetched prescriptions |
| `DashboardPage.PatientCountBounds` | app/dashboard/page.tsx:86-92 | the patient count is at most the number of prescriptions, and at least one when any was fetched |
| `DashboardPage.SharedNameCountsOnce` | app/dashboard/page.tsx:89 | two prescriptions for the same name count once, so the count falls below the number of prescriptions |
| `DashboardPage.LastActivityOf` | app/dashboard/page.tsx:255-257 | there is no activity exactly when no prescription was fetched; otherwise the last activity is the first prescription's date |
| `DashboardPage.LastActivityText` | app/dashboard/page.tsx:255-257 | the card reads "No activity" when no prescription was fetched, and otherwise the first prescription's date |
| `DashboardPage.SearchRequest` | app/dashboard/page.tsx:109-114 | search opens only when the trimmed query is non-empty, and then carries the query as typed |
| `DashboardPage.Dashboard.constructor` | app/dashboard/page.tsx:44-50 | the page opens loading, with no prescriptions, a count of 0 and an empty search |
| `DashboardPage.Dashboard.FetchDashboardData` | app/dashboard/page.tsx:67-98 | a successful query shows the fetched list and its distinct-patient count; a failure leaves both unchanged; loading ends false |
| `DashboardPage.Dashboard.TotalPrescriptions` | app/dashboard/page.tsx:227 | the "Total Prescriptions" card shows the number of prescriptions on the page's list |
| `DashboardPage.Dashboard.SetSearchQuery` | app/dashboard/page.tsx:190 | the search input holds the typed text |
| `PrescriptionDetail.AsWrittenPayloadIgnoresCode` | app/lib/utils.ts:28-33 | as called from the detail page, every prescription gets the same payload, which reads back as `[object Object]` and not as the prescription's code |
| `PrescriptionDetail.RecordQRCodeData` | app/lib/utils.ts:28-33 | when the code is passed, the payload reads back as the record's own code |
| `PrescriptionDetail.RecordQRCodeDataDistinguishes` | app/lib/utils.ts:33 | when the code is passed, two payloads are equal exactly when the two records' codes are equal |

## Findings

| source | as written | input that shows it | evidently intended | confidence | as-written member | corrected member |
|---|---|---|---|---|---|---|
| app/prescriptions/[id]/page.tsx:244 | `generateQRCodeData(prescription)` passes the whole record where a code string is expected, so `+` turns it into `[object Object]` | any two prescriptions with codes `"abc12345"` and `"zzz99999"` get the same payload, ending in `/scan?code=[object Object]` | `generateQRCodeData(prescription.prescriptionCode)`, so the QR code opens the lookup for that record | high, not executed | `PrescriptionDetail.AsWrittenPayloadIgnoresCode` | `PrescriptionDetail.RecordQRCodeData` |

## Left out

- The Firestore queries and saves. This covers `collection`, `query`, `where`, `orderBy`,
  `limit`, `getDocs` and `addDoc`. They are external services, so their answers are inputs of
  the handlers.
- The dashboard query's own guarantees are not modelled: at most 5 of the
  doctor's prescriptions, newest first. The store enforces them, not code in the app.
- The sign-in check effects on the pages (`getCurrentUser`, `isCheckingAuth`, the redirect
  to `/`). They are external authentication calls.
- `app/lib/auth.ts` and the sign-in page are not part of this model.
- `generatePrescriptionCode` (`nanoid(8)`) is a foreign random generator. The code is an
  opaque input; no length, alphabet or uniqueness is claimed.
- `formatDate` is locale-dependent `Date` formatting. The dashboard's last activity is kept
  as the raw date string.
- `cn` is left out; it only merges CSS class names.
- JSX rendering, `router.push` (only the target is modelled), `alert`, console logging, and
  races between overlapping asynchronous lookups.
- The lookup page's open-time effect (`useEffect` calling `lookupPrescription(codeFromUrl)`)
  is stated only as the predicate `ScanPage.LooksUpOnOpen`. The lookup itself is `Lookup`.
- `DashboardPage.SearchRequest` returns the raw query. `encodeURIComponent` (UTF-8
  percent-encoding into `/search?q=`) is not modelled.
- `JsText.ParseInt` reads decimal numbers only. Hex prefixes (`0x`), radix handling and the
  precision of very large numbers as doubles are left out. A `type="number"` input never
  supplies a hex prefix.
- `NewPrescriptionPage.NewPrescriptionForm.HandleMedicationChange` requires an in-range
  index. The page passes only the index of an entry it renders. An out-of-range index would
  make JavaScript create holes or extra properties, which is not modelled.
- `PrescriptionForm.PrescriptionFormState.HandleMedicationChange` requires an in-range index,
  for the same reason.
- Input and field names are enumerations: `MedicationFieldName` and `PatientFieldName`. The
  forms only use those names. An arbitrary property name written by `[name]: value` is not
  modelled.
- `NewPrescriptionPage.NewPrescriptionForm.HandlePatientSelectChange` takes only the gender.
  Its single caller passes `'gender'`.
