/**
 * The medication editor's list logic and the record assembled on submit, shared by the
 * new-prescription page and the prescription form component.
 */
module MedicationList {
  import opened Wrappers
  import opened Types
  import JsText

  /** The entry the list starts with and `addMedication` appends: every field ''. */
  const BLANK: MedicationOptionField := MedicationOptionField("", "", "", "", "")

  /** The `name` attributes of an entry's inputs. */
  datatype MedicationFieldName = Name | Dosage | Frequency | Duration | Notes

  /** The value an entry's input shows. */
  function FieldValue(m: MedicationOptionField, f: MedicationFieldName): string {
    match f
    case Name => m.name
    case Dosage => m.dosage
    case Frequency => m.frequency
    case Duration => m.duration
    case Notes => m.notes
  }

  /** `{...m, [f]: v}`: the entry with field `f` set to `v` and every other field as it was. */
  function WithField(m: MedicationOptionField, f: MedicationFieldName, v: string): (r: MedicationOptionField)
    ensures FieldValue(r, f) == v
    ensures forall g :: g != f ==> FieldValue(r, g) == FieldValue(m, g)
  {
    match f
    case Name => m.(name := v)
    case Dosage => m.(dosage := v)
    case Frequency => m.(frequency := v)
    case Duration => m.(duration := v)
    case Notes => m.(notes := v)
  }

  /** Two entries that show the same value in every field are the same entry. */
  lemma FieldsDetermineEntry(m: MedicationOptionField, n: MedicationOptionField)
    requires forall g :: FieldValue(m, g) == FieldValue(n, g)
    ensures m == n
  {
    assert FieldValue(m, Name) == FieldValue(n, Name);
    assert FieldValue(m, Dosage) == FieldValue(n, Dosage);
    assert FieldValue(m, Frequency) == FieldValue(n, Frequency);
    assert FieldValue(m, Duration) == FieldValue(n, Duration);
    assert FieldValue(m, Notes) == FieldValue(n, Notes);
  }

  /** Setting a field to the value it already shows leaves the entry as it was. */
  lemma WithFieldSameValue(m: MedicationOptionField, f: MedicationFieldName)
    ensures WithField(m, f, FieldValue(m, f)) == m
  {
    FieldsDetermineEntry(WithField(m, f, FieldValue(m, f)), m);
  }

  /**
   * Where `splice(index, 1)` starts on a list of `len` entries: a negative index counts
   * from the end (clamped to 0), a large one is clamped to `len`, where nothing is removed.
   */
  function SpliceStart(len: nat, index: int): (start: nat)
    ensures start <= len
    ensures 0 <= index <= len ==> start == index
    ensures -(len as int) <= index < 0 ==> start == len + index
    ensures index < -(len as int) ==> start == 0
    ensures index > len ==> start == len
  {
    if index < 0 then (if len + index < 0 then 0 else len + index)
    else if index > len then len
    else index
  }

  /** The list without its entry at `i`. */
  function RemovedAt<T>(s: seq<T>, i: nat): (r: seq<T>)
    requires i < |s|
    ensures |r| == |s| - 1
    ensures forall k :: 0 <= k < i ==> r[k] == s[k]
    ensures forall k :: i <= k < |r| ==> r[k] == s[k + 1]
  {
    s[..i] + s[i + 1..]
  }

  /** Removing an entry keeps every other entry exactly once: the list loses one copy of s[i]. */
  lemma RemovedAtMultiset<T>(s: seq<T>, i: nat)
    requires i < |s|
    ensures multiset(RemovedAt(s, i)) + multiset{s[i]} == multiset(s)
  {
    assert s == s[..i] + [s[i]] + s[i + 1..];
  }

  /** `medications.filter(med => med.name !== '')`. */
  function Named(entries: seq<MedicationOptionField>): (r: seq<MedicationOptionField>)
    ensures |r| <= |entries|
    ensures forall k :: 0 <= k < |r| ==> r[k].name != ""
    ensures forall m :: m in r <==> m in entries && m.name != ""
  {
    if entries == [] then []
    else if entries[0].name != "" then [entries[0]] + Named(entries[1..])
    else Named(entries[1..])
  }

  /** `idx` picks, in increasing positions of `s`, the elements of `r`. */
  ghost predicate Selects<T>(idx: seq<nat>, r: seq<T>, s: seq<T>) {
    |idx| == |r| &&
    (forall k :: 0 <= k < |idx| ==> idx[k] < |s| && r[k] == s[idx[k]]) &&
    (forall j, k :: 0 <= j < k < |idx| ==> idx[j] < idx[k])
  }

  /** `r` is `s` with some entries left out and the rest in their original order. */
  ghost predicate SubsequenceOf<T>(r: seq<T>, s: seq<T>) {
    exists idx: seq<nat> :: Selects(idx, r, s)
  }

  /** A selection from the tail of `s` is a selection from `s`, with or without `s[0]` in front. */
  lemma SelectionExtends<T>(idx: seq<nat>, r: seq<T>, s: seq<T>)
    requires s != [] && Selects(idx, r, s[1..])
    ensures SubsequenceOf(r, s) && SubsequenceOf([s[0]] + r, s)
  {
    var shifted := seq(|idx|, k requires 0 <= k < |idx| => idx[k] + 1);
    assert Selects(shifted, r, s);
    var idx' := [0] + shifted;
    assert Selects(idx', [s[0]] + r, s);
  }

  /**
   * The submitted entries are exactly the named ones in their original order: an
   * order-preserving selection of the list that keeps every named entry and no blank one.
   */
  lemma {:induction false} NamedIsOrderedSelection(entries: seq<MedicationOptionField>)
    ensures SubsequenceOf(Named(entries), entries)
  {
    if entries == [] {
      assert Selects([], Named(entries), entries);
    } else {
      NamedIsOrderedSelection(entries[1..]);
      var idx :| Selects(idx, Named(entries[1..]), entries[1..]);
      SelectionExtends(idx, Named(entries[1..]), entries);
    }
  }

  /** The filter drops exactly the entries with an empty name. */
  lemma {:induction false} NamedLength(entries: seq<MedicationOptionField>)
    ensures |Named(entries)| == |entries| - CountUnnamed(entries)
  {
    if entries != [] {
      NamedLength(entries[1..]);
    }
  }

  /** How many entries have an empty name. */
  function CountUnnamed(entries: seq<MedicationOptionField>): nat {
    if entries == [] then 0
    else (if entries[0].name == "" then 1 else 0) + CountUnnamed(entries[1..])
  }

  /** Filtering is order-preserving on concatenation: appending entries appends their named ones. */
  lemma {:induction false} NamedAppend(a: seq<MedicationOptionField>, b: seq<MedicationOptionField>)
    ensures Named(a + b) == Named(a) + Named(b)
  {
    if a != [] {
      assert (a + b)[1..] == a[1..] + b;
      NamedAppend(a[1..], b);
    } else {
      assert a + b == b;
    }
  }

  /** A list with no blank name is submitted as it is; one of only blank entries submits nothing. */
  lemma {:induction false} NamedExtremes(entries: seq<MedicationOptionField>)
    ensures (forall k :: 0 <= k < |entries| ==> entries[k].name != "") ==> Named(entries) == entries
    ensures (forall k :: 0 <= k < |entries| ==> entries[k].name == "") ==> Named(entries) == []
  {
    if entries != [] {
      NamedExtremes(entries[1..]);
      assert entries == [entries[0]] + entries[1..];
    }
  }

  /** The signed-in user submitting the form. */
  datatype AuthUser = AuthUser(uid: string, displayName: Option<string>)

  /** `currentUser.displayName || 'Doctor'`. */
  function DoctorName(displayName: Option<string>): (r: string)
    ensures r != ""
    ensures displayName.Some? && displayName.value != "" ==> r == displayName.value
    ensures r != "Doctor" ==> displayName == Some(r)
  {
    if displayName.Some? && displayName.value != "" then displayName.value else "Doctor"
  }

  /** The page a saved prescription is shown on. */
  function PrescriptionPath(code: string): (r: string)
    ensures |r| == |"/prescriptions/"| + |code|
    ensures r[..|"/prescriptions/"|] == "/prescriptions/" && r[|"/prescriptions/"|..] == code
  {
    "/prescriptions/" + code
  }

  /**
   * The record `handleSubmit` assembles: it carries the issuing user, the patient, the named
   * entries in order, the time of submission, the notes and the freshly generated code.
   */
  function Assemble(user: AuthUser, patient: Patient, entries: seq<MedicationOptionField>,
                    now: string, notes: string, code: string): (p: Prescription)
    ensures p.prescriptionCode == code && p.id == None
    ensures p.doctorId == user.uid && p.doctorName == DoctorName(user.displayName)
    ensures p.patient == patient && p.date == now && p.notes == Some(notes)
    ensures p.medications == ToMedications(Named(entries))
  {
    Prescription(None, user.uid, DoctorName(user.displayName), patient,
                 ToMedications(Named(entries)), now, Some(notes), code)
  }

  /** Every stored medication has a name, and each is one of the editor's entries. */
  lemma AssembledMedications(user: AuthUser, patient: Patient, entries: seq<MedicationOptionField>,
                             now: string, notes: string, code: string)
    ensures var p := Assemble(user, patient, entries, now, notes, code);
            (forall k :: 0 <= k < |p.medications| ==> p.medications[k].name != "") &&
            (forall k :: 0 <= k < |p.medications| ==> ToOptionField(p.medications[k]) in entries)
  {
    var p := Assemble(user, patient, entries, now, notes, code);
    var named := Named(entries);
    forall k | 0 <= k < |p.medications|
      ensures p.medications[k].name != "" && ToOptionField(p.medications[k]) in entries
    {
      OptionFieldIsMedication(named[k], named[k]);
      assert named[k] in named;
    }
  }

  /** The patient fields the form's inputs write. */
  datatype PatientFieldName = PatientName | Age | Gender | ContactNumber

  /** The patient after input `f` changed to `v`: the age parsed, every other field as typed. */
  function WithPatientInput(p: Patient, f: PatientFieldName, v: string): (r: Patient)
    ensures f == Age ==> r == p.(age := JsText.ParseIntOrZero(v))
    ensures f == PatientName ==> r == p.(name := v)
    ensures f == Gender ==> r == p.(gender := v)
    ensures f == ContactNumber ==> r == p.(contactNumber := Some(v))
  {
    match f
    case PatientName => p.(name := v)
    case Age => p.(age := JsText.ParseIntOrZero(v))
    case Gender => p.(gender := v)
    case ContactNumber => p.(contactNumber := Some(v))
  }

  /**
   * Typing a numeral (optionally signed, padded with white space, followed by a non-digit)
   * into the age input stores its number; the other patient fields keep their values.
   */
  lemma AgeInputNumeral(p: Patient, pad: string, negative: bool, n: nat, rest: string)
    requires JsText.IsBlank(pad)
    requires rest == [] || !JsText.IsDigit(rest[0])
    ensures var r := WithPatientInput(p, Age, pad + ((if negative then "-" else "") + JsText.DecimalString(n) + rest));
            r.age == (if negative then -(n as int) else n) &&
            r.name == p.name && r.gender == p.gender && r.contactNumber == p.contactNumber
  {
    JsText.ParseIntOfNumeral(pad, negative, n, rest);
  }

  /** Typing text that starts with neither white space, a sign nor a digit stores age 0. */
  lemma AgeInputNotNumeric(p: Patient, v: string)
    requires v != [] && !JsText.IsWhiteSpace(v[0]) && !JsText.IsDigit(v[0]) && v[0] != '+' && v[0] != '-'
    ensures WithPatientInput(p, Age, v).age == 0
  {
    assert JsText.TrimStart(v) == v;
    JsText.ParseIntWithoutDigits(v);
  }

  /** The patient both forms start with. */
  const INITIAL_PATIENT: Patient := Patient("", 0, "", Some(""))

  /** What a submission ends in; the store's answer to the save is an input of the handler. */
  datatype SubmitOutcome =
    | NotAuthenticated
    | SaveFailed(document: Prescription)
    | Saved(document: Prescription, target: string)
}
