/**
 * The QR code on a prescription's own page (app/prescriptions/[id]/page.tsx), which passes
 * the whole record where `generateQRCodeData` expects the code.
 */
module PrescriptionDetail {
  import opened Wrappers
  import opened Types
  import opened Utils

  /** What JavaScript's `+` makes of a plain object: `Object.prototype.toString`. */
  const OBJECT_TEXT: string := "[object Object]"

  /** The QR payload as the page computes it: the record itself is concatenated to the base. */
  function RecordQRCodeDataAsWritten(origin: Option<string>, p: Prescription): string {
    GenerateQRCodeData(origin, OBJECT_TEXT)
  }

  /** As written, every prescription's QR code carries the same text, which names no code. */
  lemma AsWrittenPayloadIgnoresCode(origin: Option<string>, p: Prescription, q: Prescription)
    ensures RecordQRCodeDataAsWritten(origin, p) == RecordQRCodeDataAsWritten(origin, q)
    ensures CodeOfQRCodeData(origin, RecordQRCodeDataAsWritten(origin, p)) == Some(OBJECT_TEXT)
    ensures p.prescriptionCode != OBJECT_TEXT ==>
      CodeOfQRCodeData(origin, RecordQRCodeDataAsWritten(origin, p)) != Some(p.prescriptionCode)
  {
    QRCodeDataRoundTrip(origin, OBJECT_TEXT, RecordQRCodeDataAsWritten(origin, p));
  }

  /** The QR payload as intended: the lookup link for the record's own code. */
  function RecordQRCodeData(origin: Option<string>, p: Prescription): (r: string)
    ensures CodeOfQRCodeData(origin, r) == Some(p.prescriptionCode)
  {
    QRCodeDataRoundTrip(origin, p.prescriptionCode, "");
    GenerateQRCodeData(origin, p.prescriptionCode)
  }

  /** Prescriptions with different codes get different QR codes. */
  lemma RecordQRCodeDataDistinguishes(origin: Option<string>, p: Prescription, q: Prescription)
    ensures RecordQRCodeData(origin, p) == RecordQRCodeData(origin, q) <==> p.prescriptionCode == q.prescriptionCode
  {
    QRCodeDataInjective(origin, p.prescriptionCode, q.prescriptionCode);
  }
}
