/**
 * The QR/lookup link builder (app/lib/utils.ts). The browser's `window.location.origin`
 * is the `origin` parameter; `None` stands for rendering where `window` is undefined.
 */
module Utils {
  import opened Wrappers

  /** The route and query parameter every link targets. */
  const SCAN_QUERY: string := "/scan?code="

  /** The base used when there is no `window`. */
  const LOCAL_BASE: string := "localhost:3000/scan?code="

  predicate IsPrefix(p: string, s: string) {
    |p| <= |s| && s[..|p|] == p
  }

  predicate IsSuffix(q: string, s: string) {
    |q| <= |s| && s[|s| - |q|..] == q
  }

  /** The part of a lookup link before the code. */
  function BaseUrl(origin: Option<string>): (b: string)
    ensures IsSuffix(SCAN_QUERY, b)
    ensures origin.Some? ==> IsPrefix(origin.value, b) && |b| == |origin.value| + |SCAN_QUERY|
    ensures origin.None? ==> b == LOCAL_BASE
  {
    match origin
    case Some(o) => o + SCAN_QUERY
    case None => LOCAL_BASE
  }

  /** `generateQRCodeData(code)`: the lookup link a QR code carries. */
  function GenerateQRCodeData(origin: Option<string>, code: string): (r: string)
    ensures |r| == |BaseUrl(origin)| + |code|
    ensures IsPrefix(BaseUrl(origin), r) && IsSuffix(code, r)
  {
    BaseUrl(origin) + code
  }

  /** The code a lookup link carries, read by removing the base; `None` for foreign links. */
  function CodeOfQRCodeData(origin: Option<string>, payload: string): (r: Option<string>)
    ensures r.Some? <==> IsPrefix(BaseUrl(origin), payload)
  {
    var base := BaseUrl(origin);
    if IsPrefix(base, payload) then Some(payload[|base|..]) else None
  }

  /** Removing the base from a link gives back its code, and only links so built read back. */
  lemma {:induction false} QRCodeDataRoundTrip(origin: Option<string>, code: string, payload: string)
    ensures CodeOfQRCodeData(origin, GenerateQRCodeData(origin, code)) == Some(code)
    ensures CodeOfQRCodeData(origin, payload) == Some(code) ==> GenerateQRCodeData(origin, code) == payload
  {
    var base := BaseUrl(origin);
    assert (base + code)[|base|..] == code;
    if CodeOfQRCodeData(origin, payload) == Some(code) {
      assert payload == payload[..|base|] + payload[|base|..];
    }
  }

  /** For a fixed environment, distinct codes give distinct links. */
  lemma QRCodeDataInjective(origin: Option<string>, c1: string, c2: string)
    ensures GenerateQRCodeData(origin, c1) == GenerateQRCodeData(origin, c2) <==> c1 == c2
  {
    QRCodeDataRoundTrip(origin, c1, GenerateQRCodeData(origin, c1));
    QRCodeDataRoundTrip(origin, c2, GenerateQRCodeData(origin, c2));
  }

  /** Every link addresses the `code` parameter of the `/scan` route. */
  lemma QRCodeDataTargetsScan(origin: Option<string>, code: string)
    ensures var r := GenerateQRCodeData(origin, code);
            var k := |BaseUrl(origin)| - |SCAN_QUERY|;
            0 <= k && r[k..k + |SCAN_QUERY|] == SCAN_QUERY && r[k + |SCAN_QUERY|..] == code
  {
    var b := BaseUrl(origin);
    var k := |b| - |SCAN_QUERY|;
    assert (b + code)[k..k + |SCAN_QUERY|] == b[k..];
    assert (b + code)[|b|..] == code;
  }
}
