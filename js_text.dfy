/**
 * The two JavaScript string built-ins the application's handlers rely on:
 * `String.prototype.trim` (blank-input guards) and `parseInt` (the age field),
 * over strings as sequences of Unicode scalar values (Dafny `char`s).
 */
module JsText {
  import opened Wrappers

  /** ECMAScript WhiteSpace and LineTerminator code points: what `trim` and `parseInt` skip. */
  predicate IsWhiteSpace(c: char) {
    c == '\U{0009}' || c == '\U{000B}' || c == '\U{000C}' || c == '\U{0020}' ||
    c == '\U{00A0}' || c == '\U{FEFF}' || c == '\U{1680}' ||
    ('\U{2000}' <= c <= '\U{200A}') || c == '\U{202F}' || c == '\U{205F}' || c == '\U{3000}' ||
    c == '\U{000A}' || c == '\U{000D}' || c == '\U{2028}' || c == '\U{2029}'
  }

  /** A string made only of white space (the empty string included). */
  predicate IsBlank(s: string) {
    forall i :: 0 <= i < |s| ==> IsWhiteSpace(s[i])
  }

  /** Drops the leading white space: the rest of `s` from its first non-blank character. */
  function TrimStart(s: string): (r: string)
    ensures |r| <= |s| && r == s[|s| - |r|..]
    ensures IsBlank(s[..|s| - |r|])
    ensures r == [] || !IsWhiteSpace(r[0])
  {
    if s != [] && IsWhiteSpace(s[0]) then
      var tail := s[1..];
      var r := TrimStart(tail);
      var k := |tail| - |r|;
      assert r == s[k + 1..] by { assert tail[k..] == s[k + 1..]; }
      assert IsBlank(s[..k + 1]) by {
        var blank := tail[..k];
        var front := s[..k + 1];
        assert IsBlank(blank);
        forall i | 0 <= i < |front| ensures IsWhiteSpace(front[i]) {
          if i > 0 { assert front[i] == blank[i - 1]; }
        }
      }
      assert |s| - |r| == k + 1;
      r
    else
      assert s[..0] == [];
      s
  }

  /** Drops the trailing white space: `s` up to and including its last non-blank character. */
  function TrimEnd(s: string): (r: string)
    ensures |r| <= |s| && r == s[..|r|]
    ensures IsBlank(s[|r|..])
    ensures r == [] || !IsWhiteSpace(r[|r| - 1])
  {
    if s != [] && IsWhiteSpace(s[|s| - 1]) then
      var init := s[..|s| - 1];
      var r := TrimEnd(init);
      assert r == s[..|r|] by { assert init[..|r|] == s[..|r|]; }
      assert IsBlank(s[|r|..]) by {
        assert s[|r|..] == init[|r|..] + [s[|s| - 1]];
      }
      r
    else
      assert s[|s|..] == [];
      s
  }

  /** `s.trim()`. */
  function Trim(s: string): string {
    TrimEnd(TrimStart(s))
  }

  /** `!s.trim()` holds exactly of the strings made only of white space. */
  lemma TrimEmptyIffBlank(s: string)
    ensures Trim(s) == [] <==> IsBlank(s)
  {
    var t := TrimStart(s);
    if Trim(s) == [] {
      assert IsBlank(t[0..]);
      assert t == [];
      assert s[..|s| - |t|] == s;
    } else {
      var r := Trim(s);
      assert t[|r| - 1] == r[|r| - 1];
      assert s[|s| - |t| + |r| - 1] == t[|r| - 1];
    }
  }

  predicate IsDigit(c: char) {
    '0' <= c <= '9'
  }

  predicate AllDigits(s: string) {
    forall i :: 0 <= i < |s| ==> IsDigit(s[i])
  }

  /** The longest run of decimal digits at the front of `s`. */
  function LeadingDigits(s: string): (r: string)
    ensures |r| <= |s| && r == s[..|r|]
    ensures AllDigits(r)
    ensures |r| < |s| ==> !IsDigit(s[|r|])
  {
    if s != [] && IsDigit(s[0]) then [s[0]] + LeadingDigits(s[1..]) else []
  }

  /** The number a run of decimal digits denotes, most significant digit first. */
  function DigitsValue(ds: string): nat
    requires AllDigits(ds)
  {
    if ds == [] then 0 else DigitsValue(ds[..|ds| - 1]) * 10 + (ds[|ds| - 1] - '0') as nat
  }

  /** The decimal numeral of `n`, without leading zeros. */
  function DecimalString(n: nat): (r: string)
    ensures r != [] && AllDigits(r)
    ensures |r| > 1 ==> r[0] != '0'
  {
    if n < 10 then ['0' + n as char]
    else DecimalString(n / 10) + ['0' + (n % 10) as char]
  }

  /**
   * `parseInt(s)` with no radix: skip leading white space, take an optional sign and the longest
   * run of decimal digits; `None` stands for `NaN` (no digit at all).
   */
  function ParseInt(s: string): (r: Option<int>)
    ensures r.None? <==> LeadingDigits(SignStripped(TrimStart(s))) == []
  {
    var t := TrimStart(s);
    var ds := LeadingDigits(SignStripped(t));
    if ds == [] then None else Some(Signed(t, DigitsValue(ds)))
  }

  /** The magnitude with the sign `t` starts with. */
  function Signed(t: string, magnitude: nat): int {
    if t != [] && t[0] == '-' then -(magnitude as int) else magnitude
  }

  /** `t` without the one leading `+` or `-` that `parseInt` accepts. */
  function SignStripped(t: string): (r: string)
    ensures r == t || (t != [] && (t[0] == '+' || t[0] == '-') && r == t[1..])
  {
    if t != [] && (t[0] == '+' || t[0] == '-') then t[1..] else t
  }

  /** `parseInt(s) || 0`: `NaN`, `0` and `-0` all fall back to 0. */
  function ParseIntOrZero(s: string): int {
    ParseInt(s).GetOr(0)
  }

  /** Reading back a numeral gives its number. */
  lemma {:induction false} DigitsValueOfDecimal(n: nat)
    ensures DigitsValue(DecimalString(n)) == n
  {
    if n >= 10 {
      var d := DecimalString(n);
      assert d[..|d| - 1] == DecimalString(n / 10);
      DigitsValueOfDecimal(n / 10);
    }
  }

  /** A digit run followed by a non-digit is exactly what `LeadingDigits` takes. */
  lemma {:induction false} LeadingDigitsOfRun(ds: string, rest: string)
    requires AllDigits(ds)
    requires rest == [] || !IsDigit(rest[0])
    ensures LeadingDigits(ds + rest) == ds
  {
    if ds != [] {
      assert (ds + rest)[1..] == ds[1..] + rest;
      LeadingDigitsOfRun(ds[1..], rest);
    }
  }

  /**
   * Any run of decimal digits `ds` of value `v` (leading zeros allowed), optionally signed
   * with `-` and padded with white space, followed by anything that does not start with a
   * digit, parses to `v` with that sign.
   */
  lemma ParseIntOfDigits(pad: string, negative: bool, ds: string, v: nat, rest: string)
    requires IsBlank(pad)
    requires ds != [] && AllDigits(ds) && DigitsValue(ds) == v
    requires rest == [] || !IsDigit(rest[0])
    ensures ParseInt(pad + ((if negative then "-" else "") + ds + rest))
            == Some(if negative then -(v as int) else v)
    ensures ParseIntOrZero(pad + ((if negative then "-" else "") + ds + rest))
            == (if negative then -(v as int) else v)
  {
    var t := (if negative then "-" else "") + ds + rest;
    SignStrippedOfNumeral(negative, ds, rest);
    TrimStartOfPadded(pad, t);
    LeadingDigitsOfRun(ds, rest);
    ParseIntOfTrimmed(pad + t, t, ds, negative, v);
  }

  /**
   * The age field round-trips: a numeral, optionally signed and padded with white space,
   * followed by anything that does not start with a digit, parses to its number.
   */
  lemma ParseIntOfNumeral(pad: string, negative: bool, n: nat, rest: string)
    requires IsBlank(pad)
    requires rest == [] || !IsDigit(rest[0])
    ensures ParseInt(pad + ((if negative then "-" else "") + DecimalString(n) + rest))
            == Some(if negative then -(n as int) else n)
    ensures ParseIntOrZero(pad + ((if negative then "-" else "") + DecimalString(n) + rest))
            == (if negative then -(n as int) else n)
  {
    DigitsValueOfDecimal(n);
    ParseIntOfDigits(pad, negative, DecimalString(n), n, rest);
  }

  /** Leading zeros do not change a run's value: `"007"` reads as 7. */
  lemma {:induction false} DigitsValueLeadingZeros(zeros: nat, ds: string)
    requires AllDigits(ds)
    ensures AllDigits(seq(zeros, _ => '0') + ds)
    ensures DigitsValue(seq(zeros, _ => '0') + ds) == DigitsValue(ds)
  {
    var z := seq(zeros, _ => '0');
    if ds == [] {
      assert z + ds == z;
      if zeros > 0 {
        assert z[..zeros - 1] == seq(zeros - 1, _ => '0');
        DigitsValueLeadingZeros(zeros - 1, []);
        assert seq(zeros - 1, _ => '0') + [] == seq(zeros - 1, _ => '0');
      }
    } else {
      var init := ds[..|ds| - 1];
      DigitsValueLeadingZeros(zeros, init);
      assert (z + ds)[..|z + ds| - 1] == z + init;
    }
  }

  /** Once the white space is gone, `parseInt` reads the digits after the sign. */
  lemma ParseIntOfTrimmed(s: string, t: string, d: string, negative: bool, n: nat)
    requires TrimStart(s) == t && d != [] && AllDigits(d)
    requires LeadingDigits(SignStripped(t)) == d && DigitsValue(d) == n
    requires t != [] && (t[0] == '-' <==> negative)
    ensures ParseInt(s) == Some(if negative then -(n as int) else n)
    ensures ParseIntOrZero(s) == (if negative then -(n as int) else n)
  {
    assert Signed(t, n) == (if negative then -(n as int) else n);
    assert ParseInt(s) == Some(Signed(t, DigitsValue(d)));
  }

  /** After an optional minus sign, `parseInt` sees the numeral itself. */
  lemma SignStrippedOfNumeral(negative: bool, d: string, rest: string)
    requires d != [] && AllDigits(d)
    ensures var t := (if negative then "-" else "") + d + rest;
            SignStripped(t) == d + rest && t != [] && (t[0] == '-' <==> negative)
  {
    var t := (if negative then "-" else "") + d + rest;
    if negative {
      assert t[1..] == d + rest;
    } else {
      assert t[0] == d[0];
    }
  }

  /** Leading white space before a non-blank start is exactly what `TrimStart` drops. */
  lemma {:induction false} TrimStartOfPadded(pad: string, t: string)
    requires IsBlank(pad)
    requires t == [] || !IsWhiteSpace(t[0])
    ensures TrimStart(pad + t) == t
  {
    if pad != [] {
      assert (pad + t)[1..] == pad[1..] + t;
      TrimStartOfPadded(pad[1..], t);
    }
  }

  /** Text with no digit after the white space and sign is `NaN`, and the age falls back to 0. */
  lemma ParseIntWithoutDigits(s: string)
    requires var u := SignStripped(TrimStart(s)); u == [] || !IsDigit(u[0])
    ensures ParseInt(s).None? && ParseIntOrZero(s) == 0
  {
  }
}
