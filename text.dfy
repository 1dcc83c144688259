/** The JavaScript string operations the core relies on: `String.prototype.trim`
    (blank-input checks), `endsWith` and `includes` (route matching), the trailing
    `\d+` of a URL, `split("/").pop()` and `parseInt(…, 10)` on a digit string. */
module Text {

  /** ECMAScript WhiteSpace and LineTerminator code points: the characters `trim` strips. */
  predicate IsJsWhitespace(c: char) {
    c == '\t' || c == '\n' || c == '\U{000B}' || c == '\U{000C}' || c == '\r' ||
    c == ' ' || c == '\U{00A0}' || c == '\U{1680}' || ('\U{2000}' <= c <= '\U{200A}') ||
    c == '\U{2028}' || c == '\U{2029}' || c == '\U{202F}' || c == '\U{205F}' ||
    c == '\U{3000}' || c == '\U{FEFF}'
  }

  /** `s` without its leading whitespace. */
  function TrimStart(s: string): (r: string)
    ensures |r| <= |s| && r == s[|s| - |r|..]
    ensures forall i :: 0 <= i < |s| - |r| ==> IsJsWhitespace(s[i])
    ensures r == [] || !IsJsWhitespace(r[0])
  {
    if s == [] || !IsJsWhitespace(s[0]) then s else TrimStart(s[1..])
  }

  /** `s` without its trailing whitespace. */
  function TrimEnd(s: string): (r: string)
    ensures |r| <= |s| && r == s[..|r|]
    ensures forall i :: |r| <= i < |s| ==> IsJsWhitespace(s[i])
    ensures r == [] || !IsJsWhitespace(r[|r| - 1])
  {
    if s == [] || !IsJsWhitespace(s[|s| - 1]) then s else TrimEnd(s[..|s| - 1])
  }

  /** `s.trim()`. */
  function Trim(s: string): (t: string) {
    TrimEnd(TrimStart(s))
  }

  /** The form guards `x.trim() === ""`. */
  predicate IsBlank(s: string) {
    Trim(s) == ""
  }

  /** A string is blank exactly when every one of its characters is whitespace. */
  lemma {:induction false} BlankIffAllWhitespace(s: string)
    ensures IsBlank(s) <==> forall i :: 0 <= i < |s| ==> IsJsWhitespace(s[i])
  {
    var t := TrimStart(s);
    if exists k :: 0 <= k < |s| && !IsJsWhitespace(s[k]) {
      var k :| 0 <= k < |s| && !IsJsWhitespace(s[k]);
      assert t[k - (|s| - |t|)] == s[k];
    }
  }

  /** `s.endsWith(suffix)`. */
  predicate EndsWith(s: string, suffix: string) {
    |suffix| <= |s| && s[|s| - |suffix|..] == suffix
  }

  /** `s.includes(sub)`. */
  predicate Includes(s: string, sub: string)
    decreases |s|
  {
    |sub| <= |s| && (s[..|sub|] == sub || Includes(s[1..], sub))
  }

  lemma {:induction false} IncludesAt(s: string, sub: string, k: nat)
    requires k + |sub| <= |s| && s[k..k + |sub|] == sub
    ensures Includes(s, sub)
  {
    if k > 0 {
      assert s[1..][k - 1..k - 1 + |sub|] == s[k..k + |sub|];
      IncludesAt(s[1..], sub, k - 1);
    }
  }

  predicate IsDigit(c: char) {
    '0' <= c <= '9'
  }

  predicate AllDigits(s: string) {
    forall i :: 0 <= i < |s| ==> IsDigit(s[i])
  }

  /** The longest run of decimal digits at the end of `s`. */
  function TrailingDigits(s: string): (d: string)
    ensures |d| <= |s| && d == s[|s| - |d|..]
    ensures AllDigits(d)
    ensures |d| < |s| ==> !IsDigit(s[|s| - |d| - 1])
  {
    if s == [] || !IsDigit(s[|s| - 1]) then []
    else TrailingDigits(s[..|s| - 1]) + [s[|s| - 1]]
  }

  /** The text after the last `/`: `s.split("/").pop()`. */
  function LastSegment(s: string): (seg: string)
    ensures |seg| <= |s| && seg == s[|s| - |seg|..]
    ensures forall i :: 0 <= i < |seg| ==> seg[i] != '/'
    ensures |seg| < |s| ==> s[|s| - |seg| - 1] == '/'
  {
    if s == [] || s[|s| - 1] == '/' then []
    else LastSegment(s[..|s| - 1]) + [s[|s| - 1]]
  }

  /** `parseInt(ds, 10)` for a non-empty string of decimal digits. */
  function DigitsValue(ds: string): (v: nat)
    requires AllDigits(ds)
  {
    if ds == [] then 0
    else 10 * DigitsValue(ds[..|ds| - 1]) + (ds[|ds| - 1] as int - '0' as int)
  }

  /** A leading zero does not change the value `parseInt` reads. */
  lemma {:induction false} LeadingZeroValue(ds: string)
    requires AllDigits(ds)
    ensures AllDigits("0" + ds) && DigitsValue("0" + ds) == DigitsValue(ds)
  {
    if ds != [] {
      assert ("0" + ds)[..|"0" + ds| - 1] == "0" + ds[..|ds| - 1];
      LeadingZeroValue(ds[..|ds| - 1]);
    }
  }

  function DigitChar(d: nat): (c: char)
    requires d < 10
    ensures IsDigit(c) && c as int - '0' as int == d
  {
    ('0' as int + d) as char
  }

  /** The decimal notation of `n`, as a template literal `${n}` writes it. */
  function DecimalString(n: nat): (ds: string)
    ensures |ds| > 0 && AllDigits(ds)
  {
    if n < 10 then [DigitChar(n)] else DecimalString(n / 10) + [DigitChar(n % 10)]
  }

  /** Parsing the decimal notation of a number gives the number back. */
  lemma {:induction false} DigitsValueOfDecimalString(n: nat)
    ensures DigitsValue(DecimalString(n)) == n
  {
    var ds := DecimalString(n);
    if n >= 10 {
      DigitsValueOfDecimalString(n / 10);
      assert ds[..|ds| - 1] == DecimalString(n / 10);
    } else {
      assert ds[..|ds| - 1] == [];
    }
  }
}
