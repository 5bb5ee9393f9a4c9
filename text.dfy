/**
 * Character-level helpers shared by the client model: the whitespace class used by
 * `String.prototype.trim` and by `\s` in regular expressions, decimal rendering of
 * naturals (template literals such as `vor ${days}d`) and `parseInt` (no radix) on decimal text.
 */
module Text {

  /** JavaScript's WhiteSpace and LineTerminator code points (ECMA-262, sections 12.2 and 12.3). */
  predicate IsJsWhitespace(c: char) {
    c == ' ' || c == '\t' || c == '\n' || c == '\r' || c == '\U{000B}' || c == '\U{000C}'
    || c == '\U{00A0}' || c == '\U{1680}' || ('\U{2000}' <= c <= '\U{200A}')
    || c == '\U{2028}' || c == '\U{2029}' || c == '\U{202F}' || c == '\U{205F}'
    || c == '\U{3000}' || c == '\U{FEFF}'
  }

  /** `s` with its leading whitespace removed. */
  function TrimStart(s: string): (r: string)
    ensures |r| <= |s| && r == s[|s| - |r|..]
    ensures r == [] || !IsJsWhitespace(r[0])
    ensures forall i :: 0 <= i < |s| - |r| ==> IsJsWhitespace(s[i])
  {
    if s == [] then s
    else if IsJsWhitespace(s[0]) then TrimStart(s[1..])
    else s
  }

  /** `s` with its trailing whitespace removed. */
  function TrimEnd(s: string): (r: string)
    ensures |r| <= |s| && r == s[..|r|]
    ensures r == [] || !IsJsWhitespace(r[|r| - 1])
    ensures forall i :: |r| <= i < |s| ==> IsJsWhitespace(s[i])
  {
    if s == [] then s
    else if IsJsWhitespace(s[|s| - 1]) then TrimEnd(s[..|s| - 1])
    else s
  }

  /** `String.prototype.trim`. */
  function Trim(s: string): string {
    TrimEnd(TrimStart(s))
  }

  /** `s.trim() === ""` holds exactly when every character of `s` is whitespace. */
  lemma {:induction false} TrimEmptyIffBlank(s: string)
    ensures Trim(s) == [] <==> forall i :: 0 <= i < |s| ==> IsJsWhitespace(s[i])
  {
    var t := TrimStart(s);
    if Trim(s) == [] {
      forall i | 0 <= i < |s| ensures IsJsWhitespace(s[i]) {
        if i >= |s| - |t| {
          assert s[i] == t[i - (|s| - |t|)];
        }
      }
    } else {
      var r := Trim(s);
      assert r == t[..|r|];
      assert t[0] == r[0];
      assert s[|s| - |t|] == t[0];
    }
  }

  predicate IsDigit(c: char) {
    '0' <= c <= '9'
  }

  function DigitValue(c: char): (v: nat)
    requires IsDigit(c)
    ensures v < 10
  {
    (c as int) - ('0' as int)
  }

  function DigitChar(v: nat): (c: char)
    requires v < 10
    ensures IsDigit(c) && DigitValue(c) == v
  {
    ('0' as int + v) as char
  }

  /** The decimal rendering of `n`, without leading zeros (JavaScript's `String(n)` on naturals). */
  function DecimalString(n: nat): (r: string)
    ensures |r| > 0 && forall i :: 0 <= i < |r| ==> IsDigit(r[i])
    ensures n >= 10 ==> r[0] != '0'
    decreases n
  {
    if n < 10 then [DigitChar(n)] else DecimalString(n / 10) + [DigitChar(n % 10)]
  }

  /** The value of a non-empty run of decimal digits. */
  function DigitsValue(s: string): nat
    requires forall i :: 0 <= i < |s| ==> IsDigit(s[i])
  {
    if s == [] then 0 else 10 * DigitsValue(s[..|s| - 1]) + DigitValue(s[|s| - 1])
  }

  /** A JavaScript integer-or-NaN, as returned by `parseInt`. */
  datatype JsInt = Int(value: int) | NaN

  /** The length of the longest prefix of `s` made of decimal digits. */
  function DigitPrefixLength(s: string): (k: nat)
    ensures k <= |s|
    ensures forall i :: 0 <= i < k ==> IsDigit(s[i])
    ensures k < |s| ==> !IsDigit(s[k])
  {
    if s == [] || !IsDigit(s[0]) then 0 else 1 + DigitPrefixLength(s[1..])
  }

  /** One optional sign is skipped. */
  function SkipSign(t: string): string {
    if t != [] && (t[0] == '+' || t[0] == '-') then t[1..] else t
  }

  /** The value of the longest run of leading digits; NaN when there is none. */
  function ParseDigits(u: string): (r: JsInt)
    ensures r.NaN? <==> u == [] || !IsDigit(u[0])
    ensures r.Int? ==> r.value >= 0
  {
    var k := DigitPrefixLength(u);
    if k == 0 then NaN else Int(DigitsValue(u[..k]))
  }

  /**
   * `parseInt(s)` for decimal text: leading whitespace is skipped, one optional sign is
   * read, then the longest run of digits; with no digit the result is NaN.
   */
  function ParseInt(s: string): (r: JsInt)
    ensures r.NaN? <==> (var u := SkipSign(TrimStart(s)); u == [] || !IsDigit(u[0]))
  {
    var t := TrimStart(s);
    var d := ParseDigits(SkipSign(t));
    if d.Int? && t != [] && t[0] == '-' then Int(-d.value) else d
  }

  lemma {:induction false} DigitsValueOfDecimal(n: nat)
    ensures DigitsValue(DecimalString(n)) == n
    decreases n
  {
    var r := DecimalString(n);
    if n >= 10 {
      DigitsValueOfDecimal(n / 10);
      assert r[..|r| - 1] == DecimalString(n / 10);
    }
  }

  /** Rendering a natural and parsing it back with `parseInt` gives the natural. */
  lemma ParseIntOfDecimal(n: nat)
    ensures ParseInt(DecimalString(n)) == Int(n)
  {
    ParseIntOfDigits(DecimalString(n));
    DigitsValueOfDecimal(n);
  }

  /** A non-empty run of digits parses to its value: no whitespace, no sign, all digits read. */
  lemma ParseIntOfDigits(r: string)
    requires r != [] && forall i :: 0 <= i < |r| ==> IsDigit(r[i])
    ensures ParseInt(r) == Int(DigitsValue(r))
  {
    var c := r[0];
    assert IsDigit(c);
    DigitIsNoSpace(c);
    ParseIntUnsigned(r);
    ParseDigitsOfDigits(r);
  }

  lemma DigitIsNoSpace(c: char)
    requires IsDigit(c)
    ensures !IsJsWhitespace(c) && c != '+' && c != '-'
  {
  }

  /** Text with no leading whitespace and no sign is parsed from its first character. */
  lemma ParseIntUnsigned(t: string)
    requires t != [] && !IsJsWhitespace(t[0]) && t[0] != '+' && t[0] != '-'
    ensures ParseInt(t) == ParseDigits(t)
  {
    assert TrimStart(t) == t;
    assert SkipSign(t) == t;
  }

  lemma ParseDigitsOfDigits(r: string)
    requires forall i :: 0 <= i < |r| ==> IsDigit(r[i])
    ensures ParseDigits(r) == if r == [] then NaN else Int(DigitsValue(r))
  {
    DigitPrefixOfDigits(r);
    assert r[..|r|] == r;
  }

  lemma {:induction false} DigitPrefixOfDigits(s: string)
    requires forall i :: 0 <= i < |s| ==> IsDigit(s[i])
    ensures DigitPrefixLength(s) == |s|
  {
    if s != [] {
      DigitPrefixOfDigits(s[1..]);
    }
  }
}
