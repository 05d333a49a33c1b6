/**
 * The two conversions between clock values and text that the dashboard
 * uses for the stored-stats timestamp: `Date.now().toString()` when it is
 * written, and `parseInt(text)` when it is read back.
 */
module NumberText {
  import opened JsValues

  /** The character of a decimal digit. */
  function DigitChar(d: nat): (c: char)
    requires d < 10
    ensures '0' <= c <= '9'
  {
    "0123456789"[d]
  }

  /** `n.toString()` for a non-negative integer: decimal, no leading zeros. */
  function DecimalText(n: nat): (r: string)
    ensures |r| > 0
    ensures forall i :: 0 <= i < |r| ==> '0' <= r[i] <= '9'
    decreases n
  {
    if n < 10 then [DigitChar(n)] else DecimalText(n / 10) + [DigitChar(n % 10)]
  }

  /** The value of a character as a digit in radix up to 36, when it is one. */
  function DigitValue(c: char): Option<nat> {
    if '0' <= c <= '9' then Some(c as nat - '0' as nat)
    else if 'a' <= c <= 'z' then Some(c as nat - 'a' as nat + 10)
    else if 'A' <= c <= 'Z' then Some(c as nat - 'A' as nat + 10)
    else None
  }

  predicate IsDigit(c: char, radix: nat) {
    DigitValue(c).Some? && DigitValue(c).value < radix
  }

  /** The white space and line terminators that `parseInt` skips at the start. */
  predicate IsJsSpace(c: char) {
    c == '\t' || c == '\n' || c == '\U{000B}' || c == '\U{000C}' || c == '\r' || c == ' '
    || c == '\U{00A0}' || c == '\U{1680}' || ('\U{2000}' <= c <= '\U{200A}')
    || c == '\U{2028}' || c == '\U{2029}' || c == '\U{202F}' || c == '\U{205F}'
    || c == '\U{3000}' || c == '\U{FEFF}'
  }

  function TrimStart(s: string): (r: string)
    ensures |r| <= |s| && r == s[|s| - |r|..]
    ensures |r| > 0 ==> !IsJsSpace(r[0])
  {
    if |s| > 0 && IsJsSpace(s[0]) then TrimStart(s[1..]) else s
  }

  /** Length of the longest prefix of `s` made of digits of the radix. */
  function DigitRun(s: string, radix: nat): (n: nat)
    ensures n <= |s|
    ensures forall i :: 0 <= i < n ==> IsDigit(s[i], radix)
    ensures n < |s| ==> !IsDigit(s[n], radix)
  {
    if |s| == 0 || !IsDigit(s[0], radix) then 0 else 1 + DigitRun(s[1..], radix)
  }

  /** The value of a string of digits, most significant first. */
  function DigitsValue(ds: string, radix: nat): int
    requires forall i :: 0 <= i < |ds| ==> IsDigit(ds[i], radix)
  {
    if |ds| == 0 then 0
    else
      var last := ds[|ds| - 1];
      assert IsDigit(last, radix);
      DigitsValue(ds[..|ds| - 1], radix) * radix + DigitValue(last).value
  }

  /** The value of the longest run of digits at the start of `w`, or NaN
      (None) when `w` does not start with a digit. */
  function LeadingDigitsValue(w: string, radix: nat): Option<int> {
    var n := DigitRun(w, radix);
    if n == 0 then None
    else
      var ds := w[..n];
      assert forall i :: 0 <= i < |ds| ==> IsDigit(ds[i], radix);
      Some(DigitsValue(ds, radix))
  }

  /** `u` with a leading `0x`/`0X` removed, and the radix that prefix selects. */
  function RadixOf(u: string): (string, nat) {
    if |u| >= 2 && u[0] == '0' && (u[1] == 'x' || u[1] == 'X') then (u[2..], 16) else (u, 10)
  }

  /** The magnitude `parseInt` reads once white space and sign are gone:
      the leading digits in the radix a `0x`/`0X` prefix selects. */
  function UnsignedValue(u: string): Option<int> {
    var (w, radix) := RadixOf(u);
    LeadingDigitsValue(w, radix)
  }

  /** JavaScript `parseInt(s)` with no radix argument: skip leading white
      space, take an optional sign, switch to radix 16 after `0x`/`0X`, and
      read the longest run of digits; no digit at all gives NaN (None). */
  function ParseInt(s: string): Option<int> {
    var t := TrimStart(s);
    var negative := |t| > 0 && t[0] == '-';
    var u := if |t| > 0 && (t[0] == '-' || t[0] == '+') then t[1..] else t;
    match UnsignedValue(u)
    case None => None
    case Some(magnitude) => Some(if negative then -magnitude else magnitude)
  }

  lemma {:induction false} DecimalTextValue(n: nat)
    ensures forall i :: 0 <= i < |DecimalText(n)| ==> IsDigit(DecimalText(n)[i], 10)
    ensures DigitsValue(DecimalText(n), 10) == n
    decreases n
  {
    var s := DecimalText(n);
    if n >= 10 {
      DecimalTextValue(n / 10);
      assert s[..|s| - 1] == DecimalText(n / 10);
    }
  }

  lemma {:induction false} DigitRunOfDigits(s: string, radix: nat)
    requires forall i :: 0 <= i < |s| ==> IsDigit(s[i], radix)
    ensures DigitRun(s, radix) == |s|
  {
  }

  /** A run of decimal digits with no prefix is read whole, in radix 10. */
  lemma UnsignedValueOfDigits(s: string)
    requires |s| > 0
    requires forall i :: 0 <= i < |s| ==> IsDigit(s[i], 10)
    ensures UnsignedValue(s) == Some(DigitsValue(s, 10))
  {
    assert RadixOf(s) == (s, 10) by { assert IsDigit(s[1 % |s|], 10); }
    DigitRunOfDigits(s, 10);
    assert s[..|s|] == s;
  }

  /** A non-empty run of decimal digits parses to its decimal value. */
  lemma ParseIntOfDigits(s: string)
    requires |s| > 0
    requires forall i :: 0 <= i < |s| ==> IsDigit(s[i], 10)
    ensures ParseInt(s) == Some(DigitsValue(s, 10))
  {
    assert '0' <= s[0] <= '9';
    TrimStartOfDigit(s);
    UnsignedValueOfDigits(s);
    var t := TrimStart(s);
    assert !(|t| > 0 && (t[0] == '-' || t[0] == '+'));
  }

  /** Text starting with a digit has no white space to skip. */
  lemma TrimStartOfDigit(s: string)
    requires |s| > 0 && '0' <= s[0] <= '9'
    ensures TrimStart(s) == s
  {
    assert !IsJsSpace(s[0]);
  }

  /** Reading back what `Date.now().toString()` wrote gives the same instant. */
  lemma ParseIntDecimalText(n: nat)
    ensures ParseInt(DecimalText(n)) == Some(n)
  {
    DecimalTextValue(n);
    ParseIntOfDigits(DecimalText(n));
  }

  /** Text that, after white space and an optional sign, does not start
      with a digit parses to NaN, so a damaged timestamp never counts as recent. */
  lemma ParseIntNoDigits(s: string)
    requires var t := TrimStart(s);
      var u := if |t| > 0 && (t[0] == '-' || t[0] == '+') then t[1..] else t;
      |u| == 0 || !IsDigit(u[0], 10)
    ensures ParseInt(s) == None
  {
    var t := TrimStart(s);
    var u := if |t| > 0 && (t[0] == '-' || t[0] == '+') then t[1..] else t;
    UnsignedValueNoDigit(u);
  }

  /** With no decimal digit first, no digit run is read (a leading `0`
      would be a digit, so no `0x` prefix is stripped either). */
  lemma UnsignedValueNoDigit(u: string)
    requires |u| == 0 || !IsDigit(u[0], 10)
    ensures UnsignedValue(u) == None
  {
    assert RadixOf(u) == (u, 10) by { if |u| >= 2 { assert u[0] != '0'; } }
    assert DigitRun(u, 10) == 0;
  }
}
