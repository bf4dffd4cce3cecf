/**
 * `Number(s)` for a string `s` (the StringToNumber operation of ECMAScript):
 * surrounding white space is ignored, an empty or blank string is 0, and the
 * rest must be a decimal literal (optional sign, digits with an optional
 * fraction and exponent, or `Infinity`) or a `0x`/`0o`/`0b` integer;
 * anything else is NaN. Also the decimal printing of a natural number, which
 * the error messages use for HTTP status codes.
 */
module StringToNumber {
  import opened Wrappers
  import opened JsNumber

  /** White space and line terminators, which `Number` and `trim` strip. */
  predicate IsWhiteSpace(c: char) {
    || c == '\t' || c == '\n' || c == '\U{000B}' || c == '\U{000C}' || c == '\r'
    || c == ' ' || c == '\U{00A0}' || c == '\U{1680}'
    || ('\U{2000}' <= c <= '\U{200A}')
    || c == '\U{2028}' || c == '\U{2029}' || c == '\U{202F}' || c == '\U{205F}'
    || c == '\U{3000}' || c == '\U{FEFF}'
  }

  function TrimStart(s: string): (t: string)
    ensures |t| <= |s| && t == s[|s| - |t|..]
    ensures t == [] || !IsWhiteSpace(t[0])
  {
    if s != [] && IsWhiteSpace(s[0]) then TrimStart(s[1..]) else s
  }

  function TrimEnd(s: string): (t: string)
    ensures |t| <= |s| && t == s[..|t|]
    ensures t == [] || !IsWhiteSpace(t[|t| - 1])
  {
    if s != [] && IsWhiteSpace(s[|s| - 1]) then TrimEnd(s[..|s| - 1]) else s
  }

  function Trim(s: string): string {
    TrimEnd(TrimStart(s))
  }

  predicate IsDigit(c: char) {
    '0' <= c <= '9'
  }

  predicate AllDigits(s: string) {
    forall i :: 0 <= i < |s| ==> IsDigit(s[i])
  }

  /** The value of a digit in bases up to 16, or 16 for a character that is none. */
  function DigitValue(c: char): nat {
    if '0' <= c <= '9' then c as int - '0' as int
    else if 'a' <= c <= 'f' then c as int - 'a' as int + 10
    else if 'A' <= c <= 'F' then c as int - 'A' as int + 10
    else 16
  }

  predicate AllDigitsIn(s: string, radix: nat) {
    forall i :: 0 <= i < |s| ==> DigitValue(s[i]) < radix
  }

  /** The natural number a string of digits denotes in base `radix`. */
  function DigitsValue(s: string, radix: nat): nat
    requires AllDigitsIn(s, radix)
  {
    if s == [] then 0
    else DigitsValue(s[..|s| - 1], radix) * radix + DigitValue(s[|s| - 1])
  }

  /** The position of the first `c` in `s`, or `|s|` when there is none. */
  function IndexOf(s: string, c: char): (i: nat)
    ensures i <= |s|
    ensures forall j :: 0 <= j < i ==> s[j] != c
    ensures i < |s| ==> s[i] == c
  {
    if s == [] then 0
    else if s[0] == c then 0
    else 1 + IndexOf(s[1..], c)
  }

  /** The position of the first exponent marker `e` or `E`, or `|s|`. */
  function IndexOfExponent(s: string): (i: nat)
    ensures i <= |s|
    ensures forall j :: 0 <= j < i ==> s[j] != 'e' && s[j] != 'E'
  {
    var i := IndexOf(s, 'e');
    var j := IndexOf(s, 'E');
    if i <= j then i else j
  }

  /** `10^e` for a possibly negative exponent `e`. */
  function Scale(e: int): (r: real)
    ensures r > 0.0
  {
    if e >= 0 then Pow10(e) as real else 1.0 / Pow10(-e) as real
  }

  /** A SignedInteger of the grammar: an optional sign and at least one digit. */
  predicate IsSignedInteger(s: string) {
    if s != [] && (s[0] == '+' || s[0] == '-') then |s| > 1 && AllDigits(s[1..])
    else s != [] && AllDigits(s)
  }

  lemma AllDigitsInTen(s: string)
    requires AllDigits(s)
    ensures AllDigitsIn(s, 10)
  {
  }

  function SignedIntegerValue(s: string): int
    requires IsSignedInteger(s)
  {
    if s[0] == '-' || s[0] == '+' then
      AllDigitsInTen(s[1..]);
      var d: int := DigitsValue(s[1..], 10);
      if s[0] == '-' then -d else d
    else
      AllDigitsInTen(s);
      DigitsValue(s, 10)
  }

  /** A mantissa: digits with at most one `.` and at least one digit. */
  function DecimalMantissa(m: string): Option<real> {
    var dot := IndexOf(m, '.');
    var whole := m[..dot];
    var fraction := if dot < |m| then m[dot + 1..] else [];
    if AllDigits(whole) && AllDigits(fraction) && (whole != [] || fraction != []) then
      AllDigitsInTen(whole);
      AllDigitsInTen(fraction);
      Some(DigitsValue(whole, 10) as real + DigitsValue(fraction, 10) as real / Pow10(|fraction|) as real)
    else None
  }

  /** The exponent after position `e` of `s` (0 when `e` is the end), if well formed. */
  function DecimalExponent(s: string, e: nat): Option<int>
    requires e <= |s|
  {
    if e == |s| then Some(0)
    else if IsSignedInteger(s[e + 1..]) then Some(SignedIntegerValue(s[e + 1..]))
    else None
  }

  /** An unsigned decimal literal: `Infinity`, or a mantissa and an optional exponent. */
  function UnsignedDecimal(s: string): Num {
    if s == "Infinity" then Infinity(false)
    else
      var e := IndexOfExponent(s);
      var mantissa := DecimalMantissa(s[..e]);
      var exponent := DecimalExponent(s, e);
      if mantissa.Some? && exponent.Some? then Finite(mantissa.value * Scale(exponent.value)) else NaN
  }

  function SignedDecimal(s: string): Num {
    if s != [] && s[0] == '+' then UnsignedDecimal(s[1..])
    else if s != [] && s[0] == '-' then Neg(UnsignedDecimal(s[1..]))
    else UnsignedDecimal(s)
  }

  /** The base named by a `0x`, `0o` or `0b` prefix, or 0 for none. */
  function PrefixRadix(s: string): nat {
    if |s| < 2 || s[0] != '0' then 0
    else if s[1] == 'x' || s[1] == 'X' then 16
    else if s[1] == 'o' || s[1] == 'O' then 8
    else if s[1] == 'b' || s[1] == 'B' then 2
    else 0
  }

  /** `Number(s)`. */
  function ToNumber(s: string): (r: Num)
    ensures Trim(s) == [] ==> r == Finite(0.0)
    ensures PrefixRadix(Trim(s)) != 0 ==> r == NaN || (r.Finite? && r.v >= 0.0 && r.v.Floor as real == r.v)
  {
    var t := Trim(s);
    var radix := PrefixRadix(t);
    if t == [] then Finite(0.0)
    else if radix != 0 then
      if |t| > 2 && AllDigitsIn(t[2..], radix) then Finite(DigitsValue(t[2..], radix) as real)
      else NaN
    else SignedDecimal(t)
  }

  function DigitChar(d: nat): (c: char)
    requires d < 10
    ensures IsDigit(c) && DigitValue(c) == d
  {
    ('0' as int + d) as char
  }

  /** The decimal digits of `n`, with no leading zero (JavaScript's `${n}`). */
  function NatToString(n: nat): (s: string)
    ensures s != [] && AllDigits(s)
    ensures |s| > 1 ==> s[0] != '0'
  {
    if n < 10 then [DigitChar(n)] else NatToString(n / 10) + [DigitChar(n % 10)]
  }

  lemma {:induction false} NatToStringValue(n: nat)
    ensures AllDigitsIn(NatToString(n), 10)
    ensures DigitsValue(NatToString(n), 10) == n
  {
    var s := NatToString(n);
    AllDigitsInTen(s);
    if n >= 10 {
      NatToStringValue(n / 10);
      assert s[..|s| - 1] == NatToString(n / 10);
    }
  }

  lemma IndexOfAbsent(s: string, c: char)
    requires forall j :: 0 <= j < |s| ==> s[j] != c
    ensures IndexOf(s, c) == |s|
  {
  }

  /** A string of digits trims to itself. */
  lemma TrimDigits(s: string)
    requires AllDigits(s)
    ensures Trim(s) == s
  {
    assert s == [] || !IsWhiteSpace(s[0]);
    assert TrimStart(s) == s;
    assert s == [] || !IsWhiteSpace(s[|s| - 1]);
  }

  lemma DigitsMantissa(s: string)
    requires s != [] && AllDigits(s)
    ensures AllDigitsIn(s, 10)
    ensures DecimalMantissa(s) == Some(DigitsValue(s, 10) as real)
  {
    AllDigitsInTen(s);
    IndexOfAbsent(s, '.');
    assert s[..|s|] == s;
  }

  /** A plain run of digits reads as the integer it spells. */
  lemma UnsignedDigits(s: string)
    requires s != [] && AllDigits(s)
    ensures AllDigitsIn(s, 10)
    ensures UnsignedDecimal(s) == Finite(DigitsValue(s, 10) as real)
  {
    assert s[0] != 'I';
    IndexOfAbsent(s, 'e');
    IndexOfAbsent(s, 'E');
    assert IndexOfExponent(s) == |s|;
    assert s[..|s|] == s;
    DigitsMantissa(s);
  }

  /** Reading back the decimal string of a natural number gives that number. */
  lemma NatToStringRoundTrip(n: nat)
    ensures ToNumber(NatToString(n)) == Finite(n as real)
  {
    var s := NatToString(n);
    TrimDigits(s);
    NatToStringValue(n);
    assert PrefixRadix(s) == 0;
    assert SignedDecimal(s) == UnsignedDecimal(s);
    UnsignedDigits(s);
  }

  lemma TrimStartBlank(s: string)
    requires forall i :: 0 <= i < |s| ==> IsWhiteSpace(s[i])
    ensures TrimStart(s) == []
  {
  }

  /** A blank string reads as 0, not NaN. */
  lemma BlankIsZero(s: string)
    requires forall i :: 0 <= i < |s| ==> IsWhiteSpace(s[i])
    ensures ToNumber(s) == Finite(0.0)
  {
    TrimStartBlank(s);
  }

  /**
   * Text whose first non-blank character cannot start a number (a letter
   * other than the `I` of `Infinity`, say) reads as NaN.
   */
  lemma NonNumericIsNaN(s: string)
    requires Trim(s) != []
    requires var c := Trim(s)[0];
      !IsDigit(c) && c != '+' && c != '-' && c != '.' && c != 'I'
    ensures ToNumber(s) == NaN
  {
    var t := Trim(s);
    assert PrefixRadix(t) == 0;
    assert SignedDecimal(t) == UnsignedDecimal(t);
    assert t != "Infinity";
    var e := IndexOfExponent(t);
    var mantissa := t[..e];
    var dot := IndexOf(mantissa, '.');
    if e > 0 {
      assert mantissa[0] == t[0];
      assert dot > 0;
      assert mantissa[..dot][0] == t[0];
      assert !AllDigits(mantissa[..dot]);
    } else {
      assert mantissa == [];
    }
    assert DecimalMantissa(mantissa).None?;
  }
}
