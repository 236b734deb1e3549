/**
 * The few pieces of JavaScript value semantics the server actions rely on:
 * `Number(x)` coercion of strings, `String(x)` of a possibly missing form
 * value, the UTF-16 length that `string.length` reports, and the
 * `^\d{4}-\d{2}-\d{2}$` date shape together with the ordering `new Date`
 * gives such strings.
 */
module Js {
  import opened Wrappers

  /**
   * A JavaScript number as far as these checks can tell it apart: NaN or a
   * finite value, held as an exact real (no rounding to a double).
   */
  datatype Number = NaN | Finite(value: real)

  /** `Number.isInteger(n)` */
  predicate IsInteger(n: Number) {
    n.Finite? && n.value == n.value.Floor as real
  }

  /** `String(v)` of a form entry that may be missing (`undefined`). */
  function StringOf(v: Option<string>): string
  {
    match v
    case Some(s) => s
    case None => "undefined"
  }

  /** White space that `Number(string)` strips from both ends (the common code points). */
  predicate IsSpace(c: char) {
    c == ' ' || c == '\t' || c == '\n' || c == '\r' || c == '\U{000B}' || c == '\U{000C}'
    || c == '\U{00A0}' || c == '\U{FEFF}'
  }

  function TrimStart(s: string): string {
    if s != [] && IsSpace(s[0]) then TrimStart(s[1..]) else s
  }

  function TrimEnd(s: string): string {
    if s != [] && IsSpace(s[|s| - 1]) then TrimEnd(s[..|s| - 1]) else s
  }

  function Trim(s: string): string {
    TrimEnd(TrimStart(s))
  }

  predicate IsDigit(c: char) {
    '0' <= c <= '9'
  }

  predicate AllDigits(s: string) {
    forall i :: 0 <= i < |s| ==> IsDigit(s[i])
  }

  /** The value of a string of decimal digits. */
  function DigitsValue(s: string): nat
    requires AllDigits(s)
  {
    if s == [] then 0
    else DigitsValue(s[..|s| - 1]) * 10 + (s[|s| - 1] as int - '0' as int)
  }

  function Pow10(n: nat): (r: nat)
    ensures r >= 1
  {
    if n == 0 then 1 else 10 * Pow10(n - 1)
  }

  /** Index of the first '.' in `s`, if any. */
  function DotIndex(s: string): (r: Option<nat>)
    ensures r.Some? ==> r.value < |s|
  {
    if s == [] then None
    else if s[0] == '.' then Some(0)
    else match DotIndex(s[1..])
      case None => None
      case Some(k) => Some(k + 1)
  }

  /** An unsigned decimal literal: digits, optionally '.', optionally digits; at least one digit. */
  function UnsignedDecimal(t: string): Number {
    var dot := DotIndex(t);
    var whole := if dot.None? then t else t[..dot.value];
    var frac := if dot.None? then "" else t[dot.value + 1..];
    if AllDigits(whole) && AllDigits(frac) && |whole| + |frac| > 0 then
      Finite(DigitsValue(whole) as real + DigitsValue(frac) as real / Pow10(|frac|) as real)
    else NaN
  }

  /**
   * `Number(s)` for a string: surrounding white space is ignored, a blank
   * string is 0, an optionally signed decimal literal is its value, and
   * everything else is NaN (exponent, hexadecimal and "Infinity" spellings
   * are not part of this model).
   */
  function StringToNumber(s: string): Number {
    var t := Trim(s);
    if t == "" then Finite(0.0) else SignedDecimal(t)
  }

  /** An optionally signed decimal literal. */
  function SignedDecimal(t: string): Number
    requires t != ""
  {
    var negative := t[0] == '-';
    var magnitude := UnsignedDecimal(if t[0] == '-' || t[0] == '+' then t[1..] else t);
    if negative && magnitude.Finite? then Finite(-magnitude.value) else magnitude
  }

  /** `Number(undefined)` is NaN; a present form value is read as a string. */
  function FormValueToNumber(v: Option<string>): Number {
    match v
    case None => NaN
    case Some(s) => StringToNumber(s)
  }

  lemma {:induction false} DigitsValueAppend(s: string, c: char)
    requires AllDigits(s) && IsDigit(c)
    ensures AllDigits(s + [c])
    ensures DigitsValue(s + [c]) == DigitsValue(s) * 10 + (c as int - '0' as int)
  {
    assert (s + [c])[..|s + [c]| - 1] == s;
  }

  lemma {:induction false} TrimStartOfBlank(s: string)
    requires forall i :: 0 <= i < |s| ==> IsSpace(s[i])
    ensures TrimStart(s) == []
  {
    if s != [] {
      TrimStartOfBlank(s[1..]);
    }
  }

  /** A blank string, the value an emptied number input submits, coerces to 0. */
  lemma BlankIsZero(s: string)
    requires forall i :: 0 <= i < |s| ==> IsSpace(s[i])
    ensures StringToNumber(s) == Finite(0.0)
  {
    TrimStartOfBlank(s);
  }

  lemma {:induction false} DotIndexOfDigits(s: string)
    requires AllDigits(s)
    ensures DotIndex(s).None?
  {
    if s != [] {
      DotIndexOfDigits(s[1..]);
    }
  }

  lemma TrimOfDigits(s: string)
    requires s != [] && AllDigits(s)
    ensures Trim(s) == s
  {
    assert IsDigit(s[0]) && IsDigit(s[|s| - 1]);
  }

  lemma UnsignedOfDigits(s: string)
    requires s != [] && AllDigits(s)
    ensures UnsignedDecimal(s) == Finite(DigitsValue(s) as real)
  {
    DotIndexOfDigits(s);
    assert DigitsValue("") == 0;
  }

  /** A non-empty run of digits coerces to the integer it spells. */
  lemma DigitsAreInteger(s: string)
    requires s != [] && AllDigits(s)
    ensures StringToNumber(s) == Finite(DigitsValue(s) as real)
    ensures IsInteger(StringToNumber(s))
  {
    TrimOfDigits(s);
    UnsignedOfDigits(s);
    assert IsDigit(s[0]);
  }

  /** Length as JavaScript reports it: code points above U+FFFF take two UTF-16 units. */
  function Utf16Length(s: string): (n: nat)
    ensures n >= |s|
    ensures n == 0 <==> s == []
  {
    if s == [] then 0
    else Utf16Length(s[..|s| - 1]) + (if s[|s| - 1] as int >= 0x1_0000 then 2 else 1)
  }

  /** Text in the Basic Multilingual Plane (all Hangul syllables, ASCII) counts one unit per character. */
  lemma {:induction false} Utf16LengthOfBmp(s: string)
    requires forall i :: 0 <= i < |s| ==> s[i] as int < 0x1_0000
    ensures Utf16Length(s) == |s|
  {
    if s != [] {
      Utf16LengthOfBmp(s[..|s| - 1]);
    }
  }

  /** `/^\d{4}-\d{2}-\d{2}$/.test(s)` (`\d` is an ASCII digit, `$` is the end of the string). */
  predicate IsYmd(s: string) {
    |s| == 10 && forall i :: 0 <= i < 10 ==> if i == 4 || i == 7 then s[i] == '-' else IsDigit(s[i])
  }

  /** Lexicographic order on strings, by code point. */
  predicate LexLessOrEqual(a: string, b: string) {
    a == [] || (b != [] && (a[0] < b[0] || (a[0] == b[0] && LexLessOrEqual(a[1..], b[1..]))))
  }

  /**
   * `new Date(end) >= new Date(start)`. Two YYYY-MM-DD strings denoting
   * real calendar days compare as their text does (strings that name no real
   * day are compared as text too, where JavaScript gives an Invalid Date or
   * rolls the day over); a string that is not
   * YYYY-MM-DD is taken as an Invalid Date, for which every comparison is
   * false.
   */
  predicate DateNotBefore(start: string, end: string) {
    IsYmd(start) && IsYmd(end) && LexLessOrEqual(start, end)
  }
}
