/** Integers as text: JavaScript's `toString` on integers and `parseInt` without a radix. */
module Decimal {

  /** The result of `parseInt`. */
  datatype Number = NaN | Num(n: int)

  const DIGITS := "0123456789"

  function PrintNat(n: nat): string {
    if n < 10 then [DIGITS[n]] else PrintNat(n / 10) + [DIGITS[n % 10]]
  }

  function Print(n: int): string {
    if n < 0 then "-" + PrintNat(-n) else PrintNat(n)
  }

  predicate IsSpace(c: char) {
    c == ' ' || c == '\t' || c == '\n' || c == '\r'
  }

  predicate IsDigit(c: char) { '0' <= c <= '9' }

  predicate IsHexDigit(c: char) { IsDigit(c) || 'a' <= c <= 'f' || 'A' <= c <= 'F' }

  function DigitValue(c: char): nat
    requires IsHexDigit(c)
  {
    if IsDigit(c) then (c - '0') as int
    else if 'a' <= c then 10 + (c - 'a') as int
    else 10 + (c - 'A') as int
  }

  function SkipSpaces(s: string): string {
    if |s| > 0 && IsSpace(s[0]) then SkipSpaces(s[1..]) else s
  }

  /** The longest prefix of digits, in base ten or sixteen. */
  function DigitPrefix(s: string, hex: bool): (r: string)
    ensures forall i :: 0 <= i < |r| ==> IsHexDigit(r[i])
  {
    if |s| > 0 && (IsDigit(s[0]) || (hex && IsHexDigit(s[0]))) then [s[0]] + DigitPrefix(s[1..], hex) else []
  }

  function Value(s: string, base: nat): nat
    requires forall i :: 0 <= i < |s| ==> IsHexDigit(s[i])
  {
    if |s| == 0 then 0 else Value(s[..|s| - 1], base) * base + DigitValue(s[|s| - 1])
  }

  function ParseUnsigned(s: string): Number {
    var hex := |s| >= 2 && s[0] == '0' && (s[1] == 'x' || s[1] == 'X');
    var digits := DigitPrefix(if hex then s[2..] else s, hex);
    if |digits| == 0 then NaN else Num(Value(digits, if hex then 16 else 10))
  }

  /** Leading white space, an optional sign, and as many digits as follow; the rest is ignored. */
  function ParseInt(s: string): Number {
    var t := SkipSpaces(s);
    if |t| > 0 && t[0] == '-' then
      match ParseUnsigned(t[1..])
      case NaN => NaN
      case Num(n) => Num(-n)
    else if |t| > 0 && t[0] == '+' then ParseUnsigned(t[1..])
    else ParseUnsigned(t)
  }

  predicate AllDigits(s: string) {
    forall i :: 0 <= i < |s| ==> IsDigit(s[i])
  }

  lemma {:induction false} PrintIsDigits(n: nat)
    ensures |PrintNat(n)| > 0 && AllDigits(PrintNat(n))
  {
    if n >= 10 {
      PrintIsDigits(n / 10);
    }
  }

  lemma {:induction false} PrintHasValue(n: nat)
    requires AllDigits(PrintNat(n))
    ensures Value(PrintNat(n), 10) == n
  {
    var s := PrintNat(n);
    if n >= 10 {
      PrintIsDigits(n / 10);
      PrintHasValue(n / 10);
      assert s[..|s| - 1] == PrintNat(n / 10);
      assert DigitValue(s[|s| - 1]) == n % 10;
    } else {
      assert s[..0] == [];
      assert DigitValue(s[0]) == n;
    }
  }

  lemma {:induction false} DigitsAreTaken(s: string)
    requires AllDigits(s)
    ensures DigitPrefix(s, false) == s
  {
    if |s| > 0 {
      DigitsAreTaken(s[1..]);
    }
  }

  lemma ParsePrintNat(n: nat)
    ensures ParseUnsigned(PrintNat(n)) == Num(n)
    ensures |PrintNat(n)| > 0 && IsDigit(PrintNat(n)[0])
  {
    PrintIsDigits(n);
    PrintHasValue(n);
    DigitsAreTaken(PrintNat(n));
    assert IsDigit(PrintNat(n)[0]);
    if |PrintNat(n)| >= 2 {
      assert IsDigit(PrintNat(n)[1]);
    }
  }

  /** How a text with or without a minus sign, followed by a digit, is read. */
  lemma ParseSigned(digits: string)
    requires |digits| > 0 && IsDigit(digits[0])
    ensures ParseInt(digits) == ParseUnsigned(digits)
    ensures ParseInt("-" + digits) ==
      match ParseUnsigned(digits) case NaN => NaN case Num(n) => Num(-n)
  {
    var s := "-" + digits;
    assert s[0] == '-' && s[1..] == digits;
    assert SkipSpaces(s) == s && SkipSpaces(digits) == digits;
  }

  /** Reading an integer back gives the integer. */
  lemma ParsePrint(n: int)
    ensures ParseInt(Print(n)) == Num(n) && Print(n) != ""
  {
    var digits := PrintNat(if n < 0 then -n else n);
    ParsePrintNat(if n < 0 then -n else n);
    ParseSigned(digits);
  }
}
