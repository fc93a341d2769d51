/** Integers written in decimal and read back, as Go's strconv does it for 64-bit integers. */
module Decimal {
  import opened Basics

  const INT64_MAX: int := 0x7FFF_FFFF_FFFF_FFFF
  const INT64_MIN: int := -0x8000_0000_0000_0000

  predicate IsDigit(c: char) { '0' <= c <= '9' }

  predicate AllDigits(s: string) { forall c :: c in s ==> IsDigit(c) }

  function DigitChar(d: nat): (c: char)
    requires d < 10
    ensures IsDigit(c) && DigitValue(c) == d
  {
    ('0' as int + d) as char
  }

  function DigitValue(c: char): nat
    requires IsDigit(c)
  {
    c as int - '0' as int
  }

  function Digits(n: nat): (s: string)
    ensures s != [] && AllDigits(s)
  {
    if n < 10 then [DigitChar(n)] else Digits(n / 10) + [DigitChar(n % 10)]
  }

  function Value(s: string): nat
    requires AllDigits(s)
  {
    if s == [] then 0 else Value(s[..|s| - 1]) * 10 + DigitValue(s[|s| - 1])
  }

  lemma {:induction false} DigitsRoundTrip(n: nat)
    ensures Value(Digits(n)) == n
  {
    if n >= 10 {
      DigitsRoundTrip(n / 10);
      var s := Digits(n);
      assert s[..|s| - 1] == Digits(n / 10);
    }
  }

  function Itoa(n: int): string { if n < 0 then ['-'] + Digits(-n) else Digits(n) }

  /** A number, or why there is none: not a number at all, or beyond 64 bits (then the nearest bound). */
  datatype Parsed = Number(n: int) | NotANumber | OutOfRange(bound: int)

  function Atoi(s: string): Parsed {
    var negative := s != [] && s[0] == '-';
    var digits := if s != [] && (s[0] == '-' || s[0] == '+') then s[1..] else s;
    if digits == [] || !AllDigits(digits) then NotANumber
    else
      var magnitude: int := Value(digits);
      var n := if negative then -magnitude else magnitude;
      if n > INT64_MAX then OutOfRange(INT64_MAX)
      else if n < INT64_MIN then OutOfRange(INT64_MIN)
      else Number(n)
  }

  lemma ItoaRoundTrip(n: int)
    ensures Atoi(Itoa(n)) == (if n > INT64_MAX then OutOfRange(INT64_MAX)
                              else if n < INT64_MIN then OutOfRange(INT64_MIN) else Number(n))
  {
    var d := Digits(if n < 0 then -n else n);
    DigitsRoundTrip(if n < 0 then -n else n);
    assert d[0] in d;
    if n < 0 {
      assert Itoa(n)[1..] == d;
    }
  }

  /** Nothing but digits and a sign: no dot to split at and no space to trim. */
  lemma ItoaPlain(n: int)
    ensures Itoa(n) != [] && forall c :: c in Itoa(n) ==> IsDigit(c) || c == '-'
  {
  }

  predicate IsSpace(c: char) { c in {' ', '\t', '\n', '\r'} }

  function TrimLeft(s: string): string { if s != [] && IsSpace(s[0]) then TrimLeft(s[1..]) else s }

  function TrimRight(s: string): string { if s != [] && IsSpace(s[|s| - 1]) then TrimRight(s[..|s| - 1]) else s }

  function TrimSpace(s: string): string { TrimRight(TrimLeft(s)) }
}
