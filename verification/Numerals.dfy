/** Decimal numerals as strconv reads and writes them. */
module Numerals {

  const MAX_INT: int := 0x7fff_ffff_ffff_ffff

  predicate IsDigit(c: char) {
    '0' <= c <= '9'
  }

  predicate AllDigits(s: string) {
    forall i :: 0 <= i < |s| ==> IsDigit(s[i])
  }

  function DigitsValue(s: string): nat
    requires AllDigits(s)
  {
    if s == [] then 0 else DigitsValue(s[..|s| - 1]) * 10 + (s[|s| - 1] as int - '0' as int)
  }

  function Unsigned(s: string): string {
    if s != [] && (s[0] == '+' || s[0] == '-') then s[1..] else s
  }

  predicate WellFormedInt(s: string) {
    Unsigned(s) != [] && AllDigits(Unsigned(s))
  }

  function IntOf(s: string): int
    requires WellFormedInt(s)
  {
    var magnitude: int := DigitsValue(Unsigned(s));
    if s[0] == '-' then -magnitude else magnitude
  }

  /** A value and whether the call reported no error: 0 on malformed input, the nearest bound when out of range. */
  function Atoi(s: string): (int, bool) {
    if !WellFormedInt(s) then (0, false)
    else if IntOf(s) > MAX_INT then (MAX_INT, false)
    else if IntOf(s) < -MAX_INT - 1 then (-MAX_INT - 1, false)
    else (IntOf(s), true)
  }

  /** strconv.FormatInt(n, 10) for a non-negative number. */
  function Decimal(n: nat): string {
    (if n < 10 then "" else Decimal(n / 10)) + [(n % 10 + '0' as int) as char]
  }

  lemma DigitsSnoc(s: string, d: nat)
    requires AllDigits(s) && d < 10
    ensures var t := s + [(d + '0' as int) as char]; AllDigits(t) && DigitsValue(t) == DigitsValue(s) * 10 + d
  {
    var t := s + [(d + '0' as int) as char];
    assert t[..|t| - 1] == s;
  }

  lemma {:induction false} DecimalValue(n: nat)
    ensures Decimal(n) != "" && AllDigits(Decimal(n)) && DigitsValue(Decimal(n)) == n
  {
    if n < 10 {
      DigitsSnoc("", n);
    } else {
      DecimalValue(n / 10);
      DigitsSnoc(Decimal(n / 10), n % 10);
    }
  }

  lemma SignedInt(sign: char, digits: string)
    requires sign in {'+', '-'} && digits != "" && AllDigits(digits)
    ensures WellFormedInt([sign] + digits) && WellFormedInt(digits) && IntOf(digits) == DigitsValue(digits)
    ensures IntOf([sign] + digits) == (if sign == '-' then -1 else 1) * DigitsValue(digits)
  {
    assert ([sign] + digits)[1..] == digits;
    assert IsDigit(digits[0]);
  }

  /** Reading back a written number gives that number, signed or not; one that is too large reads as the bound. */
  lemma AtoiOfDecimal(n: int)
    requires n >= 0
    ensures Atoi(Decimal(n)) == Atoi(['+'] + Decimal(n)) == if n <= MAX_INT then (n, true) else (MAX_INT, false)
    ensures Atoi(['-'] + Decimal(n)) == if n <= MAX_INT + 1 then (-n, true) else (-MAX_INT - 1, false)
  {
    DecimalValue(n);
    SignedInt('+', Decimal(n));
    SignedInt('-', Decimal(n));
  }
}
