/**
 Decimal printing and parsing of integers, as the density label is written
 (`fmt.Sprint` of an int64) and read back (`strconv.Atoi` on a 64-bit platform).
 */
module Decimal {
  import opened Wrappers

  const MIN_INT64: int := -0x8000_0000_0000_0000
  const MAX_INT64: int := 0x7FFF_FFFF_FFFF_FFFF

  predicate FitsInt64(n: int) {
    MIN_INT64 <= n <= MAX_INT64
  }

  predicate IsDigit(c: char) {
    '0' <= c <= '9'
  }

  function DigitChar(d: nat): (c: char)
    requires d < 10
    ensures IsDigit(c)
  {
    '0' + d as char
  }

  function DigitValue(c: char): int
    requires IsDigit(c)
  {
    (c - '0') as int
  }

  /** The digits of a natural number, most significant first, without leading zeros. */
  function Digits(n: nat): (s: string)
    ensures s != []
  {
    if n < 10 then [DigitChar(n)] else Digits(n / 10) + [DigitChar(n % 10)]
  }

  function Itoa(n: int): (s: string)
    ensures s != []
  {
    if n < 0 then ['-'] + Digits(-n) else Digits(n)
  }

  /** The value of a string of digits; None when some character is not a digit. */
  function DigitsValue(s: string): Option<int> {
    if s == [] then Some(0)
    else
      var c := s[|s| - 1];
      match DigitsValue(s[..|s| - 1])
      case None => None
      case Some(high) => if IsDigit(c) then Some(10 * high + DigitValue(c)) else None
  }

  function Unsigned(s: string): Option<int> {
    if s == [] then None else DigitsValue(s)
  }

  /** Optional sign, at least one digit, nothing else; no bound on the value. */
  function ParseInteger(s: string): Option<int> {
    if s == [] then None
    else if s[0] == '-' then
      match Unsigned(s[1..]) case None => None case Some(m) => Some(-m)
    else if s[0] == '+' then
      match Unsigned(s[1..]) case None => None case Some(m) => Some(m)
    else
      match Unsigned(s) case None => None case Some(m) => Some(m)
  }

  /** `strconv.Atoi`: a value outside 64 bits is an error like a malformed one. */
  function Atoi(s: string): Option<int> {
    match ParseInteger(s)
    case None => None
    case Some(n) => if FitsInt64(n) then Some(n) else None
  }

  lemma {:induction false} DigitsRoundTrip(n: nat)
    ensures DigitsValue(Digits(n)) == Some(n)
    ensures IsDigit(Digits(n)[0])
  {
    if n < 10 {
      assert Digits(n)[..0] == [];
    } else {
      DigitsRoundTrip(n / 10);
      var s := Digits(n);
      assert s[..|s| - 1] == Digits(n / 10);
    }
  }

  lemma ParseOfItoa(n: int)
    ensures ParseInteger(Itoa(n)) == Some(n)
  {
    if n < 0 {
      DigitsRoundTrip(-n);
      assert Itoa(n)[1..] == Digits(-n);
    } else {
      DigitsRoundTrip(n);
    }
  }

  /** Parsing what was printed gives the number back exactly for the 64-bit values, and an error for all others. */
  lemma AtoiOfItoa(n: int)
    ensures Atoi(Itoa(n)) == if FitsInt64(n) then Some(n) else None
  {
    ParseOfItoa(n);
  }

  // ----- the language of integers -----

  function Pow10(n: nat): nat {
    if n == 0 then 1 else 10 * Pow10(n - 1)
  }

  predicate AllDigits(s: string) {
    forall c | c in s :: '0' <= c <= '9'
  }

  /** A text of digits has a value, which is positional in base ten, and no other text has. */
  lemma {:induction false} DigitsValueExactly(s: string)
    ensures DigitsValue(s).Some? <==> AllDigits(s)
    ensures DigitsValue(s).Some? ==> DigitsValue(s).value >= 0
  {
    if s != [] {
      var rest, last := s[..|s| - 1], s[|s| - 1];
      DigitsValueExactly(rest);
      assert s == rest + [last];
      assert AllDigits(s) <==> AllDigits(rest) && IsDigit(last) by {
        assert last in s && forall c | c in rest :: c in s;
      }
    }
  }

  lemma ScaleBy(x: int, p: int, y: int)
    ensures 10 * (x * p + y) == x * (10 * p) + 10 * y
  {
  }

  /** The value of a text in two parts: the first counts ten to the number of digits of the second. */
  lemma {:induction false} DigitsValueSplits(a: string, b: string)
    requires DigitsValue(a).Some? && DigitsValue(b).Some?
    ensures DigitsValue(a + b) == Some(DigitsValue(a).value * Pow10(|b|) + DigitsValue(b).value)
  {
    if b == [] {
      assert a + b == a;
    } else {
      var rest := b[..|b| - 1];
      DigitsValueSplits(a, rest);
      assert (a + b)[..|a + b| - 1] == a + rest;
      ScaleBy(DigitsValue(a).value, Pow10(|rest|), DigitsValue(rest).value);
    }
  }

  lemma DigitValueOfOne(c: char)
    requires '0' <= c <= '9'
    ensures DigitsValue([c]) == Some(c as int - 48)
  {
    assert [c][..0] == [];
  }

  /** The text without its sign. */
  function WithoutSign(s: string): string {
    if s != [] && (s[0] == '-' || s[0] == '+') then s[1..] else s
  }

  /**
   Exactly the texts of an optional sign and at least one digit parse, if the value, negated for a minus, is within 64
   bits; leading zeros and a plus are accepted, spaces, points and the empty text are not.
   */
  lemma ParsesExactly(s: string)
    ensures var digits := WithoutSign(s);
            var text := digits != [] && AllDigits(digits);
            && (text ==> DigitsValue(digits).Some?)
            && (Atoi(s).Some? <==>
                  && text
                  && if s[0] == '-' then DigitsValue(digits).value <= 9223372036854775808
                     else DigitsValue(digits).value <= 9223372036854775807)
            && (Atoi(s).Some? ==>
                  Atoi(s).value == if s[0] == '-' then -DigitsValue(digits).value else DigitsValue(digits).value)
  {
    DigitsValueExactly(WithoutSign(s));
    if s != [] {
      assert s == [s[0]] + s[1..];
    }
  }

  /** A number is printed with digits only, after a minus if it is negative, and without leading zeros. */
  lemma PrintsCanonically(n: int)
    ensures var s := Itoa(n);
            var digits := if n < 0 then s[1..] else s;
            (s[0] == '-' <==> n < 0) && digits != [] && AllDigits(digits) && (digits[0] == '0' ==> n == 0)
  {
    DigitsAreCanonical(if n < 0 then -n else n);
    var digits := Digits(if n < 0 then -n else n);
    assert digits[0] in digits;
    assert n < 0 ==> Itoa(n)[1..] == digits;
  }

  lemma {:induction false} DigitsAreCanonical(n: nat)
    ensures AllDigits(Digits(n)) && (Digits(n)[0] == '0' ==> n == 0)
  {
    if n >= 10 {
      DigitsAreCanonical(n / 10);
    }
  }
}
