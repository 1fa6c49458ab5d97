/** Decimal text for integers: `std::to_string` of an unsigned value, and
    `std::stoi`, which skips leading white space, reads an optional sign
    and the longest run of decimal digits after it, ignores whatever
    follows, and throws when there is no digit or the value does not fit
    in a 32-bit `int`. */
module Decimal {
  import opened Basics

  predicate IsDigit(c: char) {
    '0' <= c <= '9'
  }

  predicate AllDigits(s: string) {
    forall i | 0 <= i < |s| :: IsDigit(s[i])
  }

  /** The white-space characters of the C locale's `isspace`. */
  predicate IsSpace(c: char) {
    c == ' ' || c == '\t' || c == '\n' || c == '\r' || c as int == 0x0B || c as int == 0x0C
  }

  function DigitChar(d: nat): (c: char)
    requires d < 10
    ensures IsDigit(c) && c as int - '0' as int == d
  {
    (d + '0' as int) as char
  }

  /** The number a run of decimal digits denotes. */
  function ValueOf(s: string): nat
    requires AllDigits(s)
  {
    if s == [] then 0 else ValueOf(s[..|s| - 1]) * 10 + (s[|s| - 1] as int - '0' as int)
  }

  /** `std::to_string` of a non-negative number. */
  function ToDecimal(n: nat): (r: string)
    ensures 1 <= |r| && AllDigits(r)
    ensures |r| > 1 ==> r[0] != '0'
  {
    if n < 10 then [DigitChar(n)] else ToDecimal(n / 10) + [DigitChar(n % 10)]
  }

  /** Printing then reading back a number gives the number. */
  lemma {:induction false} ValueOfToDecimal(n: nat)
    ensures ValueOf(ToDecimal(n)) == n
  {
    if n >= 10 {
      var r := ToDecimal(n);
      assert r[..|r| - 1] == ToDecimal(n / 10);
      ValueOfToDecimal(n / 10);
    }
  }

  /** Distinct numbers print differently. */
  lemma ToDecimalInjective(m: nat, n: nat)
    requires ToDecimal(m) == ToDecimal(n)
    ensures m == n
  {
    ValueOfToDecimal(m);
    ValueOfToDecimal(n);
  }

  /** `std::invalid_argument` (nothing to convert) and `std::out_of_range`. */
  datatype StoiError = NoConversion | OutOfRange

  const IntMin: int := -0x8000_0000
  const IntMax: int := 0x7FFF_FFFF

  /** Where the character loop of the conversion is: still skipping white
      space, just past a sign, or inside the digits with the value read so
      far. */
  datatype StoiPhase = Blank | Signed(negative: bool) | InDigits(negative: bool, acc: nat)

  function DigitValue(c: char): nat
    requires IsDigit(c)
  {
    c as int - '0' as int
  }

  /** The end of the conversion: no digit means nothing to convert, a
      value outside `int` is out of range. */
  function Finish(phase: StoiPhase): (r: Result<int, StoiError>)
    ensures r.Ok? ==> IntMin <= r.value <= IntMax
  {
    match phase
    case InDigits(negative, acc) =>
      var v: int := if negative then -(acc as int) else acc;
      if v < IntMin || v > IntMax then Err(OutOfRange) else Ok(v)
    case _ => Err(NoConversion)
  }

  /** The character loop: leading white space, then an optional sign, then
      the longest run of digits; the first character that does not fit
      ends the conversion and the rest is ignored. */
  function Convert(s: string, phase: StoiPhase): (r: Result<int, StoiError>)
    ensures r.Ok? ==> IntMin <= r.value <= IntMax
    decreases |s|
  {
    if s == [] then Finish(phase)
    else
      var c := s[0];
      match phase
      case Blank =>
        if IsSpace(c) then Convert(s[1..], Blank)
        else if c == '-' then Convert(s[1..], Signed(true))
        else if c == '+' then Convert(s[1..], Signed(false))
        else if IsDigit(c) then Convert(s[1..], InDigits(false, DigitValue(c)))
        else Err(NoConversion)
      case Signed(negative) =>
        if IsDigit(c) then Convert(s[1..], InDigits(negative, DigitValue(c)))
        else Err(NoConversion)
      case InDigits(negative, acc) =>
        if IsDigit(c) then Convert(s[1..], InDigits(negative, acc * 10 + DigitValue(c)))
        else Finish(phase)
  }

  /** `std::stoi(s)`. */
  function Stoi(s: string): (r: Result<int, StoiError>)
    ensures r.Ok? ==> IntMin <= r.value <= IntMax
  {
    Convert(s, Blank)
  }

  /** The value of `acc` followed by the digits `d`, read left to right. */
  function Accumulate(acc: nat, d: string): nat
    requires AllDigits(d)
    decreases |d|
  {
    if d == [] then acc else Accumulate(acc * 10 + DigitValue(d[0]), d[1..])
  }

  lemma {:induction false} AccumulateSnoc(acc: nat, d: string, c: char)
    requires AllDigits(d) && IsDigit(c)
    ensures AllDigits(d + [c])
    ensures Accumulate(acc, d + [c]) == Accumulate(acc, d) * 10 + DigitValue(c)
    decreases |d|
  {
    if d != [] {
      assert (d + [c])[1..] == d[1..] + [c];
      AccumulateSnoc(acc * 10 + DigitValue(d[0]), d[1..], c);
    }
  }

  /** Reading left to right gives the value of the digits. */
  lemma {:induction false} AccumulateIsValueOf(d: string)
    requires AllDigits(d)
    ensures Accumulate(0, d) == ValueOf(d)
    decreases |d|
  {
    if d != [] {
      var init := d[..|d| - 1];
      AccumulateIsValueOf(init);
      AccumulateSnoc(0, init, d[|d| - 1]);
      assert init + [d[|d| - 1]] == d;
    }
  }

  /** Inside the digits, the loop reads all of them and stops at the first
      other character. */
  lemma {:induction false} ConvertDigits(d: string, rest: string, negative: bool, acc: nat)
    requires AllDigits(d)
    requires rest == [] || !IsDigit(rest[0])
    ensures Convert(d + rest, InDigits(negative, acc)) == Finish(InDigits(negative, Accumulate(acc, d)))
    decreases |d|
  {
    if d == [] {
      assert d + rest == rest;
    } else {
      assert (d + rest)[0] == d[0];
      assert (d + rest)[1..] == d[1..] + rest;
      ConvertDigits(d[1..], rest, negative, acc * 10 + DigitValue(d[0]));
    }
  }

  /** Digits at the start of the input are read as a number. */
  lemma StoiOfDigits(d: string, rest: string)
    requires d != [] && AllDigits(d)
    requires rest == [] || !IsDigit(rest[0])
    ensures Stoi(d + rest) == if ValueOf(d) > IntMax then Err(OutOfRange) else Ok(ValueOf(d))
  {
    assert (d + rest)[0] == d[0];
    assert (d + rest)[1..] == d[1..] + rest;
    ConvertDigits(d[1..], rest, false, DigitValue(d[0]));
    assert Accumulate(0, d) == Accumulate(DigitValue(d[0]), d[1..]);
    AccumulateIsValueOf(d);
  }

  /** `std::stoi` reads back what `std::to_string` printed, whatever text
      follows the number as long as it does not start with a digit. */
  lemma StoiReadsDecimal(n: nat, rest: string)
    requires n <= IntMax
    requires rest == [] || !IsDigit(rest[0])
    ensures Stoi(ToDecimal(n) + rest) == Ok(n)
  {
    StoiOfDigits(ToDecimal(n), rest);
    ValueOfToDecimal(n);
  }

  /** A leading minus sign negates the value. */
  lemma StoiReadsNegative(n: nat)
    requires 0 < n <= -IntMin
    ensures Stoi("-" + ToDecimal(n)) == Ok(-(n as int))
  {
    var d := ToDecimal(n);
    var s := "-" + d;
    assert s[0] == '-' && s[1..] == d;
    assert Stoi(s) == Convert(d, Signed(true));
    assert d[1..] + [] == d[1..];
    ConvertDigits(d[1..], [], true, DigitValue(d[0]));
    assert Convert(d, Signed(true)) == Convert(d[1..], InDigits(true, DigitValue(d[0])));
    assert Accumulate(0, d) == Accumulate(DigitValue(d[0]), d[1..]);
    AccumulateIsValueOf(d);
    ValueOfToDecimal(n);
  }

  /** Text with no digit after the white space and the sign is rejected
      with `std::invalid_argument`. */
  lemma StoiRejectsNonNumeric(s: string)
    requires s == [] || (!IsDigit(s[0]) && !IsSpace(s[0]) && s[0] != '-' && s[0] != '+')
    ensures Stoi(s) == Err(NoConversion)
  {
  }

  /** Leading white space is skipped. */
  lemma StoiSkipsSpace(c: char, s: string)
    requires IsSpace(c)
    ensures Stoi([c] + s) == Stoi(s)
  {
    assert ([c] + s)[1..] == s;
  }

  /** A value past the 32-bit range is rejected with `std::out_of_range`. */
  lemma StoiRejectsLarge(n: nat)
    requires n > IntMax
    ensures Stoi(ToDecimal(n)) == Err(OutOfRange)
  {
    StoiOfDigits(ToDecimal(n), []);
    assert ToDecimal(n) + [] == ToDecimal(n);
    ValueOfToDecimal(n);
  }
}
