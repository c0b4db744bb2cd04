/** Decimal text of 64-bit integers, read and printed. */
module Decimal {
  import opened Wrappers

  const LIMIT: int := 0x8000_0000_0000_0000

  predicate Int64(n: int)
  {
    -LIMIT <= n < LIMIT
  }

  predicate IsDigit(c: char)
  {
    '0' <= c <= '9'
  }

  function DigitOf(d: nat): char
    requires d < 10
  {
    '0' + d as char
  }

  /** The value of a non-empty run of digits. */
  function Magnitude(s: string): (r: Option<nat>)
  {
    if s == "" || !IsDigit(s[|s| - 1]) then None
    else
      var d := s[|s| - 1] as int - '0' as int;
      if |s| == 1 then Some(d)
      else
        match Magnitude(s[..|s| - 1])
        case None => None
        case Some(m) => Some(10 * m + d)
  }

  /** strconv.ParseInt in base 10: an optional sign, digits, and no value outside 64 bits. */
  function ParseInt(s: string): Option<int>
  {
    if s == "" then None
    else
      var negative := s[0] == '-';
      match Magnitude(if negative || s[0] == '+' then s[1..] else s)
      case None => None
      case Some(m) =>
        var unsigned: int := m;
        var n := if negative then -unsigned else unsigned;
        if Int64(n) then Some(n) else None
  }

  function Digits(n: nat): string
  {
    if n < 10 then [DigitOf(n)] else Digits(n / 10) + [DigitOf(n % 10)]
  }

  function FormatInt(n: int): string
  {
    if n < 0 then "-" + Digits(-n) else Digits(n)
  }

  lemma {:induction false} DigitsAreDigits(n: nat)
    ensures Digits(n) != "" && forall i :: 0 <= i < |Digits(n)| ==> IsDigit(Digits(n)[i])
  {
    if n >= 10 {
      DigitsAreDigits(n / 10);
    }
  }

  lemma {:induction false} MagnitudeOfDigits(n: nat)
    ensures Magnitude(Digits(n)) == Some(n)
  {
    if n >= 10 {
      MagnitudeOfDigits(n / 10);
      DigitsAreDigits(n / 10);
      var s := Digits(n);
      assert s[..|s| - 1] == Digits(n / 10) && s[|s| - 1] == DigitOf(n % 10);
    }
  }

  /** Printing then reading gives back every 64-bit integer, the least one included, and refuses every other. */
  lemma ParseOfFormat(n: int)
    ensures ParseInt(FormatInt(n)) == if Int64(n) then Some(n) else None
  {
    var s := FormatInt(n);
    if n < 0 {
      MagnitudeOfDigits(-n);
      assert s[0] == '-' && s[1..] == Digits(-n);
    } else {
      MagnitudeOfDigits(n);
      DigitsAreDigits(n);
      assert IsDigit(s[0]);
    }
  }

  /** What is read fits, and is what its canonical text reads as. */
  lemma ParsedFits(s: string)
    requires ParseInt(s).Some?
    ensures Int64(ParseInt(s).value) && ParseInt(FormatInt(ParseInt(s).value)) == ParseInt(s)
  {
    ParseOfFormat(ParseInt(s).value);
  }
}
