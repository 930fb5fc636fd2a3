/** Decimal rendering and parsing as `strconv` does it: `FormatInt`, `Atoi`
    and `ParseUint(s, 10, 64)` on a 64-bit target. */
module Decimal {
  import opened Results

  const MAX_INT64: int := 0x7FFF_FFFF_FFFF_FFFF
  const MIN_INT64: int := -0x8000_0000_0000_0000
  const MAX_UINT64: int := 0xFFFF_FFFF_FFFF_FFFF

  predicate IsDigit(c: char) {
    '0' <= c <= '9'
  }

  function DigitChar(d: nat): char
    requires d < 10
  {
    '0' + d as char
  }

  function Digits(n: nat): string {
    if n < 10 then [DigitChar(n)] else Digits(n / 10) + [DigitChar(n % 10)]
  }

  function FormatInt(n: int): string {
    if n < 0 then "-" + Digits(-n) else Digits(n)
  }

  /** The number a non-empty run of digits denotes. */
  function ParseDigits(s: string): Option<nat> {
    if s == [] || !IsDigit(s[|s| - 1]) then None
    else
      var d := (s[|s| - 1] - '0') as nat;
      if |s| == 1 then Some(d)
      else
        match ParseDigits(s[..|s| - 1])
        case None => None
        case Some(high) => Some(10 * high + d)
  }

  function Atoi(s: string): Option<int> {
    var negative := s != [] && s[0] == '-';
    var digits := if s != [] && (s[0] == '-' || s[0] == '+') then s[1..] else s;
    match ParseDigits(digits)
    case None => None
    case Some(n) =>
      var v: int := if negative then -(n as int) else n;
      if MIN_INT64 <= v <= MAX_INT64 then Some(v) else None
  }

  function ParseUint(s: string): Option<nat> {
    match ParseDigits(s)
    case None => None
    case Some(n) => if n <= MAX_UINT64 then Some(n) else None
  }

  lemma {:induction false} DigitsAreDigits(n: nat)
    ensures Digits(n) != []
    ensures forall i :: 0 <= i < |Digits(n)| ==> IsDigit(Digits(n)[i])
  {
    if n >= 10 {
      DigitsAreDigits(n / 10);
    }
  }

  lemma {:induction false} ParseDigitsRoundTrip(n: nat)
    ensures ParseDigits(Digits(n)) == Some(n)
  {
    if n >= 10 {
      ParseDigitsRoundTrip(n / 10);
      var high, low := Digits(n / 10), DigitChar(n % 10);
      DigitsAreDigits(n / 10);
      assert (high + [low])[..|high|] == high;
    }
  }

  /** `Atoi` recovers every 64-bit integer `FormatInt` renders. */
  lemma AtoiRoundTrip(n: int)
    requires MIN_INT64 <= n <= MAX_INT64
    ensures Atoi(FormatInt(n)) == Some(n)
  {
    var m: nat := if n < 0 then -n else n;
    ParseDigitsRoundTrip(m);
    DigitsAreDigits(m);
    assert FormatInt(n)[0] != '-' ==> IsDigit(FormatInt(n)[0]);
    if n < 0 {
      assert FormatInt(n)[1..] == Digits(m);
    }
  }

  /** A rendered revision parses back, so a snapshot's cursor names its revision. */
  lemma ParseUintRoundTrip(n: nat)
    ensures ParseUint(Digits(n)) == (if n <= MAX_UINT64 then Some(n) else None)
  {
    ParseDigitsRoundTrip(n);
  }
}
