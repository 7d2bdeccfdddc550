/** Decimal integers as Go prints (`%d`) and parses (`strconv.ParseInt`, base 10, 64 bits) them. */
module Decimal {
  import opened Basics

  predicate IsDigit(c: char) {
    '0' <= c <= '9'
  }

  function Print(n: nat): (s: string)
    ensures s != "" && forall i | 0 <= i < |s| :: IsDigit(s[i])
  {
    if n < 10 then ['0' + n as char] else Print(n / 10) + ['0' + (n % 10) as char]
  }

  /** The value of a string of digits. */
  function Value(s: string): nat
    requires forall i | 0 <= i < |s| :: IsDigit(s[i])
  {
    if s == "" then 0 else assert IsDigit(s[|s| - 1]); 10 * Value(s[..|s| - 1]) + (s[|s| - 1] as int - '0' as int)
  }

  const INT64_MAX: int := 0x7FFF_FFFF_FFFF_FFFF

  /** An optional sign, then at least one digit, then nothing; the value must fit 64 bits. */
  function Parse(s: string): Option<int> {
    var signed := s != "" && (s[0] == '+' || s[0] == '-');
    var digits := if signed then s[1..] else s;
    if digits == "" || exists i | 0 <= i < |digits| :: !IsDigit(digits[i]) then None
    else
      var v: int := Value(digits);
      if signed && s[0] == '-' then (if v > INT64_MAX + 1 then None else Some(-v))
      else if v > INT64_MAX then None else Some(v)
  }

  lemma {:induction false} ValueOfPrint(n: nat)
    ensures Value(Print(n)) == n
  {
    if n < 10 {
      assert Print(n)[..0] == "";
    } else {
      ValueOfPrint(n / 10);
      var s := Print(n);
      assert s[..|s| - 1] == Print(n / 10);
    }
  }

  lemma ParseOfPrint(n: nat)
    requires n <= INT64_MAX
    ensures Parse(Print(n)) == Some(n)
  {
    ValueOfPrint(n);
    assert IsDigit(Print(n)[0]);
  }

  /** A sign is accepted in front, a plus without effect. */
  lemma ParseOfSigned(n: nat)
    requires n <= INT64_MAX
    ensures Parse("-" + Print(n)) == Some(0 - (n as int)) && Parse("+" + Print(n)) == Some(n)
  {
    ValueOfPrint(n);
    assert ("-" + Print(n))[1..] == Print(n) && ("+" + Print(n))[1..] == Print(n);
  }

  /** What does not fit a signed 64-bit integer is refused. */
  lemma ParseTooBig(n: nat)
    requires n > 9_223_372_036_854_775_807
    ensures Parse(Print(n)) == None
  {
    ValueOfPrint(n);
    assert IsDigit(Print(n)[0]);
  }
}
