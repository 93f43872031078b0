/** Decimal rendering and parsing of iteration numbers, as strconv.Itoa and strconv.Atoi do it. */
module Decimal {
  import opened Options

  function Digit(d: nat): (c: char)
    requires d < 10
  {
    ('0' as int + d) as char
  }

  predicate IsDigit(c: char) {
    '0' <= c <= '9'
  }

  function Itoa(n: nat): (s: string)
    ensures |s| > 0 && forall i :: 0 <= i < |s| ==> IsDigit(s[i])
  {
    if n < 10 then [Digit(n)] else Itoa(n / 10) + [Digit(n % 10)]
  }

  /** The value of a digit string, most significant digit first. */
  function DigitsValue(s: string): (v: int) {
    if s == "" then 0
    else 10 * DigitsValue(s[..|s| - 1]) + (s[|s| - 1] as int - '0' as int)
  }

  /** An optional sign followed by at least one digit; anything else does not parse. */
  function Atoi(s: string): (r: Option<int>) {
    var signed := s != "" && (s[0] == '+' || s[0] == '-');
    var digits := if signed then s[1..] else s;
    if digits == "" || exists i :: 0 <= i < |digits| && !IsDigit(digits[i]) then None
    else Some(if signed && s[0] == '-' then -DigitsValue(digits) else DigitsValue(digits))
  }

  lemma {:induction false} DigitsValueItoa(n: nat)
    ensures DigitsValue(Itoa(n)) == n
  {
    if n >= 10 {
      DigitsValueItoa(n / 10);
      assert Itoa(n)[..|Itoa(n)| - 1] == Itoa(n / 10);
    }
  }

  /** Parsing undoes rendering, so two iterations never share a path component. */
  lemma {:induction false} AtoiItoa(n: nat)
    ensures Atoi(Itoa(n)) == Some(n)
  {
    DigitsValueItoa(n);
  }

  /** Ten digits, the most significant one first and not zero, except in "0" itself. */
  lemma {:induction false} ItoaForm(n: nat)
    ensures n < 10 ==> Itoa(n) == [['0', '1', '2', '3', '4', '5', '6', '7', '8', '9'][n]]
    ensures n >= 10 ==> Itoa(n)[0] != '0' && Itoa(n) == Itoa(n / 10) + Itoa(n % 10)
  {
    if n >= 100 {
      ItoaForm(n / 10);
    }
  }

  lemma ItoaInjective(a: nat, b: nat)
    ensures Itoa(a) == Itoa(b) ==> a == b
  {
    AtoiItoa(a);
    AtoiItoa(b);
  }
}
