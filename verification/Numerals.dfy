/** Decimal numerals. */
module Numerals {
  predicate IsDigit(c: char) {
    '0' <= c <= '9'
  }

  predicate IsNumeric(part: string) {
    part != [] && forall i :: 0 <= i < |part| ==> IsDigit(part[i])
  }

  function Value(part: string): nat
    requires forall i :: 0 <= i < |part| ==> IsDigit(part[i])
  {
    if part == [] then 0
    else
      assert IsDigit(part[|part| - 1]);
      10 * Value(part[..|part| - 1]) + (part[|part| - 1] as int - '0' as int)
  }

  function Decimal(n: nat): (text: string)
    ensures IsNumeric(text) && Value(text) == n
  {
    var digit := ['0' + (n % 10) as char];
    if n < 10 then
      assert digit[..0] == [];
      digit
    else
      var text := Decimal(n / 10) + digit;
      assert text[..|text| - 1] == Decimal(n / 10);
      text
  }

  /** Two numbers never share a numeral. */
  lemma DecimalInjective(m: nat, n: nat)
    requires Decimal(m) == Decimal(n)
    ensures m == n
  {
    assert Value(Decimal(m)) == Value(Decimal(n));
  }

  predicate Digits(part: string) {
    forall i :: 0 <= i < |part| ==> IsDigit(part[i])
  }

  function Pow10(k: nat): nat {
    if k == 0 then 1 else 10 * Pow10(k - 1)
  }

  lemma LastDigit(part: string)
    requires Digits(part) && part != []
    ensures Value(part) == 10 * Value(part[..|part| - 1]) + (part[|part| - 1] as int - '0' as int)
  {}

  lemma TimesTen(head: int, power: int)
    ensures head * (10 * power) == 10 * (head * power)
  {}

  lemma Pow10Next(n: nat)
    ensures Pow10(n + 1) == 10 * Pow10(n)
  {}

  /** Every digit counts with the power of ten of its place. */
  lemma {:induction false} ValueIsPositional(a: string, c: char, b: string)
    requires Digits(a) && IsDigit(c) && Digits(b)
    ensures Value(a + [c] + b) == (Value(a) * 10 + (c as int - '0' as int)) * Pow10(|b|) + Value(b)
  {
    if b == [] {
      assert a + [c] + b == a + [c] && (a + [c])[..|a|] == a;
    } else {
      var n := |b| - 1;
      ValueIsPositional(a, c, b[..n]);
      var whole := a + [c] + b;
      assert whole[..|whole| - 1] == a + [c] + b[..n] && whole[|whole| - 1] == b[n];
      var head := Value(a) * 10 + (c as int - '0' as int);
      LastDigit(whole);
      LastDigit(b);
      hide *;
      TimesTen(head, Pow10(n));
      Pow10Next(n);
    }
  }

  /** No numeral starts with a zero it could do without. */
  lemma {:induction false} DecimalIsShortest(n: nat)
    ensures |Decimal(n)| > 1 ==> Decimal(n)[0] != '0'
  {
    if n >= 10 {
      DecimalIsShortest(n / 10);
      assert n / 10 < 10 ==> Decimal(n / 10) == ['0' + (n / 10) as char];
    }
  }
}
