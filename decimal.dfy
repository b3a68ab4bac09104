/** Decimal rendering of a natural number, as Rust's `format!("{}", n)` prints an unsigned integer. */
module Decimal {

  predicate IsDigit(c: char) { '0' <= c <= '9' }

  function DigitChar(d: nat): (c: char)
    requires d < 10
    ensures IsDigit(c) && c as int - '0' as int == d
  {
    ('0' as int + d) as char
  }

  /** The decimal numeral of `n`: digits only, no sign, no leading zero. */
  function Render(n: nat): (s: string)
    decreases n
  {
    if n < 10 then [DigitChar(n)] else Render(n / 10) + [DigitChar(n % 10)]
  }

  /** The value a string of digits denotes, reading the most significant digit first. */
  function Value(s: string): nat
    requires forall i :: 0 <= i < |s| ==> IsDigit(s[i])
  {
    if s == [] then 0
    else
      assert IsDigit(s[|s| - 1]);
      10 * Value(s[..|s| - 1]) + (s[|s| - 1] as int - '0' as int)
  }

  /** A rendered numeral is a non-empty digit string without a leading zero (unless it is "0"). */
  lemma {:induction false} RenderIsNumeral(n: nat)
    ensures |Render(n)| > 0
    ensures forall i :: 0 <= i < |Render(n)| ==> IsDigit(Render(n)[i])
    ensures Render(n)[0] == '0' <==> n == 0
    decreases n
  {
    if n >= 10 {
      RenderIsNumeral(n / 10);
    }
  }

  /** Reading a rendered numeral gives the number back. */
  lemma {:induction false} ValueOfRender(n: nat)
    ensures forall i :: 0 <= i < |Render(n)| ==> IsDigit(Render(n)[i])
    ensures Value(Render(n)) == n
    decreases n
  {
    RenderIsNumeral(n);
    if n >= 10 {
      var s := Render(n);
      ValueOfRender(n / 10);
      assert s[..|s| - 1] == Render(n / 10);
    }
  }

  /** Distinct numbers render to distinct numerals. */
  lemma RenderInjective(m: nat, n: nat)
    requires Render(m) == Render(n)
    ensures m == n
  {
    ValueOfRender(m);
    ValueOfRender(n);
  }
}
