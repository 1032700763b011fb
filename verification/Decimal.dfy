/** Decimal printing of natural numbers, as an f-string prints them. */
module Decimal {

  function Digit(d: nat): char
    requires d < 10
  {
    (48 + d) as char
  }

  function Print(n: nat): (s: string)
    ensures |s| >= 1
  {
    if n < 10 then [Digit(n)] else Print(n / 10) + [Digit(n % 10)]
  }

  function Parse(s: string): int {
    if s == [] then 0
    else Parse(s[..|s| - 1]) * 10 + (s[|s| - 1] as int - 48)
  }

  /** Reading back what was printed gives the number. */
  lemma {:induction false} ParsePrint(n: nat)
    ensures Parse(Print(n)) == n
  {
    var s := Print(n);
    if n < 10 {
      assert s[..|s| - 1] == [];
    } else {
      ParsePrint(n / 10);
      assert s[..|s| - 1] == Print(n / 10);
    }
  }

  /** So different numbers print differently. */
  lemma PrintInjective(a: nat, b: nat)
    requires Print(a) == Print(b)
    ensures a == b
  {
    ParsePrint(a);
    ParsePrint(b);
  }

  /** The digits of a text, without its separators. */
  function DigitsOf(s: string): string {
    if s == [] then []
    else
      var last := s[|s| - 1];
      if last == ',' || last == '.' then DigitsOf(s[..|s| - 1]) else DigitsOf(s[..|s| - 1]) + [last]
  }

  lemma DigitsAppend(s: string, c: char)
    ensures DigitsOf(s + [c]) == if c == ',' || c == '.' then DigitsOf(s) else DigitsOf(s) + [c]
  {
    assert (s + [c])[..|s|] == s;
  }

  lemma {:induction false} PrintIsDigits(n: nat)
    ensures DigitsOf(Print(n)) == Print(n)
  {
    if n >= 10 {
      PrintIsDigits(n / 10);
      DigitsAppend(Print(n / 10), Digit(n % 10));
    } else {
      DigitsAppend([], Digit(n));
      assert [] + [Digit(n)] == [Digit(n)];
    }
  }

  lemma ParseAppend(s: string, d: nat)
    requires d < 10
    ensures Parse(s + [Digit(d)]) == Parse(s) * 10 + d
  {
    assert (s + [Digit(d)])[..|s|] == s;
  }
}
