/** Decimal printing (`str(n)`) and reading (`int(text)`). */
module Decimal {
  import opened Wrappers
  import opened Text

  function DigitChar(d: nat): (c: char)
    requires d < 10
    ensures IsDigit(c) && DigitValue(c) == d
  {
    (d + '0' as int) as char
  }

  function DigitValue(c: char): (d: nat)
    requires IsDigit(c)
    ensures d < 10
  {
    (c as int) - ('0' as int)
  }

  predicate AllDigits(s: string) {
    forall i :: 0 <= i < |s| ==> IsDigit(s[i])
  }

  /** `str(n)` of a natural number. */
  function Print(n: nat): (s: string)
    ensures s != "" && AllDigits(s)
  {
    if n < 10 then [DigitChar(n)] else Print(n / 10) + [DigitChar(n % 10)]
  }

  /** `str(i)` */
  function PrintInt(i: int): string {
    if i < 0 then "-" + Print(-i) else Print(i)
  }

  function NatValue(s: string): nat
    requires AllDigits(s)
  {
    if s == "" then 0 else 10 * NatValue(s[..|s| - 1]) + DigitValue(s[|s| - 1])
  }

  /** `[-+]?[0-9]+` */
  predicate IsSigned(s: string) {
    && s != ""
    && var body := if s[0] == '-' || s[0] == '+' then s[1..] else s;
    body != "" && AllDigits(body)
  }

  function SignedValue(s: string): int
    requires IsSigned(s)
  {
    if s[0] == '-' then -(NatValue(s[1..]) as int)
    else if s[0] == '+' then NatValue(s[1..])
    else NatValue(s)
  }

  /** `int(text)`; None stands for the ValueError. */
  function ParseInt(s: string): Option<int> {
    var t := Strip(s);
    if IsSigned(t) then Some(SignedValue(t)) else None
  }

  lemma {:induction false} NatValuePrint(n: nat)
    ensures NatValue(Print(n)) == n
  {
    if n >= 10 {
      var s := Print(n);
      assert s[..|s| - 1] == Print(n / 10);
      NatValuePrint(n / 10);
    }
  }

  lemma PrintInjective(m: nat, n: nat)
    requires Print(m) == Print(n)
    ensures m == n
  {
    NatValuePrint(m);
    NatValuePrint(n);
  }

  lemma SignedPrint(i: int)
    ensures IsSigned(PrintInt(i)) && SignedValue(PrintInt(i)) == i
  {
    var m: nat := if i < 0 then -i else i;
    NatValuePrint(m);
    assert IsDigit(Print(m)[0]);
    if i < 0 {
      assert PrintInt(i)[1..] == Print(m);
    }
  }

  /** Reading back a printed number. */
  lemma ParsePrint(i: int)
    ensures ParseInt(PrintInt(i)) == Some(i)
  {
    hide IsSigned, SignedValue, Print;
    SignedPrint(i);
    var s := PrintInt(i);
    var m: nat := if i < 0 then -i else i;
    assert s[|s| - 1] == Print(m)[|Print(m)| - 1];
    assert IsDigit(s[|s| - 1]);
  }
}
