/** Decimal text of integers, as the library prints it, and the reader that undoes it. */
module Decimal {
  predicate IsDigit(c: char)
  {
    '0' <= c <= '9'
  }

  function DigitOf(d: nat): (c: char)
    requires d < 10
    ensures IsDigit(c)
  {
    '0' + d as char
  }

  function ValueOf(c: char): (d: nat)
    requires IsDigit(c)
    ensures d < 10 && DigitOf(d) == c
  {
    (c - '0') as nat
  }

  /** The decimal digits of a number, most significant first, without leading zeros. */
  function Digits(n: nat): (text: string)
    ensures text != [] && forall i | 0 <= i < |text| :: IsDigit(text[i])
    ensures |text| > 1 ==> text[0] != '0'
  {
    if n < 10 then [DigitOf(n)] else Digits(n / 10) + [DigitOf(n % 10)]
  }

  function Text(n: int): string
  {
    if n < 0 then "-" + Digits(-n) else Digits(n)
  }

  /** The number that a string of digits denotes. */
  function Number(text: string): nat
    requires forall i | 0 <= i < |text| :: IsDigit(text[i])
  {
    if text == [] then 0 else 10 * Number(text[..|text| - 1]) + ValueOf(text[|text| - 1])
  }

  lemma {:induction false} NumberOfDigits(n: nat)
    ensures Number(Digits(n)) == n
  {
    if n < 10 {
      assert Digits(n)[..0] == [];
    } else {
      NumberOfDigits(n / 10);
      assert Digits(n)[..|Digits(n)| - 1] == Digits(n / 10);
    }
  }

  /** How many characters at the head of a text are digits. */
  function Run(text: string): (n: nat)
    ensures n <= |text| && (forall i | 0 <= i < n :: IsDigit(text[i])) && (n < |text| ==> !IsDigit(text[n]))
  {
    if text == [] || !IsDigit(text[0]) then 0 else 1 + Run(text[1..])
  }

  /** Reads a number off the head of a text: its value, and the rest. */
  function ReadNat(text: string): (nat, string)
  {
    (Number(text[..Run(text)]), text[Run(text)..])
  }

  function ReadInt(text: string): (int, string)
  {
    if text != [] && text[0] == '-' then
      var (n, rest) := ReadNat(text[1..]);
      (0 - n, rest)
    else ReadNat(text)
  }

  predicate StartsOutside(rest: string)
  {
    rest == [] || !IsDigit(rest[0])
  }

  lemma {:induction false} RunOf(digits: string, rest: string)
    requires (forall i | 0 <= i < |digits| :: IsDigit(digits[i])) && StartsOutside(rest)
    ensures Run(digits + rest) == |digits|
  {
    if digits == [] {
      assert digits + rest == rest;
    } else {
      assert (digits + rest)[1..] == digits[1..] + rest;
      RunOf(digits[1..], rest);
    }
  }

  lemma ReadDigits(n: nat, rest: string)
    requires StartsOutside(rest)
    ensures ReadNat(Digits(n) + rest) == (n, rest)
  {
    NumberOfDigits(n);
    RunOf(Digits(n), rest);
    assert (Digits(n) + rest)[..|Digits(n)|] == Digits(n);
    assert (Digits(n) + rest)[|Digits(n)|..] == rest;
  }

  /** Reading undoes printing, whatever text follows. */
  lemma ReadText(n: int, rest: string)
    requires StartsOutside(rest)
    ensures ReadInt(Text(n) + rest) == (n, rest)
  {
    hide Digits, ReadNat;
    if n < 0 {
      ReadDigits(-n, rest);
      assert (Text(n) + rest)[1..] == Digits(-n) + rest;
    } else {
      ReadDigits(n, rest);
      assert IsDigit((Text(n) + rest)[0]);
    }
  }

  /** A number below a power of ten has no more digits than that power. */
  lemma {:induction false} DigitsFit(n: nat, places: nat, bound: nat)
    requires places > 0 && bound == Power(places) && n < bound
    ensures |Digits(n)| <= places
  {
    if n >= 10 {
      DigitsFit(n / 10, places - 1, Power(places - 1));
    }
  }

  function Power(places: nat): nat
  {
    if places == 0 then 1 else 10 * Power(places - 1)
  }
}
