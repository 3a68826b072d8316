/** Decimal printing and reading of numbers, as `fmt` and `strconv` do it. */
module Decimal {

  predicate IsDigit(c: char) {
    '0' <= c <= '9'
  }

  predicate AllDigits(s: string) {
    forall i :: 0 <= i < |s| ==> IsDigit(s[i])
  }

  function DigitValue(c: char): nat
    requires IsDigit(c)
  {
    (c - '0') as int
  }

  /** `%d` of a natural number. */
  function Print(n: nat): string {
    (if n < 10 then "" else Print(n / 10)) + ['0' + (n % 10) as char]
  }

  /** `%03d` of a natural number. */
  function Print3(n: nat): string {
    (if n < 10 then "00" else if n < 100 then "0" else "") + Print(n)
  }

  function Value(s: string): nat
    requires AllDigits(s)
  {
    if s == "" then 0 else 10 * Value(s[..|s| - 1]) + DigitValue(s[|s| - 1])
  }

  lemma {:induction false} ValueAppend(s: string, k: nat)
    requires AllDigits(s) && k < 10
    ensures AllDigits(s + ['0' + k as char]) && Value(s + ['0' + k as char]) == 10 * Value(s) + k
  {
    var c := '0' + k as char;
    assert (s + [c])[..|s|] == s && (s + [c])[|s|] == c;
    assert DigitValue(c) == k;
  }

  /** Reading back a printed number gives the number. */
  lemma {:induction false} ValuePrint(n: nat)
    ensures Print(n) != "" && AllDigits(Print(n)) && Value(Print(n)) == n
  {
    if n < 10 {
      ValueAppend("", n);
      assert "" + ['0' + n as char] == Print(n);
    } else {
      ValuePrint(n / 10);
      ValueAppend(Print(n / 10), n % 10);
      assert Print(n) == Print(n / 10) + ['0' + (n % 10) as char];
    }
  }

  /** Numbers are printed without leading zeros. */
  lemma {:induction false} PrintLength(n: nat)
    ensures |Print(n)| >= 1 && (n > 0 ==> Print(n)[0] != '0')
    ensures |Print(n)| == 1 <==> n < 10
    ensures |Print(n)| <= 2 <==> n < 100
  {
    if n < 10 {
      assert Print(n) == ['0' + n as char];
    } else {
      PrintLength(n / 10);
      assert Print(n) == Print(n / 10) + ['0' + (n % 10) as char];
    }
  }

  lemma {:induction false} ValueLeadingZero(s: string)
    requires AllDigits(s)
    ensures AllDigits("0" + s) && Value("0" + s) == Value(s)
  {
    var z := "0" + s;
    if s == "" {
    } else {
      ValueLeadingZero(s[..|s| - 1]);
      assert z[..|z| - 1] == "0" + s[..|s| - 1];
    }
  }

  /** Zero padding changes neither the digits' value nor that they are digits. */
  lemma {:induction false} ValuePrint3(n: nat)
    ensures Print3(n) != "" && AllDigits(Print3(n)) && Value(Print3(n)) == n
  {
    ValuePrint(n);
    ValueLeadingZero(Print(n));
    ValueLeadingZero("0" + Print(n));
    assert "0" + ("0" + Print(n)) == "00" + Print(n);
    assert n >= 100 ==> Print3(n) == Print(n);
  }

  /** The longest prefix of digits. */
  function Digits(s: string): string {
    if s != "" && IsDigit(s[0]) then [s[0]] + Digits(s[1..]) else ""
  }

  lemma {:induction false} DigitsOf(d: string, rest: string)
    requires AllDigits(d)
    requires rest == "" || !IsDigit(rest[0])
    ensures Digits(d + rest) == d
  {
    if d == "" {
      assert d + rest == rest;
    } else {
      DigitsOf(d[1..], rest);
      assert (d + rest)[1..] == d[1..] + rest;
    }
  }

  lemma {:induction false} DigitsSpec(s: string)
    ensures Digits(s) <= s && AllDigits(Digits(s))
  {
    if s == "" || !IsDigit(s[0]) {
    } else {
      DigitsSpec(s[1..]);
    }
  }
}
