/** Decimal numerals: the digits of a natural number, read back and compared. */
module Decimal {
  predicate IsDigit(c: char) {
    '0' <= c <= '9'
  }

  predicate AllDigits(s: string) {
    forall i :: 0 <= i < |s| ==> IsDigit(s[i])
  }

  function Digits(n: nat): (s: string)
    ensures s != [] && AllDigits(s)
    ensures |s| > 1 ==> s[0] != '0'
  {
    var d := '0' + (n % 10) as char;
    if n < 10 then [d] else Digits(n / 10) + [d]
  }

  /** The number a digit string denotes. */
  function Number(s: string): nat
    requires AllDigits(s)
  {
    if s == [] then 0 else Number(s[..|s| - 1]) * 10 + (s[|s| - 1] - '0') as nat
  }

  /** Reading back printed digits gives the number, so numerals are unambiguous. */
  lemma {:induction false} NumberOfDigits(n: nat)
    ensures Number(Digits(n)) == n
  {
    var s := Digits(n);
    if n >= 10 {
      assert s[..|s| - 1] == Digits(n / 10);
      NumberOfDigits(n / 10);
    } else {
      assert s[..0] == [];
    }
  }

  /** Printing a canonical numeral's number gives that numeral again. */
  lemma {:induction false} DigitsOfNumber(s: string)
    requires AllDigits(s) && s != [] && (|s| > 1 ==> s[0] != '0')
    ensures Digits(Number(s)) == s
  {
    var init, d := s[..|s| - 1], s[|s| - 1];
    var v := (d - '0') as nat;
    assert s == init + [d];
    if init == [] {
      assert Number(s) == v;
    } else {
      assert AllDigits(init);
      DigitsOfNumber(init);
      Positive(init);
      assert Number(s) / 10 == Number(init) && Number(s) % 10 == v;
    }
  }

  lemma {:induction false} Positive(s: string)
    requires AllDigits(s) && s != [] && s[0] != '0'
    ensures Number(s) > 0
  {
    if |s| > 1 {
      Positive(s[..|s| - 1]);
    } else {
      assert s[..0] == [];
    }
  }
}
