/** Decimal numerals, as `%d` prints them and as a reader takes them back. */
module Decimal {

  predicate IsDigit(c: char) {
    '0' <= c <= '9'
  }

  predicate AllDigits(s: string) {
    forall i :: 0 <= i < |s| ==> IsDigit(s[i])
  }

  function DigitValue(c: char): nat
    requires IsDigit(c)
  {
    c as int - '0' as int
  }

  function DigitChar(d: nat): char
    requires d < 10
  {
    ('0' as int + d) as char
  }

  /** The numeral of `n`, most significant digit first. */
  function Format(n: nat): (s: string)
    ensures s != [] && AllDigits(s)
  {
    if n < 10 then [DigitChar(n)] else Format(n / 10) + [DigitChar(n % 10)]
  }

  function Parse(s: string): nat
    requires AllDigits(s)
  {
    if s == [] then 0 else 10 * Parse(s[..|s| - 1]) + DigitValue(s[|s| - 1])
  }

  lemma {:induction false} ParseFormat(n: nat)
    ensures Parse(Format(n)) == n
  {
    var s := Format(n);
    if n < 10 {
      assert s[..|s| - 1] == [];
    } else {
      ParseFormat(n / 10);
      assert s[..|s| - 1] == Format(n / 10);
    }
  }

  /** The digits are the usual ones, most significant first. */
  lemma DigitsAreUsual()
    ensures Format(0) == "0" && Format(12345) == "12345" && Format(67890) == "67890"
  {
    assert Format(1) == "1" && Format(12) == "12" && Format(123) == "123" && Format(1234) == "1234";
    assert Format(6) == "6" && Format(67) == "67" && Format(678) == "678" && Format(6789) == "6789";
  }

  lemma FormatInjective(m: nat, n: nat)
    requires Format(m) == Format(n)
    ensures m == n
  {
    ParseFormat(m);
    ParseFormat(n);
  }

  // ---- Which texts are numerals ----

  function Zeros(k: nat): string {
    seq(k, i => '0')
  }

  /** Digits are a number's numeral behind any number of zeros. */
  lemma {:induction false} DigitsAreNumeral(d: string) returns (k: nat)
    requires d != [] && AllDigits(d)
    ensures d == Zeros(k) + Format(Parse(d))
  {
    var front, last := d[..|d| - 1], DigitValue(d[|d| - 1]);
    assert d == front + [DigitChar(last)];
    if front == [] {
      k := 0;
      assert Zeros(0) == [];
    } else {
      k := DigitsAreNumeral(front);
      if Parse(front) == 0 {
        assert Zeros(k) + "0" == Zeros(k + 1);
        k := k + 1;
      }
    }
  }

  lemma {:induction false} ZerosAddNothing(k: nat, n: nat)
    ensures AllDigits(Zeros(k) + Format(n)) && Parse(Zeros(k) + Format(n)) == n
  {
    var s := Zeros(k) + Format(n);
    if n < 10 {
      ParseZeros(k);
      assert s[..|s| - 1] == Zeros(k);
    } else {
      ZerosAddNothing(k, n / 10);
      assert s[..|s| - 1] == Zeros(k) + Format(n / 10);
    }
  }

  lemma {:induction false} ParseZeros(k: nat)
    ensures Parse(Zeros(k)) == 0
  {
    if k > 0 {
      ParseZeros(k - 1);
      assert Zeros(k)[..k - 1] == Zeros(k - 1);
    }
  }
}
